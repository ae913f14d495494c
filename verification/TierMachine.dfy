/** The tier volume as a machine: requests are mapped fragment by fragment while, on every
    block, a worker runs the operations of its chains.  Every interleaving is allowed. */
module TierMachine {
  import opened Basics
  import opened Barrier
  import opened Split
  import opened TierChain
  import opened TierFlat

  datatype Config = Config(bs: nat, n: nat)

  /** One block: the fragments mapped to it and not finished, the position in the chain of the
      first one, and what the chain works on. */
  datatype Worker = Worker(jobs: seq<Job>, pc: nat, l: Local)

  /** Shared by all blocks: the requests so far, how many fragments of the newest are mapped,
      and for each write request the blocks that have been handed over. */
  datatype Board = Board(reqs: seq<Req>, next: nat, arrived: seq<set<nat>>)

  datatype State = State(board: Board, blocks: seq<Worker>)

  /* ---- one block's chain ---- */

  ghost function Chain(bs: nat, j: Job): (ts: seq<Task>)
    requires Fits(bs, j)
    ensures forall i :: 0 <= i < |ts| ==> Fits(bs, ts[i].job)
  {
    Tasks(Compile(bs, j), j)
  }

  ghost predicate AllFit(bs: nat, js: seq<Job>) {
    forall i :: 0 <= i < |js| ==> Fits(bs, js[i])
  }

  ghost predicate WorkerOk(bs: nat, w: Worker) {
    && AllFit(bs, w.jobs)
    && if w.jobs == [] then w.pc == 0 else w.pc < |Compile(bs, w.jobs[0])|
  }

  /** What the block is when the chain in hand is finished. */
  ghost function Soon(bs: nat, w: Worker): Local
    requires WorkerOk(bs, w) && w.jobs != []
  {
    RunTasks(bs, Chain(bs, w.jobs[0])[w.pc..], w.l)
  }

  /** The worker moves to the next operation; after the last one, to the next fragment. */
  function Moved(bs: nat, w: Worker, l: Local): Worker
    requires w.jobs != []
  {
    if w.pc + 1 < |Compile(bs, w.jobs[0])| then Worker(w.jobs, w.pc + 1, l)
    else Worker(w.jobs[1..], 0, l)
  }

  /** The operation that the worker is about to run. */
  function Current(bs: nat, w: Worker): Task
    requires w.jobs != [] && w.pc < |Compile(bs, w.jobs[0])|
  {
    Task(Compile(bs, w.jobs[0])[w.pc], w.jobs[0])
  }

  /** An operation leads on to the same end of the chain, and the last one reaches it. */
  lemma SoonStep(bs: nat, w: Worker)
    requires WorkerOk(bs, w) && w.jobs != []
    ensures var m := Moved(bs, w, Perform(bs, Current(bs, w), w.l));
            && WorkerOk(bs, m)
            && if w.pc + 1 < |Compile(bs, w.jobs[0])| then Soon(bs, m) == Soon(bs, w) else m.l == Soon(bs, w)
  {
    hide Perform, Fits;
    var ts := Chain(bs, w.jobs[0]);
    assert ts[w.pc..][0] == Current(bs, w) && ts[w.pc..][1..] == ts[w.pc + 1..];
    assert Soon(bs, w) == RunTasks(bs, ts[w.pc + 1..], Perform(bs, Current(bs, w), w.l));
    if w.pc + 1 == |ts| {
      assert ts[w.pc + 1..] == [];
    }
  }

  /** A chain about to start will do what its fragment is meant to do. */
  lemma SoonAtStart(bs: nat, w: Worker)
    requires WorkerOk(bs, w) && w.jobs != [] && w.pc == 0 && Sized(bs, w.l)
    ensures ViewOf(Soon(bs, w)) == Applied(bs, w.jobs[0], ViewOf(w.l))
  {
    hide Applied, RunTasks, Perform;
    assert Chain(bs, w.jobs[0])[0..] == Chain(bs, w.jobs[0]);
    ChainMeaning(bs, w.jobs[0], w.l);
  }

  /* ---- the barrier of a write request ---- */

  /** The step that hands the block over for submission. */
  function PrepareAt(bs: nat, j: Job): nat {
    if j.f.size < bs then 2 else 0
  }

  /** The block is handed over and waits for the submission. */
  predicate Waits(bs: nat, w: Worker) {
    w.jobs != [] && w.jobs[0].io == Write && w.pc == PrepareAt(bs, w.jobs[0]) + 1
  }

  predicate HandsOver(bs: nat, w: Worker) {
    w.jobs != [] && w.jobs[0].io == Write && w.pc == PrepareAt(bs, w.jobs[0])
  }

  lemma WhereItIs(bs: nat, w: Worker)
    requires w.jobs != [] && w.pc < |Compile(bs, w.jobs[0])|
    ensures Current(bs, w).op.AwaitSubmission? <==> Waits(bs, w)
    ensures Current(bs, w).op.PrepareRequest? <==> HandsOver(bs, w)
    ensures HandsOver(bs, w) ==> Current(bs, w).op.fromBuffer == (w.jobs[0].f.size < bs)
    ensures HandsOver(bs, w) || Waits(bs, w) ==> w.pc + 1 < |Compile(bs, w.jobs[0])|
  {
  }

  /** Writing the handed-over block early changes nothing for a block that waits. */
  lemma SoonOfSubmitted(bs: nat, w: Worker)
    requires WorkerOk(bs, w) && Waits(bs, w)
    ensures WorkerOk(bs, w.(l := w.l.(cache := w.l.pending)))
    ensures Soon(bs, w.(l := w.l.(cache := w.l.pending))) == Soon(bs, w)
  {
    hide Fits;
    WhereItIs(bs, w);
    var ts := Chain(bs, w.jobs[0])[w.pc..];
    assert ts[0] == Current(bs, w);
    assert Perform(bs, ts[0], w.l) == Perform(bs, ts[0], w.l.(cache := w.l.pending));
  }

  /** All fragments have been handed over, by the count computed up front in 8 bits. */
  ghost predicate Full(bs: nat, r: Req, a: set<nat>)
    requires bs > 0
  {
    |a| == SharedCount(r.offset, r.length, bs) % 256
  }

  /** The count of a write's fragments fits in its 8 bits. */
  predicate Countable(bs: nat, r: Req)
    requires bs > 0
  {
    r.io == Write ==> SharedCount(r.offset, r.length, bs) <= 255
  }

  /** The `k` blocks from `a` on. */
  ghost function Range(a: nat, k: nat): (s: set<nat>)
    ensures |s| == k && forall b :: b in s <==> a <= b < a + k
  {
    if k == 0 then {} else Range(a, k - 1) + {a + k - 1}
  }

  ghost function BlocksOf(r: Req, bs: nat): (s: set<nat>)
    requires bs > 0
    ensures forall b :: b in s <==> b >= 0 && Touches(r, b, bs)
  {
    Range(r.offset / bs, |Pieces(r, bs)|)
  }

  /** The count is reached exactly when every block of the request has been handed over, which
      is when the completion lets waiters pass. */
  lemma FullIffAll(bs: nat, r: Req, a: set<nat>)
    requires bs > 0 && r.length > 0 && a <= BlocksOf(r, bs) && r.io == Write && Countable(bs, r)
    ensures Full(bs, r, a) <==> a == BlocksOf(r, bs)
    ensures Full(bs, r, a) <==> After(Opened(SharedCount(r.offset, r.length, bs)), |a|).count == 0
  {
    hide Fragments, SharedCount, After, First;
    CountIsShared(r.offset, r.length, 0, bs);
    SubsetSize(a, BlocksOf(r, bs));
    SomePiece(r, bs);
    PassesIffAll(|Pieces(r, bs)|, |a|);
  }

  lemma SomePiece(r: Req, bs: nat)
    requires bs > 0 && r.length > 0
    ensures |Pieces(r, bs)| > 0
  {
  }
}
