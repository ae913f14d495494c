/** Main results for the tier policy with submission at the last arrival: safety over every run.
    `TierEarlyRun` has what becomes of them when the submission is a step of its own. */
module Tier {
  import opened Split
  import opened Volume
  import opened TierChain
  import opened TierFlat
  import opened TierMachine
  import opened TierRuns
  import opened TierWork

  /** A request enters; its next fragment is mapped; or a block's worker runs one operation. */
  datatype Event = Arrive(r: Req) | MapNext | Work(b: nat)

  /** Enough to run a step. */
  ghost predicate Shape(c: Config, st: State) {
    && BoardOk(c, st.board) && |st.blocks| == c.n
    && forall b :: 0 <= b < c.n ==> Runnable(c, st.board, st.blocks[b])
  }

  ghost predicate Runnable(c: Config, g: Board, w: Worker) {
    WorkerOk(c.bs, w) && (w.jobs != [] ==> w.jobs[0].rid < |g.reqs|)
  }

  /** The invariant; `vs` are the blocks' views before the run. */
  ghost predicate Inv(c: Config, vs: seq<View>, st: State) {
    && BoardOk(c, st.board) && Listed(c, st.board) && |st.blocks| == |vs| == c.n
    && forall b :: 0 <= b < c.n ==> Good(c, st.board, b, st.blocks[b], vs[b])
  }

  ghost predicate Enabled(c: Config, st: State, e: Event)
    requires Shape(c, st)
  {
    match e
    case Arrive(r) => AllMapped(c, st.board) && InVolume(r, c.bs, c.n) && Countable(c.bs, r) && r.io != Discard
    case MapNext => Unmapped(c, st.board)
    case Work(b) => b < c.n && st.blocks[b].jobs != [] && MayPass(c, st.board, st.blocks[b])
  }

  /** When the last block of request `rid` is handed over, the store gets all of them. */
  ghost function AllAtSubmission(c: Config, h: Board, rid: nat, blocks: seq<Worker>): (ws: seq<Worker>)
    requires BoardOk(c, h) && rid < |h.reqs|
    ensures |ws| == |blocks|
    ensures forall x :: 0 <= x < |ws| ==> ws[x] == AtSubmission(c, h, rid, x, blocks[x])
  {
    seq(|blocks|, x requires 0 <= x < |blocks| => AtSubmission(c, h, rid, x, blocks[x]))
  }

  ghost function Next(c: Config, st: State, e: Event): State
    requires Shape(c, st) && Enabled(c, st, e)
  {
    match e
    case Arrive(r) => State(Arrived(st.board, r), st.blocks)
    case MapNext =>
      MapChanges(c, st.board, 0, 0);
      var b := Target(c, st.board);
      State(OneMapped(st.board), st.blocks[b := Queued(c, st.board, st.blocks[b])])
    case Work(b) =>
      var w := st.blocks[b];
      assert Runnable(c, st.board, w);
      if HandsOver(c.bs, w) then
        var rid := w.jobs[0].rid;
        var h := HandedOver(st.board, rid, b);
        State(h, AllAtSubmission(c, h, rid, st.blocks[b := Worked(c.bs, w)]))
      else State(st.board, st.blocks[b := Worked(c.bs, w)])
  }

  ghost predicate Idle(w: Worker) {
    w.jobs == [] && w.pc == 0
  }

  /** Nothing mapped yet; `v0` is the volume's contents. */
  ghost predicate Starts(c: Config, v0: seq<Byte>, vs: seq<View>, st: State) {
    && c.bs > 0 && |v0| == c.bs * c.n && |vs| == |st.blocks| == c.n && st.board == Board([], 0, [])
    && forall b :: 0 <= b < c.n ==> StartsAt(c, v0, vs[b], b, st.blocks[b])
  }

  ghost predicate StartsAt(c: Config, v0: seq<Byte>, v: View, b: nat, w: Worker) {
    && Idle(w) && ViewOf(w.l) == v && |v.cache| == |v.back| == c.bs
    && HasBlock(v0, b, c.bs) && Content(v) == Block(v0, b, c.bs) && FlushedIsClean(v)
  }

  lemma InvIsShaped(c: Config, vs: seq<View>, st: State)
    requires Inv(c, vs, st)
    ensures Shape(c, st)
  {
    forall b | 0 <= b < c.n ensures Runnable(c, st.board, st.blocks[b]) {
      assert Good(c, st.board, b, st.blocks[b], vs[b]);
      if st.blocks[b].jobs != [] {
        assert JobOk(c, st.board, b, st.blocks[b].jobs[0]);
      }
    }
  }

  lemma StartIsInv(c: Config, v0: seq<Byte>, vs: seq<View>, st: State)
    requires Starts(c, v0, vs, st)
    ensures Inv(c, vs, st)
  {
    forall b | 0 <= b < c.n ensures Good(c, st.board, b, st.blocks[b], vs[b]) {
      assert StartsAt(c, v0, vs[b], b, st.blocks[b]);
    }
  }

  lemma GoodIsOk(c: Config, g: Board, b: nat, w: Worker, v: View)
    requires BoardOk(c, g) && Good(c, g, b, w, v)
    ensures BlockOk(c, g, b, w)
  {
  }

  lemma ArriveStep(c: Config, vs: seq<View>, st: State, r: Req)
    requires Inv(c, vs, st) && Shape(c, st) && Enabled(c, st, Arrive(r))
    ensures Inv(c, vs, Next(c, st, Arrive(r)))
  {
    hide Good, BlockOk, Mapped, BlocksOf, AllMapped;
    ArriveKeepsMapped(c, st.board, r, 0, 0);
    forall b | 0 <= b < c.n ensures Good(c, Arrived(st.board, r), b, st.blocks[b], vs[b]) {
      ArriveKeeps(c, st.board, r, b, st.blocks[b], vs[b]);
    }
  }

  lemma MapStep(c: Config, vs: seq<View>, st: State)
    requires Inv(c, vs, st) && Shape(c, st) && Enabled(c, st, MapNext)
    ensures Inv(c, vs, Next(c, st, MapNext))
  {
    hide BlockOk, Heading, Mapped, BlocksOf, Target, Queued, Touches;
    MapChanges(c, st.board, 0, 0);
    var t := Target(c, st.board);
    var s := Next(c, st, MapNext);
    forall b | 0 <= b < c.n ensures Good(c, s.board, b, s.blocks[b], vs[b]) {
      assert Good(c, st.board, b, st.blocks[b], vs[b]);
      if b == t {
        MapKeepsTarget(c, st.board, st.blocks[b], vs[b]);
        MapHeads(c, st.board, st.blocks[b], vs[b]);
      } else {
        MapKeepsOther(c, st.board, b, st.blocks[b], vs[b]);
      }
    }
  }

  lemma PlainStep(c: Config, vs: seq<View>, st: State, b: nat)
    requires Inv(c, vs, st) && Shape(c, st) && Enabled(c, st, Work(b)) && !HandsOver(c.bs, st.blocks[b])
    ensures Inv(c, vs, Next(c, st, Work(b)))
  {
    hide Good, BlockOk, Worked, MayPass, HandsOver, Listed, BoardOk;
    assert Good(c, st.board, b, st.blocks[b], vs[b]);
    WorkKeeps(c, st.board, b, st.blocks[b], vs[b]);
  }

  lemma HandOverStep(c: Config, vs: seq<View>, st: State, b: nat)
    requires Inv(c, vs, st) && Shape(c, st) && Enabled(c, st, Work(b)) && HandsOver(c.bs, st.blocks[b])
    ensures Inv(c, vs, Next(c, st, Work(b)))
  {
    hide Good, BlockOk, Worked, MayPass, HandsOver, Listed, BoardOk, AtSubmission, HandedOver, AllAtSubmission;
    var w, s := st.blocks[b], Next(c, st, Work(b));
    var rid := w.jobs[0].rid;
    assert Good(c, st.board, b, w, vs[b]);
    GoodIsOk(c, st.board, b, w, vs[b]);
    HandOverBoard(c, st.board, b, w);
    forall x | 0 <= x < c.n ensures Good(c, s.board, x, s.blocks[x], vs[x]) {
      assert Good(c, st.board, x, st.blocks[x], vs[x]);
      if x == b {
        HandOverSelf(c, st.board, b, w, rid, vs[b]);
      } else {
        HandOverOther(c, st.board, b, w, rid, x, st.blocks[x], vs[x]);
      }
    }
  }

  /** Every step keeps the invariant. */
  lemma StepKeepsInv(c: Config, vs: seq<View>, st: State, e: Event)
    requires Inv(c, vs, st) && Shape(c, st) && Enabled(c, st, e)
    ensures Inv(c, vs, Next(c, st, e))
  {
    hide Good, BlockOk, Next, MayPass, HandsOver, Listed, BoardOk, Inv;
    match e
    case Arrive(r) => ArriveStep(c, vs, st, r);
    case MapNext => MapStep(c, vs, st);
    case Work(b) =>
      if HandsOver(c.bs, st.blocks[b]) {
        HandOverStep(c, vs, st, b);
      } else {
        PlainStep(c, vs, st, b);
      }
  }

  /* ---- whole runs ---- */

  ghost predicate StepTo(c: Config, st: State, e: Event, after: State) {
    Shape(c, st) && Enabled(c, st, e) && after == Next(c, st, e)
  }

  ghost predicate IsRun(c: Config, sts: seq<State>, es: seq<Event>) {
    && |sts| == |es| + 1
    && forall i :: 0 <= i < |es| ==> StepTo(c, sts[i], es[i], sts[i + 1])
  }

  lemma {:induction false} RunKeepsInv(c: Config, v0: seq<Byte>, vs: seq<View>, sts: seq<State>, es: seq<Event>, k: nat)
    requires IsRun(c, sts, es) && Starts(c, v0, vs, sts[0]) && k < |sts|
    ensures Inv(c, vs, sts[k])
  {
    hide Inv, Starts, Shape, Enabled, Next;
    if k == 0 {
      StartIsInv(c, v0, vs, sts[0]);
    } else {
      RunKeepsInv(c, v0, vs, sts, es, k - 1);
      assert StepTo(c, sts[k - 1], es[k - 1], sts[k - 1 + 1]);
      StepKeepsInv(c, vs, sts[k - 1], es[k - 1]);
    }
  }

  /** Block `b` stands where the first `m` requests put the flat array, its backend copy where
      the last of them to flush, promote or discard it did, its status is what they left, it is
      clean if flushed, and it has delivered the flat array's bytes to its reads. */
  ghost predicate AgreesUpTo(c: Config, v0: seq<Byte>, v: View, now: View, reqs: seq<Req>, b: nat, m: nat) {
    && c.bs > 0 && |v0| == c.bs * c.n && HasBlock(v0, b, c.bs) && m <= |reqs| && AllInVolume(reqs[..m], c.bs, c.n)
    && Content(now) == Block(FlatRun(v0, reqs[..m], c.bs, c.n), b, c.bs)
    && now.back == Synced(v0, v.back, reqs[..m], b, c.bs, c.n) && now.status == Standing(v.status, reqs[..m], b, c.bs)
    && FlushedIsClean(now)
    && now.out == v.out + ReadLog(v0, reqs[..m], b, c.bs, c.n)
  }

  lemma AllowedPrefix(c: Config, v: View, reqs: seq<Req>, b: nat, m: nat)
    requires c.bs > 0 && |v.cache| == |v.back| == c.bs && AllInVolume(reqs, c.bs, c.n) && m <= |reqs|
    requires AllowedRun(v, reqs, b, c.bs)
    ensures AllInVolume(reqs[..m], c.bs, c.n) && AllowedRun(v, reqs[..m], b, c.bs)
  {
    hide Allowed, BlockRun, Touches, JobOn;
    assert forall k :: 0 <= k < m ==> reqs[..m][k] == reqs[k] && reqs[..m][..k] == reqs[..k];
  }

  /** The invariant says so of every block between two chains. */
  lemma InvAgrees(c: Config, v0: seq<Byte>, vs: seq<View>, st0: State, st: State, b: nat)
    requires Starts(c, v0, vs, st0) && Inv(c, vs, st) && b < c.n
    ensures |vs[b].cache| == |vs[b].back| == c.bs
    ensures st.blocks[b].pc == 0 && AllowedRun(vs[b], st.board.reqs, b, c.bs) ==>
              AgreesUpTo(c, v0, vs[b], ViewOf(st.blocks[b].l), st.board.reqs, b,
                         DoneUpTo(c, st.board, b, st.blocks[b]))
  {
    hide BlockOk, Listed, FlushedIsClean, Content, AllowedRun, FlatRun, ReadLog, BlockRun, AllQueued,
         Synced, Standing;
    var g, w := st.board, st.blocks[b];
    assert Good(c, g, b, w, vs[b]) && StartsAt(c, v0, vs[b], b, st0.blocks[b]);
    if w.pc == 0 && AllowedRun(vs[b], g.reqs, b, c.bs) {
      var m := DoneUpTo(c, g, b, w);
      AllowedPrefix(c, vs[b], g.reqs, b, m);
      BlockRunIsFlat(v0, vs[b], g.reqs[..m], b, c.bs, c.n);
      BackendIsSynced(v0, vs[b], g.reqs[..m], b, c.bs, c.n);
    }
  }

  /** In every interleaving, a block between two chains is its part of the flat array after
      the requests it is through with. */
  lemma TierRefinesFlatArray(c: Config, v0: seq<Byte>, vs: seq<View>, sts: seq<State>, es: seq<Event>, k: nat, b: nat)
    requires IsRun(c, sts, es) && Starts(c, v0, vs, sts[0]) && k < |sts| && b < c.n
    ensures Inv(c, vs, sts[k]) && |vs[b].cache| == |vs[b].back| == c.bs
    ensures sts[k].blocks[b].pc == 0 && AllowedRun(vs[b], sts[k].board.reqs, b, c.bs) ==>
              AgreesUpTo(c, v0, vs[b], ViewOf(sts[k].blocks[b].l), sts[k].board.reqs, b,
                         DoneUpTo(c, sts[k].board, b, sts[k].blocks[b]))
  {
    hide IsRun, Good, Listed, AllowedRun, AgreesUpTo, Starts;
    RunKeepsInv(c, v0, vs, sts, es, k);
    InvAgrees(c, v0, vs, sts[0], sts[k], b);
  }

  /** Every block is its part of the flat array after all requests. */
  ghost predicate AllAgree(c: Config, v0: seq<Byte>, vs: seq<View>, st: State)
    requires |vs| == |st.blocks| == c.n
  {
    forall b :: 0 <= b < c.n ==>
      AgreesUpTo(c, v0, vs[b], ViewOf(st.blocks[b].l), st.board.reqs, b, |st.board.reqs|)
  }

  lemma QuietInvAgrees(c: Config, v0: seq<Byte>, vs: seq<View>, st0: State, st: State)
    requires Starts(c, v0, vs, st0) && Inv(c, vs, st)
    requires AllMapped(c, st.board) && AllIdle(st) && AllAllowed(c, vs, st.board.reqs)
    ensures AllAgree(c, v0, vs, st)
  {
    hide Starts, AgreesUpTo, Good, AllowedRun, Listed;
    forall b | 0 <= b < c.n
      ensures AgreesUpTo(c, v0, vs[b], ViewOf(st.blocks[b].l), st.board.reqs, b, |st.board.reqs|)
    {
      InvAgrees(c, v0, vs, st0, st, b);
    }
  }

  /** With nothing left to map or to run, the volume is the flat array after all requests. */
  lemma QuietVolumeIsFlat(c: Config, v0: seq<Byte>, vs: seq<View>, sts: seq<State>, es: seq<Event>, k: nat)
    requires IsRun(c, sts, es) && Starts(c, v0, vs, sts[0]) && k < |sts|
    ensures Inv(c, vs, sts[k])
    ensures AllMapped(c, sts[k].board) && AllIdle(sts[k]) && AllAllowed(c, vs, sts[k].board.reqs) ==>
              AllAgree(c, v0, vs, sts[k])
  {
    hide IsRun, Starts, AllAgree, Good, AllAllowed, Listed;
    RunKeepsInv(c, v0, vs, sts, es, k);
    if AllMapped(c, sts[k].board) && AllIdle(sts[k]) && AllAllowed(c, vs, sts[k].board.reqs) {
      QuietInvAgrees(c, v0, vs, sts[0], sts[k]);
    }
  }

  ghost predicate AllIdle(st: State) {
    forall b :: 0 <= b < |st.blocks| ==> Idle(st.blocks[b])
  }

  /** No dirty block is promoted, and no block is used before it is promoted. */
  ghost predicate AllAllowed(c: Config, vs: seq<View>, reqs: seq<Req>) {
    && c.bs > 0 && AllInVolume(reqs, c.bs, c.n)
    && forall b :: 0 <= b < |vs| ==> |vs[b].cache| == |vs[b].back| == c.bs && AllowedRun(vs[b], reqs, b, c.bs)
  }

  /* ---- reads ---- */

  /** What the flat array answers to the fragment of request `rid` on block `b`. */
  ghost function Answer(c: Config, v0: seq<Byte>, reqs: seq<Req>, rid: nat, b: nat): (x: Reading)
    requires c.bs > 0 && |v0| == c.bs * c.n && AllInVolume(reqs, c.bs, c.n) && rid < |reqs|
    requires Touches(reqs[rid], b, c.bs) && AllInVolume(reqs[..rid], c.bs, c.n)
    ensures x.rid == rid
  {
    var r := reqs[rid];
    PieceSound(r, b, c.bs);
    var f := PieceOn(r, b, c.bs);
    assert InVolume(r, c.bs, c.n);
    Reading(rid, f, FlatRun(v0, reqs[..rid], c.bs, c.n)[r.offset + f.data..r.offset + f.data + f.size])
  }

  /** The log holds one reading of each read request on the block, the flat array's answer. */
  lemma {:induction false} LogAnswers(c: Config, v0: seq<Byte>, reqs: seq<Req>, rid: nat, b: nat)
    requires c.bs > 0 && |v0| == c.bs * c.n && AllInVolume(reqs, c.bs, c.n) && rid < |reqs|
    requires Touches(reqs[rid], b, c.bs) && reqs[rid].io == Read && AllInVolume(reqs[..rid], c.bs, c.n)
    ensures var log := ReadLog(v0, reqs, b, c.bs, c.n);
            && Answer(c, v0, reqs, rid, b) in log
            && forall x :: x in log && x.rid == rid ==> x == Answer(c, v0, reqs, rid, b)
    decreases |reqs|
  {
    hide Touches, PieceOn, FlatRun, InVolume;
    var k := |reqs| - 1;
    if rid < k {
      assert reqs[..k][..rid] == reqs[..rid];
      LogAnswers(c, v0, reqs[..k], rid, b);
      assert Answer(c, v0, reqs[..k], rid, b) == Answer(c, v0, reqs, rid, b);
    } else {
      LogBefore(c, v0, reqs[..k], b);
    }
  }

  lemma {:induction false} LogBefore(c: Config, v0: seq<Byte>, reqs: seq<Req>, b: nat)
    requires c.bs > 0 && |v0| == c.bs * c.n && AllInVolume(reqs, c.bs, c.n)
    ensures forall x :: x in ReadLog(v0, reqs, b, c.bs, c.n) ==> x.rid < |reqs|
  {
    hide Touches, PieceOn, FlatRun, InVolume;
    if reqs != [] {
      LogBefore(c, v0, reqs[..|reqs| - 1], b);
    }
  }

  /* ---- what a block has delivered, at any moment ---- */

  /** Operations that deliver bytes to a read. */
  ghost function Outputs(ts: seq<Task>): nat {
    if ts == [] then 0
    else
      (if ts[0].op == ReadFromBuffer || ts[0].op == ReadBlockFromCache(true) then 1 else 0) + Outputs(ts[1..])
  }

  lemma {:induction false} RunGrows(bs: nat, ts: seq<Task>, l: Local)
    requires forall i :: 0 <= i < |ts| ==> TierChain.Fits(bs, ts[i].job)
    ensures l.out <= RunTasks(bs, ts, l).out && |RunTasks(bs, ts, l).out| <= |l.out| + Outputs(ts)
  {
    if ts != [] {
      RunGrows(bs, ts[1..], Perform(bs, ts[0], l));
    }
  }

  lemma {:induction false} OutputsOfSuffix(ts: seq<Task>, k: nat)
    requires k <= |ts|
    ensures Outputs(ts[k..]) <= Outputs(ts)
  {
    if k > 0 {
      OutputsOfSuffix(ts[1..], k - 1);
      assert ts[1..][k - 1..] == ts[k..];
    } else {
      assert ts[0..] == ts;
    }
  }

  lemma OutputsOfChain(bs: nat, j: Job)
    requires TierChain.Fits(bs, j)
    ensures Outputs(Chain(bs, j)) == if j.io == Read then 1 else 0
  {
    var ts := Chain(bs, j);
    OutputsInSteps(ts);
  }

  lemma OutputsInSteps(ts: seq<Task>)
    requires |ts| <= 7
    ensures Outputs(ts) == (if |ts| > 0 then Outputs([ts[0]]) else 0) + (if |ts| > 1 then Outputs([ts[1]]) else 0)
              + (if |ts| > 2 then Outputs([ts[2]]) else 0) + (if |ts| > 3 then Outputs([ts[3]]) else 0)
              + (if |ts| > 4 then Outputs([ts[4]]) else 0) + (if |ts| > 5 then Outputs([ts[5]]) else 0)
              + (if |ts| > 6 then Outputs([ts[6]]) else 0)
  {
    if ts != [] {
      OutputsInSteps(ts[1..]);
      assert [ts[0]][1..] == [];
    }
  }

  /** Even within a chain a block has delivered what the requests it is through with ask for,
      and nothing that the one in hand does not ask for. */
  lemma DeliveredSoFar(c: Config, g: Board, b: nat, w: Worker, v: View)
    requires BoardOk(c, g) && Good(c, g, b, w, v)
    ensures DoneUpTo(c, g, b, w) <= |g.reqs| && |v.cache| == |v.back| == c.bs
    ensures w.jobs != [] ==> w.jobs[0].rid < |g.reqs|
    ensures Upto(c, g, b, v, DoneUpTo(c, g, b, w)).out <= w.l.out
    ensures w.l.out <= Upto(c, g, b, v, if w.jobs == [] then MappedUpTo(c, g, b) else w.jobs[0].rid + 1).out
  {
    hide Upto, ArrivalOk, WaitOk, Applied, JobOn, RunTasks, Compile, AllQueued;
    if w.jobs != [] {
      var j := w.jobs[0];
      assert JobOk(c, g, b, j);
      UptoTouched(c, g, b, v, j.rid);
      var ts := Chain(c.bs, j);
      RunGrows(c.bs, ts[w.pc..], w.l);
      OutputsOfSuffix(ts, w.pc);
      OutputsOfChain(c.bs, j);
      AppliedOut(c.bs, j, Upto(c, g, b, v, j.rid));
    }
  }

  lemma AppliedOut(bs: nat, j: Job, v: View)
    requires TierChain.Fits(bs, j) && |v.cache| == bs
    ensures v.out <= Applied(bs, j, v).out && |Applied(bs, j, v).out| == |v.out| + if j.io == Read then 1 else 0
  {
  }

  /* ---- what a read returns ---- */

  /** Block `b` is through with request `rid`, in a run that promotes no dirty block. */
  ghost predicate ThroughWith(c: Config, vs: seq<View>, st: State, rid: nat, b: nat)
    requires Inv(c, vs, st) && b < c.n
  {
    && rid < DoneUpTo(c, st.board, b, st.blocks[b])
    && |vs[b].cache| == |vs[b].back| == c.bs && AllowedRun(vs[b], st.board.reqs, b, c.bs)
  }

  /** The buffer is filled with what the blocks delivered to request `rid`. */
  ghost predicate FilledFrom(st: State, rid: nat, buffer: seq<Byte>) {
    forall b, x :: 0 <= b < |st.blocks| && x in st.blocks[b].l.out && x.rid == rid ==> HoldsAt(buffer, x)
  }

  /** A block that is through with a read has answered it once, as the flat array does. */
  lemma ReadAnswered(c: Config, v0: seq<Byte>, vs: seq<View>, sts: seq<State>, es: seq<Event>, k: nat, rid: nat, b: nat)
    requires IsRun(c, sts, es) && Starts(c, v0, vs, sts[0]) && k < |sts| && b < c.n && Inv(c, vs, sts[k])
    requires rid < |sts[k].board.reqs| && sts[k].board.reqs[rid].io == Read && vs[b].out == []
    requires Touches(sts[k].board.reqs[rid], b, c.bs) && ThroughWith(c, vs, sts[k], rid, b)
    ensures var reqs, out := sts[k].board.reqs, sts[k].blocks[b].l.out;
            && AllInVolume(reqs[..rid], c.bs, c.n)
            && Answer(c, v0, reqs, rid, b) in out
            && forall x :: x in out && x.rid == rid ==> x == Answer(c, v0, reqs, rid, b)
  {
    hide IsRun, Starts, Good, Listed, AllowedRun, Touches, Answer, AgreesUpTo, InVolume;
    var g, w := sts[k].board, sts[k].blocks[b];
    assert Good(c, g, b, w, vs[b]);
    DeliveredSoFar(c, g, b, w, vs[b]);
    var m := DoneUpTo(c, g, b, w);
    var e := if w.jobs == [] then MappedUpTo(c, g, b) else w.jobs[0].rid + 1;
    AnsweredIn(c, v0, vs, sts, g, rid, b, m);
    AnsweredIn(c, v0, vs, sts, g, rid, b, e);
  }

  /** The block after `m` of the requests has the flat array's answer to an earlier read. */
  lemma AnsweredIn(c: Config, v0: seq<Byte>, vs: seq<View>, sts: seq<State>, g: Board, rid: nat, b: nat, m: nat)
    requires |sts| > 0 && Starts(c, v0, vs, sts[0]) && BoardOk(c, g) && b < c.n && rid < m <= |g.reqs|
    requires |vs[b].cache| == |vs[b].back| == c.bs && vs[b].out == [] && AllowedRun(vs[b], g.reqs, b, c.bs)
    requires g.reqs[rid].io == Read && Touches(g.reqs[rid], b, c.bs)
    ensures AllInVolume(g.reqs[..rid], c.bs, c.n)
    ensures var out := Upto(c, g, b, vs[b], m).out;
            && Answer(c, v0, g.reqs, rid, b) in out
            && forall x :: x in out && x.rid == rid ==> x == Answer(c, v0, g.reqs, rid, b)
  {
    hide FlatRun, ReadLog, Touches, PieceOn, Content, FlushedIsClean, InVolume, BlockRun, AllowedRun;
    assert StartsAt(c, v0, vs[b], b, sts[0].blocks[b]);
    AllowedPrefix(c, vs[b], g.reqs, b, m);
    BlockRunIsFlat(v0, vs[b], g.reqs[..m], b, c.bs, c.n);
    assert g.reqs[..m][..rid] == g.reqs[..rid];
    assert Answer(c, v0, g.reqs[..m], rid, b) == Answer(c, v0, g.reqs, rid, b);
    LogAnswers(c, v0, g.reqs[..m], rid, b);
  }

  lemma AssembledPieces(r: Req, w: seq<Byte>, buffer: seq<Byte>, bs: nat)
    requires bs > 0 && r.offset + r.length <= |w| && |buffer| == r.length
    requires forall i :: 0 <= i < |Pieces(r, bs)| ==> Delivered(r.offset, w, buffer, Pieces(r, bs)[i])
    ensures buffer == w[r.offset..r.offset + r.length]
  {
    hide Delivered, Fragments;
    assert Pieces(r, bs) == Fragments(r.offset, r.length, 0, bs);
    Assembled(r.offset, r.length, w, buffer, bs);
  }

  /** In every interleaving: when all its blocks are through with a read, a buffer filled with
      what they delivered holds the range of the flat array as the requests before the read
      left it. */
  lemma ReadReturnsFlat(c: Config, v0: seq<Byte>, vs: seq<View>, sts: seq<State>, es: seq<Event>, k: nat, rid: nat,
                        buffer: seq<Byte>)
    requires IsRun(c, sts, es) && Starts(c, v0, vs, sts[0]) && k < |sts| && Inv(c, vs, sts[k])
    requires rid < |sts[k].board.reqs| && sts[k].board.reqs[rid].io == Read
    requires forall b :: 0 <= b < c.n ==> vs[b].out == []
    requires forall b :: 0 <= b < c.n && Touches(sts[k].board.reqs[rid], b, c.bs) ==> ThroughWith(c, vs, sts[k], rid, b)
    requires |buffer| == sts[k].board.reqs[rid].length && FilledFrom(sts[k], rid, buffer)
    ensures var reqs := sts[k].board.reqs;
            && AllInVolume(reqs[..rid], c.bs, c.n) && reqs[rid].offset + reqs[rid].length <= |v0|
            && buffer == FlatRun(v0, reqs[..rid], c.bs, c.n)[reqs[rid].offset..reqs[rid].offset + reqs[rid].length]
  {
    hide IsRun, Good, Listed, FlatRun, Pieces, PieceOn, Touches, Answer, HoldsAt, Delivered, ThroughWith, StartsAt,
         FilledFrom;
    var reqs := sts[k].board.reqs;
    var r := reqs[rid];
    assert InVolume(r, c.bs, c.n);
    PrefixInVolume(c, reqs, rid);
    var w := FlatRun(v0, reqs[..rid], c.bs, c.n);
    forall i | 0 <= i < |Pieces(r, c.bs)| ensures Delivered(r.offset, w, buffer, Pieces(r, c.bs)[i]) {
      var b := r.offset / c.bs + i;
      PieceAt(r, i, c.bs);
      PieceInVolume(r, b, c.bs, c.n);
      ReadAnswered(c, v0, vs, sts, es, k, rid, b);
      BufferHolds(sts[k], rid, buffer, b, Answer(c, v0, reqs, rid, b));
      AnswerDelivers(c, v0, reqs, rid, buffer, b);
    }
    AssembledPieces(r, w, buffer, c.bs);
  }

  lemma BufferHolds(st: State, rid: nat, buffer: seq<Byte>, b: nat, x: Reading)
    requires FilledFrom(st, rid, buffer) && b < |st.blocks| && x in st.blocks[b].l.out && x.rid == rid
    ensures HoldsAt(buffer, x)
  {
  }

  lemma PrefixInVolume(c: Config, reqs: seq<Req>, k: nat)
    requires AllInVolume(reqs, c.bs, c.n) && k <= |reqs|
    ensures AllInVolume(reqs[..k], c.bs, c.n)
  {
  }

  lemma AnswerDelivers(c: Config, v0: seq<Byte>, reqs: seq<Req>, rid: nat, buffer: seq<Byte>, b: nat)
    requires c.bs > 0 && |v0| == c.bs * c.n && AllInVolume(reqs, c.bs, c.n) && rid < |reqs|
    requires AllInVolume(reqs[..rid], c.bs, c.n) && Touches(reqs[rid], b, c.bs)
    requires HoldsAt(buffer, Answer(c, v0, reqs, rid, b))
    ensures Delivered(reqs[rid].offset, FlatRun(v0, reqs[..rid], c.bs, c.n), buffer, PieceOn(reqs[rid], b, c.bs))
  {
    hide FlatRun, PieceOn, Touches, IsPiece, AllInVolume, InVolume, HoldsAt, Delivered;
    PieceEnds(c, v0, reqs, rid, b);
    SliceDelivers(reqs[rid], FlatRun(v0, reqs[..rid], c.bs, c.n), buffer, PieceOn(reqs[rid], b, c.bs), rid);
  }

  lemma SliceDelivers(r: Req, w: seq<Byte>, buffer: seq<Byte>, f: Fragment, rid: nat)
    requires r.offset + f.data + f.size <= |w|
    requires HoldsAt(buffer, Reading(rid, f, w[r.offset + f.data..r.offset + f.data + f.size]))
    ensures Delivered(r.offset, w, buffer, f)
  {
  }

  lemma PieceEnds(c: Config, v0: seq<Byte>, reqs: seq<Req>, rid: nat, b: nat)
    requires c.bs > 0 && |v0| == c.bs * c.n && AllInVolume(reqs, c.bs, c.n)
    requires rid < |reqs| && Touches(reqs[rid], b, c.bs)
    ensures var f := PieceOn(reqs[rid], b, c.bs); reqs[rid].offset + f.data + f.size <= |v0|
  {
    PieceSound(reqs[rid], b, c.bs);
    assert InVolume(reqs[rid], c.bs, c.n);
  }
}
