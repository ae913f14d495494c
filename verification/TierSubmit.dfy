/** The submission step of the tier machine is what the extent chain of `DataStoreRequest`
    does to the store. */
module TierSubmit {
  import opened Split
  import opened Volume
  import opened TierChain
  import opened TierFlat
  import opened TierMachine
  import opened TierRuns
  import opened TierWork
  import opened Tier
  import Merge

  /** A flat store that holds every block's cached contents. */
  ghost predicate StoreIs(c: Config, store: seq<Byte>, ws: seq<Worker>) {
    && |store| == c.bs * c.n && |ws| == c.n
    && forall x :: 0 <= x < c.n ==> HasBlock(store, x, c.bs) && Block(store, x, c.bs) == ws[x].l.cache
  }

  /** Allocation 0 is the caller's buffer; allocation `x + 1` is the buffer of block `x`. */
  ghost function MemoryOf(r: Req, ws: seq<Worker>): (mem: Merge.Memory)
    ensures 0 in mem && mem[0] == r.data
    ensures forall k :: 1 <= k <= |ws| ==> k in mem && mem[k] == ws[k - 1].l.pending
  {
    if ws == [] then map[0 := r.data]
    else MemoryOf(r, ws[..|ws| - 1])[|ws| := ws[|ws| - 1].l.pending]
  }

  /** The rest of a write chain after the barrier does not touch the cached block. */
  lemma WaitingEndsWithPending(bs: nat, w: Worker)
    requires WorkerOk(bs, w) && Waits(bs, w)
    ensures Soon(bs, w).cache == w.l.pending
  {
    hide Fits;
    WhereItIs(bs, w);
    RunsInSteps(bs, Chain(bs, w.jobs[0])[w.pc..], w.l);
  }

  /** A block at the barrier holds one whole block, and the caller's data if it is covered. */
  lemma WaitingHolds(c: Config, g: Board, x: nat, w: Worker, v: View)
    requires BoardOk(c, g) && Good(c, g, x, w, v) && Waits(c.bs, w)
    ensures |w.l.pending| == c.bs && w.jobs[0].rid < |g.reqs|
    ensures JobOk(c, g, x, w.jobs[0])
    ensures w.jobs[0].f.size == c.bs ==> w.l.pending == w.jobs[0].bytes
  {
    hide ArrivalOk, JobOk, Upto, Soon;
    WaitingEndsWithPending(c.bs, w);
    assert ViewOf(Soon(c.bs, w)).cache == Soon(c.bs, w).cache;
  }

  ghost function LayoutOf(c: Config, r: Req): Merge.Layout
    requires c.bs > 0
  {
    Merge.RequestLayout(r.offset, r.length, c.bs, c.n)
  }

  /** The layout lists the request's blocks, each with the address of its data. */
  lemma LayoutLists(c: Config, r: Req)
    requires c.bs > 0
    ensures LayoutOf(c, r).ptr.Keys == BlocksOf(r, c.bs)
    ensures forall x :: x in LayoutOf(c, r).ptr ==>
              Touches(r, x, c.bs) && LayoutOf(c, r).ptr[x] == Merge.PtrOf(PieceOn(r, x, c.bs), c.bs)
  {
    var fs := Pieces(r, c.bs);
    var l := LayoutOf(c, r);
    assert l.ptr == Merge.PtrMap(fs, c.bs);
    forall x | x in l.ptr
      ensures x in BlocksOf(r, c.bs) && Touches(r, x, c.bs) && l.ptr[x] == Merge.PtrOf(PieceOn(r, x, c.bs), c.bs)
    {
      ListedPiece(c, r, x);
    }
    forall x | x in BlocksOf(r, c.bs) ensures x in l.ptr {
      PieceSound(r, x, c.bs);
      Merge.PtrMapHas(fs, c.bs, x - r.offset / c.bs);
    }
  }

  lemma ListedPiece(c: Config, r: Req, x: nat)
    requires c.bs > 0 && x in Merge.PtrMap(Pieces(r, c.bs), c.bs)
    ensures Touches(r, x, c.bs)
    ensures Merge.PtrMap(Pieces(r, c.bs), c.bs)[x] == Merge.PtrOf(PieceOn(r, x, c.bs), c.bs)
  {
    var i := Merge.PtrMapEntry(Pieces(r, c.bs), c.bs, x);
    FragmentAt(r.offset, r.length, 0, c.bs, i);
  }

  /** All of request `rid` is at the barrier. */
  ghost predicate AllWait(c: Config, vs: seq<View>, st: State, rid: nat) {
    && Inv(c, vs, st) && rid < |st.board.reqs|
    && forall x: nat :: x < c.n && Touches(st.board.reqs[rid], x, c.bs) ==>
         Waits(c.bs, st.blocks[x]) && st.blocks[x].jobs[0].rid == rid
  }

  /** Each block's data, read at its address, is what the block handed over. */
  lemma DataIsPending(c: Config, vs: seq<View>, st: State, rid: nat, x: nat)
    requires AllWait(c, vs, st, rid) && x < c.n && Touches(st.board.reqs[rid], x, c.bs)
    ensures var r := st.board.reqs[rid];
            var mem := MemoryOf(r, st.blocks);
            var p := Merge.PtrOf(PieceOn(r, x, c.bs), c.bs);
            && Merge.Readable(mem, p, c.bs)
            && Merge.Load(mem, p, c.bs) == st.blocks[x].l.pending
  {
    hide Good, Listed, Touches, PieceOn;
    var r, w := st.board.reqs[rid], st.blocks[x];
    assert Good(c, st.board, x, w, vs[x]);
    WaitingHolds(c, st.board, x, w, vs[x]);
    PieceSound(r, x, c.bs);
    assert InVolume(r, c.bs, c.n);
  }

  /** With the whole request at the barrier, writing every block alone, which is what
      submitting the merged extents does, leaves the store with what was handed over. */
  lemma SubmissionIsMerge(c: Config, vs: seq<View>, st: State, rid: nat, was: seq<Byte>, store: seq<Byte>)
    requires AllWait(c, vs, st, rid) && |was| == c.bs * c.n
    requires forall x :: 0 <= x < c.n && !Touches(st.board.reqs[rid], x, c.bs) ==>
               HasBlock(was, x, c.bs) && Block(was, x, c.bs) == st.blocks[x].l.cache
    requires forall x :: 0 <= x < c.n && Touches(st.board.reqs[rid], x, c.bs) ==>
               st.blocks[x].l.cache == st.blocks[x].l.pending
    ensures var r := st.board.reqs[rid];
            var l, mem := LayoutOf(c, r), MemoryOf(r, st.blocks);
            && Merge.Proper(l) && l.ptr.Keys == BlocksOf(r, c.bs) && Merge.Backed(l, mem, was)
            && (Merge.WrittenAlone(l, mem, was, l.ptr.Keys, store) ==> StoreIs(c, store, st.blocks))
  {
    hide Inv, Touches, BlocksOf, PieceOn, LayoutOf, Merge.Proper, Merge.PtrOf, Waits, Block;
    ProperLayout(c, vs, st, rid);
    var r := st.board.reqs[rid];
    var l, mem := LayoutOf(c, r), MemoryOf(r, st.blocks);
    LayoutLists(c, r);
    forall x | x in l.ptr
      ensures x < c.n && Merge.Readable(mem, l.ptr[x], c.bs)
      ensures Merge.Load(mem, l.ptr[x], c.bs) == st.blocks[x].l.pending
    {
      PieceInVolume(r, x, c.bs, c.n);
      DataIsPending(c, vs, st, rid, x);
    }
    if Merge.WrittenAlone(l, mem, was, l.ptr.Keys, store) {
      forall x | 0 <= x < c.n
        ensures HasBlock(store, x, c.bs) && Block(store, x, c.bs) == st.blocks[x].l.cache
      {
        assert Merge.BlockIs(l, mem, was, l.ptr.Keys, store, x);
      }
    }
  }

  lemma ProperLayout(c: Config, vs: seq<View>, st: State, rid: nat)
    requires Inv(c, vs, st) && rid < |st.board.reqs|
    ensures c.bs > 0 && InVolume(st.board.reqs[rid], c.bs, c.n) && |st.blocks| == c.n
    ensures var l := LayoutOf(c, st.board.reqs[rid]); Merge.Proper(l) && l.bs == c.bs && l.n == c.n
  {
    hide Good, Listed;
    var r := st.board.reqs[rid];
    assert InVolume(r, c.bs, c.n);
    Merge.RequestLayoutProper(r.offset, r.length, c.bs, c.n);
  }

  /** Block `b` is the last of its request to be handed over. */
  ghost predicate Completes(c: Config, vs: seq<View>, st: State, b: nat) {
    && Inv(c, vs, st) && Shape(c, st) && Enabled(c, st, Work(b)) && HandsOver(c.bs, st.blocks[b])
    && var rid := st.blocks[b].jobs[0].rid;
       rid < |st.board.reqs| && Full(c.bs, st.board.reqs[rid], HandedOver(st.board, rid, b).arrived[rid])
  }

  /** The last hand-over finds all the others at the barrier, writes the request's blocks and
      leaves all other blocks alone. */
  lemma LastHandOver(c: Config, vs: seq<View>, st: State, b: nat, x: nat)
    requires Completes(c, vs, st, b) && x < c.n
    ensures var rid, s := st.blocks[b].jobs[0].rid, Next(c, st, Work(b));
            && |s.blocks| == c.n && rid < |st.board.reqs| && s.board.reqs == st.board.reqs
            && if Touches(st.board.reqs[rid], x, c.bs) then
                 && Waits(c.bs, s.blocks[x]) && s.blocks[x].jobs[0].rid == rid
                 && s.blocks[x].l.cache == s.blocks[x].l.pending
               else s.blocks[x].l.cache == st.blocks[x].l.cache
  {
    hide Good, Touches, Listed, Full, WorkerOk, Worked, MayPass;
    var w, g := st.blocks[b], st.board;
    var rid := w.jobs[0].rid;
    var r := g.reqs[rid];
    assert Good(c, g, b, w, vs[b]) && Good(c, g, x, st.blocks[x], vs[x]);
    GoodIsOk(c, g, b, w, vs[b]);
    BlockOkWorker(c, g, b, w);
    HandOverBoard(c, g, b, w);
    HandOverMoves(c.bs, w);
    CompleteMeansAll(c, g, rid, b, r);
    if x != b && Touches(r, x, c.bs) {
      ListedWaits(c, g, x, st.blocks[x], vs[x], rid);
    }
  }

  lemma CompleteMeansAll(c: Config, g: Board, rid: nat, b: nat, r: Req)
    requires BoardOk(c, g) && rid < |g.reqs| && r == g.reqs[rid] && r.io == Write
    requires var h := HandedOver(g, rid, b); BoardOk(c, h) && Listed(c, h) && Full(c.bs, r, h.arrived[rid])
    ensures HandedOver(g, rid, b).arrived[rid] == BlocksOf(r, c.bs)
    ensures forall x :: x in HandedOver(g, rid, b).arrived[rid] <==> x >= 0 && Touches(r, x, c.bs)
  {
    hide Touches, Full, BlocksOf;
    var h := HandedOver(g, rid, b);
    assert b in BlocksOf(r, c.bs) by {
      assert b in h.arrived[rid];
    }
    TouchesSome(r, b, c.bs);
    FullIffAll(c.bs, r, h.arrived[rid]);
  }

  lemma ListedWaits(c: Config, g: Board, x: nat, w: Worker, v: View, rid: nat)
    requires BoardOk(c, g) && Good(c, g, x, w, v) && rid < |g.reqs| && x in g.arrived[rid]
    requires !Full(c.bs, g.reqs[rid], g.arrived[rid])
    ensures Waits(c.bs, w) && w.jobs[0].rid == rid
  {
    assert ArrivalOk(c, g, x, w, rid);
  }

  /** So the machine's submission is the submission of the merged extents. */
  lemma SubmissionStepIsMerge(c: Config, vs: seq<View>, st: State, b: nat, was: seq<Byte>, store: seq<Byte>)
    requires Completes(c, vs, st, b) && StoreIs(c, was, st.blocks)
    ensures var r, s := st.board.reqs[st.blocks[b].jobs[0].rid], Next(c, st, Work(b));
            var l, mem := LayoutOf(c, r), MemoryOf(r, s.blocks);
            && Merge.Proper(l) && l.ptr.Keys == BlocksOf(r, c.bs) && Merge.Backed(l, mem, was)
            && (Merge.WrittenAlone(l, mem, was, l.ptr.Keys, store) ==> StoreIs(c, store, s.blocks))
  {
    hide Inv, Touches, BlocksOf, LayoutOf, Waits, Next, Full, Block, MayPass;
    hide Merge.Proper, Merge.Backed, Merge.WrittenAlone;
    var rid, s := st.blocks[b].jobs[0].rid, Next(c, st, Work(b));
    StepKeepsInv(c, vs, st, Work(b));
    forall x | 0 <= x < c.n
      ensures |s.blocks| == c.n && s.board.reqs == st.board.reqs
      ensures if Touches(st.board.reqs[rid], x, c.bs) then
                 && Waits(c.bs, s.blocks[x]) && s.blocks[x].jobs != [] && s.blocks[x].jobs[0].rid == rid
                 && s.blocks[x].l.cache == s.blocks[x].l.pending
               else s.blocks[x].l.cache == st.blocks[x].l.cache
    {
      LastHandOver(c, vs, st, b, x);
      if Touches(st.board.reqs[rid], x, c.bs) {
        JobsOfWaiting(c.bs, s.blocks[x]);
      }
    }
    LastHandOver(c, vs, st, b, b);
    SubmissionIsMerge(c, vs, s, rid, was, store);
  }

  /** `prepare_request` in any order of arrival, then `submit_request`. */
  method MergeAndSubmit(c: Config, l: Merge.Layout, mem: Merge.Memory, order: seq<nat>, was: seq<Byte>,
                        ghost vs: seq<View>, ghost st: State, ghost b: nat)
    returns (store: seq<Byte>)
    requires Completes(c, vs, st, b) && StoreIs(c, was, st.blocks)
    requires var r := st.board.reqs[st.blocks[b].jobs[0].rid];
             && l == LayoutOf(c, r) && mem == MemoryOf(r, Next(c, st, Work(b)).blocks)
             && Merge.Elements(order) == BlocksOf(r, c.bs)
             && forall i, j :: 0 <= i < j < |order| ==> order[i] != order[j]
    ensures StoreIs(c, store, Next(c, st, Work(b)).blocks)
  {
    hide Completes, StoreIs, MemoryOf, BlocksOf, Merge.Proper, Merge.Backed, Merge.WrittenAlone, Next, Merge.Runs;
    SubmissionStepIsMerge(c, vs, st, b, was, was);
    forall i | 0 <= i < |order| ensures order[i] in l.ptr {
      assert order[i] in Merge.Elements(order);
    }
    var chain := Merge.ArriveInOrder(l, order);
    store := Merge.SubmitRequest(chain, c.bs, was, mem, l, l.ptr.Keys);
    SubmissionStepIsMerge(c, vs, st, b, was, store);
  }
}
