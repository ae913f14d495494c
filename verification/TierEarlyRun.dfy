/** Main result on the completion's two steps: the volume is the flat array in every run exactly
    when no write covers two blocks. */
module TierEarlyRun {
  import opened TierChain
  import opened TierFlat
  import opened TierMachine
  import opened TierRuns
  import opened TierWork
  import opened Tier
  import opened TierEarly
  import opened Split
  import opened Volume
  import opened TierJamRun

  /* ---- steps of a concrete run ---- */

  ghost predicate IsAt(c: Config, most: nat, s0: Early, s: Early) {
    Reaches(c, most, s0, s) && Shape(c, s.st)
  }

  lemma Advance(c: Config, most: nat, s0: Early, s: Early, e: EarlyEvent)
    requires IsAt(c, most, s0, s) && CanDo(c, most, s, e) && Shape(c, Does(c, most, s, e).st)
    ensures IsAt(c, most, s0, Does(c, most, s, e))
  {
    hide CanDo, Does, Shape;
    var es :| Leads(c, most, s0, es, s);
    LeadsOn(c, most, s0, es, s, e);
  }

  /** A whole-block write in hand. */
  ghost predicate Writes(c: Config, j: Job, rid: nat, x: Byte) {
    && Fits(c.bs, j) && j.rid == rid && j.io == Write && j.f.size == c.bs
    && |j.bytes| == c.bs && forall i :: 0 <= i < c.bs ==> j.bytes[i] == x
  }

  /** The four operations of its chain. */
  lemma WholeOps(bs: nat, j: Job, l: Local)
    requires Fits(bs, j) && j.io == Write && j.f.size == bs
    ensures forall pc :: 0 <= pc < 4 ==> WorkerOk(bs, Worker([j], pc, l))
    ensures Worked(bs, Worker([j], 0, l)) == Worker([j], 1, l.(pending := j.bytes))
    ensures Worked(bs, Worker([j], 1, l)) == Worker([j], 2, l)
    ensures Worked(bs, Worker([j], 2, l)) == Worker([j], 3, l.(status := Dirty))
    ensures Worked(bs, Worker([j], 3, l)) == Worker([], 0, l)
  {
    assert [j][1..] == [];
  }

  lemma ShapeWith(c: Config, st: State, b: nat, w: Worker)
    requires Shape(c, st) && b < c.n && Runnable(c, st.board, w)
    ensures Shape(c, State(st.board, st.blocks[b := w]))
  {
  }

  /** A step that is not a hand-over. */
  lemma WorkOn(c: Config, most: nat, s0: Early, s: Early, b: nat, j: Job, pc: nat, l: Local) returns (t: Early)
    requires IsAt(c, most, s0, s) && b < c.n && b !in s.owed && s.st.blocks[b] == Worker([j], pc, l) && 1 <= pc < 4
    requires Fits(c.bs, j) && j.io == Write && j.f.size == c.bs && MayPass(c, s.st.board, s.st.blocks[b])
    ensures IsAt(c, most, s0, t)
    ensures t == s.(st := State(s.st.board, s.st.blocks[b := Worked(c.bs, s.st.blocks[b])]))
  {
    hide Reaches, MayPass, Worked, Fits;
    WholeOps(c.bs, j, l);
    ShapeWith(c, s.st, b, Worked(c.bs, s.st.blocks[b]));
    Advance(c, most, s0, s, Plain(Work(b)));
    t := Does(c, most, s, Plain(Work(b)));
  }

  lemma PastBarrier(c: Config, g: Board, w: Worker)
    requires BoardOk(c, g) && w.pc >= 2 && w.jobs != [] && w.jobs[0].f.size == c.bs
    ensures MayPass(c, g, w)
  {
  }

  /** From the barrier to the end of the chain. */
  lemma Finish(c: Config, most: nat, s0: Early, s: Early, b: nat, j: Job, l: Local) returns (t: Early)
    requires IsAt(c, most, s0, s) && b < c.n && b !in s.owed && s.st.blocks[b] == Worker([j], 1, l)
    requires Fits(c.bs, j) && j.io == Write && j.f.size == c.bs && MayPass(c, s.st.board, s.st.blocks[b])
    ensures IsAt(c, most, s0, t)
    ensures t == s.(st := State(s.st.board, s.st.blocks[b := Worker([], 0, l.(status := Dirty))]))
  {
    hide Reaches, MayPass, Worked, Fits, Runnable;
    WholeOps(c.bs, j, l);
    WholeOps(c.bs, j, l.(status := Dirty));
    t := WorkOn(c, most, s0, s, b, j, 1, l);
    PastBarrier(c, t.st.board, t.st.blocks[b]);
    t := WorkOn(c, most, s0, t, b, j, 2, l);
    PastBarrier(c, t.st.board, t.st.blocks[b]);
    t := WorkOn(c, most, s0, t, b, j, 3, l.(status := Dirty));
    assert t.st.blocks == s.st.blocks[b := Worker([], 0, l.(status := Dirty))];
  }

  lemma HandedShape(c: Config, st: State, b: nat, rid: nat, w: Worker)
    requires Shape(c, st) && b < c.n && rid < |st.board.reqs| && Runnable(c, st.board, w)
    ensures Shape(c, State(HandedOver(st.board, rid, b), st.blocks[b := w]))
  {
  }

  /** A hand-over; the last one owes the submission. */
  lemma HandOver(c: Config, most: nat, s0: Early, s: Early, b: nat, j: Job, l: Local) returns (t: Early)
    requires IsAt(c, most, s0, s) && b < c.n && b !in s.owed && s.st.blocks[b] == Worker([j], 0, l)
    requires Fits(c.bs, j) && j.io == Write && j.f.size == c.bs && j.rid < |s.st.board.reqs|
    ensures IsAt(c, most, s0, t)
    ensures var h := HandedOver(s.st.board, j.rid, b);
            var blocks := s.st.blocks[b := Worker([j], 1, l.(pending := j.bytes))];
            && t.st == State(h, blocks)
            && t.owed == if Full(c.bs, h.reqs[j.rid], h.arrived[j.rid])
                         then s.owed[b := Handed(blocks, h.arrived[j.rid])]
                         else s.owed
  {
    hide Reaches, Worked, Fits, Full, Handed;
    WholeOps(c.bs, j, l);
    var w := Worker([j], 1, l.(pending := j.bytes));
    HandedShape(c, s.st, b, j.rid, w);
    assert MayPass(c, s.st.board, s.st.blocks[b]);
    var h := HandedOver(s.st.board, j.rid, b);
    assert Runnable(c, s.st.board, s.st.blocks[b]);
    if !Last(c, s.st, b) {
      assert AllAtSubmission(c, h, j.rid, s.st.blocks[b := w]) == s.st.blocks[b := w];
    }
    Advance(c, most, s0, s, Plain(Work(b)));
    t := Does(c, most, s, Plain(Work(b)));
  }

  lemma Settle(c: Config, most: nat, s0: Early, s: Early, b: nat) returns (t: Early)
    requires IsAt(c, most, s0, s) && b in s.owed
    ensures t == Early(State(s.st.board, Written(s.st.blocks, s.owed[b])), s.owed - {b}) && IsAt(c, most, s0, t)
  {
    hide Reaches;
    t := Early(State(s.st.board, Written(s.st.blocks, s.owed[b])), s.owed - {b});
    forall x | 0 <= x < c.n ensures Runnable(c, t.st.board, t.st.blocks[x]) {
      assert Runnable(c, s.st.board, s.st.blocks[x]);
    }
    Advance(c, most, s0, s, Submit(b));
  }

  /* ---- two writes ---- */

  /** A write of `x` to the first `k` blocks. */
  function Fill(bs: nat, k: nat, x: Byte): Req {
    Req(Write, 0, bs * k, seq(bs * k, _ => x))
  }

  lemma FillCount(c: Config, k: nat, x: Byte)
    requires c.bs > 0 && 1 <= k <= 2 && k <= c.n
    ensures var r := Fill(c.bs, k, x);
            && |Pieces(r, c.bs)| == k && SharedCount(r.offset, r.length, c.bs) == k && r.offset / c.bs == 0
            && InVolume(r, c.bs, c.n) && Countable(c.bs, r)
  {
    hide Fragments, SharedCount;
    WholeCount(c.bs, Write, 0, k);
    WholeEnters(c, Write, 0, k);
    assert c.bs * 0 == 0;
  }

  lemma FillJob(c: Config, k: nat, x: Byte, rid: nat, b: nat)
    requires c.bs > 0 && 1 <= k <= 2 && k <= c.n && b < k
    ensures Touches(Fill(c.bs, k, x), b, c.bs) && Writes(c, JobOn(rid, Fill(c.bs, k, x), b, c.bs), rid, x)
  {
    hide Fragments, SharedCount;
    FillCount(c, k, x);
    WholeJob(c.bs, Write, 0, k, rid, b);
    assert c.bs * 0 == 0;
    JobParts(Fill(c.bs, k, x), b, c.bs);
  }

  lemma Enter(c: Config, most: nat, s0: Early, s: Early, k: nat, x: Byte) returns (t: Early)
    requires IsAt(c, most, s0, s) && AllMapped(c, s.st.board) && 1 <= k <= 2 && k <= c.n && k <= most
    ensures IsAt(c, most, s0, t) && t == s.(st := State(Arrived(s.st.board, Fill(c.bs, k, x)), s.st.blocks))
  {
    hide Reaches, Fill, Pieces, SharedCount;
    FillCount(c, k, x);
    FillIsWrite(c.bs, k, x);
    ArriveKeepsMapped(c, s.st.board, Fill(c.bs, k, x), 0, 0);
    t := s.(st := State(Arrived(s.st.board, Fill(c.bs, k, x)), s.st.blocks));
    forall b | 0 <= b < c.n ensures Runnable(c, t.st.board, t.st.blocks[b]) {
      assert Runnable(c, s.st.board, s.st.blocks[b]);
    }
    Advance(c, most, s0, s, Plain(Arrive(Fill(c.bs, k, x))));
  }

  lemma FillStart(bs: nat, k: nat, x: Byte)
    requires bs > 0
    ensures Fill(bs, k, x).offset / bs == 0
  {
    DivOfMultiple(0, bs, 0);
  }

  lemma FillIsWrite(bs: nat, k: nat, x: Byte)
    ensures Fill(bs, k, x).io == Write
  {
  }

  /** The next fragment goes to an idle block. */
  lemma MapIdle(c: Config, most: nat, s0: Early, s: Early, b: nat, k: nat, x: Byte, l: Local) returns (t: Early, j: Job)
    requires IsAt(c, most, s0, s) && 1 <= k <= 2 && k <= c.n && b < k && s.st.blocks[b] == Worker([], 0, l)
    requires var g := s.st.board; g.reqs != [] && g.reqs[|g.reqs| - 1] == Fill(c.bs, k, x) && g.next == b
    ensures IsAt(c, most, s0, t) && Writes(c, j, |s.st.board.reqs| - 1, x)
    ensures t == s.(st := State(OneMapped(s.st.board), s.st.blocks[b := Worker([j], 0, l)]))
  {
    hide Reaches, Fill, Pieces, SharedCount, JobOn, Fits, Touches, Writes;
    var rid := |s.st.board.reqs| - 1;
    FillCount(c, k, x);
    FillJob(c, k, x, rid, b);
    j := JobOn(rid, Fill(c.bs, k, x), b, c.bs);
    MapChanges(c, s.st.board, 0, 0);
    FillStart(c.bs, k, x);
    assert Target(c, s.st.board) == b;
    t := Does(c, most, s, Plain(MapNext));
    assert [] + [j] == [j];
    assert t.st.blocks == s.st.blocks[b := Worker([j], 0, l)];
    WritesOps(c, j, rid, x, l);
    forall y | 0 <= y < c.n ensures Runnable(c, t.st.board, t.st.blocks[y]) {
      assert Runnable(c, s.st.board, s.st.blocks[y]);
    }
    Advance(c, most, s0, s, Plain(MapNext));
  }

  lemma WritesOps(c: Config, j: Job, rid: nat, x: Byte, l: Local)
    requires Writes(c, j, rid, x)
    ensures j.rid == rid && WorkerOk(c.bs, Worker([j], 0, l))
  {
    WholeOps(c.bs, j, l);
  }

  lemma Fills(c: Config)
    requires c.bs > 0 && c.n >= 2
    ensures !Full(c.bs, Fill(c.bs, 2, 0), {0}) && Full(c.bs, Fill(c.bs, 2, 0), {0, 1})
    ensures Full(c.bs, Fill(c.bs, 1, 1), {0}) && {} + {0} == {0} && {0} + {1} == {0, 1}
  {
    hide SharedCount;
    FillCount(c, 2, 0);
    FillCount(c, 1, 1);
    assert |{0, 1}| == 2;
  }

  /** The first write is mapped and handed over on both blocks; thread 1 owes the submission. */
  ghost predicate FirstOwed(c: Config, s: Early, j0: Job, l0: Local, j1: Job, l1: Local) {
    && Writes(c, j0, 0, 0) && Writes(c, j1, 0, 0) && |s.st.blocks| == c.n >= 2
    && s.st.board == Board([Fill(c.bs, 2, 0)], 2, [{0, 1}])
    && s.st.blocks[0] == Worker([j0], 1, l0) && s.st.blocks[1] == Worker([j1], 1, l1)
    && l0.pending == j0.bytes && l1.pending == j1.bytes
    && s.owed == map[1 := map[0 := j0.bytes, 1 := j1.bytes]]
    && forall x :: 2 <= x < c.n ==> Idle(s.st.blocks[x])
  }

  lemma FirstWrite(c: Config, most: nat, v0: seq<Byte>, vs: seq<View>, s0: Early)
    returns (s: Early, j0: Job, l0: Local, j1: Job, l1: Local)
    requires Begins(c, v0, vs, s0) && c.n >= 2 && most >= 2
    ensures IsAt(c, most, s0, s) && FirstOwed(c, s, j0, l0, j1, l1)
  {
    hide IsAt, Fill, Full, AllMapped, Fits;
    StartIsAt(c, most, v0, vs, s0);
    Fills(c);
    FillCount(c, 2, 0);
    s := Enter(c, most, s0, s0, 2, 0);
    s, j0 := MapIdle(c, most, s0, s, 0, 2, 0, s0.st.blocks[0].l);
    s, j1 := MapIdle(c, most, s0, s, 1, 2, 0, s0.st.blocks[1].l);
    s := HandOver(c, most, s0, s, 0, j0, s0.st.blocks[0].l);
    s := HandOver(c, most, s0, s, 1, j1, s0.st.blocks[1].l);
    l0, l1 := s.st.blocks[0].l, s.st.blocks[1].l;
    assert s.owed[1] == map[0 := j0.bytes, 1 := j1.bytes];
  }

  lemma StartIsAt(c: Config, most: nat, v0: seq<Byte>, vs: seq<View>, s0: Early)
    requires Begins(c, v0, vs, s0)
    ensures IsAt(c, most, s0, s0) && AllMapped(c, s0.st.board) && |s0.st.blocks| == c.n
    ensures forall b :: 0 <= b < c.n ==> Idle(s0.st.blocks[b])
  {
    StartIsInv(c, v0, vs, s0.st);
    InvIsShaped(c, vs, s0.st);
    assert Leads(c, most, s0, [], s0);
    forall b | 0 <= b < c.n ensures Idle(s0.st.blocks[b]) {
      assert StartsAt(c, v0, vs[b], b, s0.st.blocks[b]);
    }
  }

  /** Thread 0 passes early, and the second write runs through on block 0. */
  ghost predicate SecondDone(c: Config, s: Early, j0: Job, j1: Job, l1: Local) {
    && Writes(c, j0, 0, 0) && Writes(c, j1, 0, 0) && |s.st.blocks| == c.n >= 2
    && s.st.board == Board([Fill(c.bs, 2, 0), Fill(c.bs, 1, 1)], 1, [{0, 1}, {0}])
    && Idle(s.st.blocks[0]) && s.st.blocks[0].l.status == Dirty && s.st.blocks[1] == Worker([j1], 1, l1)
    && s.owed == map[1 := map[0 := j0.bytes, 1 := j1.bytes]]
    && forall x :: 2 <= x < c.n ==> Idle(s.st.blocks[x])
  }

  /** In between, the second write is mapped on block 0. */
  ghost predicate SecondMapped(c: Config, s: Early, j0: Job, j1: Job, l1: Local, j2: Job, l: Local) {
    && Writes(c, j0, 0, 0) && Writes(c, j1, 0, 0) && Writes(c, j2, 1, 1) && |s.st.blocks| == c.n >= 2
    && s.st.board == Board([Fill(c.bs, 2, 0), Fill(c.bs, 1, 1)], 1, [{0, 1}, {}])
    && s.st.blocks[0] == Worker([j2], 0, l) && s.st.blocks[1] == Worker([j1], 1, l1)
    && s.owed == map[1 := map[0 := j0.bytes, 1 := j1.bytes]]
    && forall x :: 2 <= x < c.n ==> Idle(s.st.blocks[x])
  }

  lemma SecondEnters(c: Config, most: nat, s0: Early, s1: Early, j0: Job, l0: Local, j1: Job, l1: Local)
    returns (s: Early, j2: Job, l: Local)
    requires IsAt(c, most, s0, s1) && FirstOwed(c, s1, j0, l0, j1, l1) && most >= 2
    ensures IsAt(c, most, s0, s) && SecondMapped(c, s, j0, j1, l1, j2, l)
  {
    hide IsAt, Fill, Full, Fits, Pieces;
    AtIsOk(c, most, s0, s1);
    Fills(c);
    FillCount(c, 2, 0);
    s := Finish(c, most, s0, s1, 0, j0, l0);
    l := l0.(status := Dirty);
    s := Enter(c, most, s0, s, 1, 1);
    s, j2 := MapIdle(c, most, s0, s, 0, 1, 1, l);
  }

  lemma SecondRuns(c: Config, most: nat, s0: Early, s1: Early, j0: Job, j1: Job, l1: Local, j2: Job, l: Local)
    returns (s: Early)
    requires IsAt(c, most, s0, s1) && SecondMapped(c, s1, j0, j1, l1, j2, l)
    ensures IsAt(c, most, s0, s) && SecondDone(c, s, j0, j1, l1)
  {
    hide IsAt, Fill, Full, Fits, Writes;
    AtIsOk(c, most, s0, s1);
    Fills(c);
    WritesIs(c, j2, 1, 1);
    s := HandAndSubmit(c, most, s0, s1, j2, l);
    AtIsOk(c, most, s0, s);
    s := Finish(c, most, s0, s, 0, j2, s.st.blocks[0].l);
  }

  /** The second write is handed over and submitted at once. */
  lemma HandAndSubmit(c: Config, most: nat, s0: Early, s: Early, j: Job, l: Local) returns (t: Early)
    requires IsAt(c, most, s0, s) && c.n >= 2 && 0 !in s.owed && s.st.blocks[0] == Worker([j], 0, l)
    requires Fits(c.bs, j) && j.rid == 1 && j.io == Write && j.f.size == c.bs
    requires s.st.board == Board([Fill(c.bs, 2, 0), Fill(c.bs, 1, 1)], 1, [{0, 1}, {}])
    ensures IsAt(c, most, s0, t) && t.owed == s.owed
    ensures t.st.board == Board([Fill(c.bs, 2, 0), Fill(c.bs, 1, 1)], 1, [{0, 1}, {0}])
    ensures t.st.blocks == s.st.blocks[0 := Worker([j], 1, l.(pending := j.bytes, cache := j.bytes))]
  {
    hide IsAt, Fill, Full, Fits;
    AtIsOk(c, most, s0, s);
    Fills(c);
    t := HandOver(c, most, s0, s, 0, j, l);
    assert t.owed[0].Keys == {0};
    t := Settle(c, most, s0, t, 0);
    assert t.owed == s.owed;
    assert t.st.blocks == s.st.blocks[0 := Worker([j], 1, l.(pending := j.bytes, cache := j.bytes))];
  }

  lemma WritesIs(c: Config, j: Job, rid: nat, x: Byte)
    requires Writes(c, j, rid, x)
    ensures Fits(c.bs, j) && j.rid == rid && j.io == Write && j.f.size == c.bs
  {
  }

  lemma AtIsOk(c: Config, most: nat, s0: Early, s: Early)
    requires IsAt(c, most, s0, s)
    ensures BoardOk(c, s.st.board) && c.bs > 0 && |s.st.blocks| == c.n
  {
  }

  /** Nothing is left to map, to run or to submit. */
  ghost predicate Quiet(c: Config, vs: seq<View>, s: Early) {
    && c.bs > 0 && s.owed == map[] && AllMapped(c, s.st.board) && AllIdle(s.st) && |s.st.blocks| == |vs| == c.n
    && AllAllowed(c, vs, s.st.board.reqs)
  }

  /** The first write is submitted over the second. */
  lemma FirstSubmits(c: Config, most: nat, s0: Early, s1: Early, j0: Job, j1: Job, l1: Local) returns (s: Early)
    requires IsAt(c, most, s0, s1) && SecondDone(c, s1, j0, j1, l1)
    ensures IsAt(c, most, s0, s) && s.owed == map[] && AllMapped(c, s.st.board) && AllIdle(s.st) && |s.st.blocks| == c.n
    ensures s.st.board.reqs == [Fill(c.bs, 2, 0), Fill(c.bs, 1, 1)]
    ensures Content(ViewOf(s.st.blocks[0].l)) == j0.bytes
  {
    hide IsAt, Fill, Full, Fits, Pieces;
    AtIsOk(c, most, s0, s1);
    Fills(c);
    FillCount(c, 1, 1);
    s := Settle(c, most, s0, s1, 1);
    s := Finish(c, most, s0, s, 1, j1, s.st.blocks[1].l);
  }

  lemma BothAllowed(c: Config, v0: seq<Byte>, vs: seq<View>, s0: Early)
    requires Begins(c, v0, vs, s0) && c.n >= 2
    ensures AllAllowed(c, vs, [Fill(c.bs, 2, 0), Fill(c.bs, 1, 1)])
  {
    hide BlockRun, JobOn, Pieces, Fill, Touches, Fits;
    var reqs := [Fill(c.bs, 2, 0), Fill(c.bs, 1, 1)];
    FillCount(c, 2, 0);
    FillCount(c, 1, 1);
    forall b | 0 <= b < |vs| ensures |vs[b].cache| == |vs[b].back| == c.bs && AllowedRun(vs[b], reqs, b, c.bs) {
      assert StartsAt(c, v0, vs[b], b, s0.st.blocks[b]);
      forall k | 0 <= k < |reqs| && Touches(reqs[k], b, c.bs)
        ensures Allowed(c.bs, JobOn(k, reqs[k], b, c.bs), BlockRun(vs[b], reqs[..k], b, c.bs))
      {
        TouchesBelow(c, if k == 0 then 2 else 1, if k == 0 then 0 else 1, b);
        FillJob(c, if k == 0 then 2 else 1, if k == 0 then 0 else 1, k, b);
      }
    }
  }

  lemma TouchesBelow(c: Config, k: nat, x: Byte, b: nat)
    requires c.bs > 0 && 1 <= k <= 2 && k <= c.n && Touches(Fill(c.bs, k, x), b, c.bs)
    ensures b < k
  {
    hide Fragments, SharedCount;
    FillCount(c, k, x);
  }

  lemma FlatHasSecond(c: Config, v0: seq<Byte>)
    requires c.bs > 0 && c.n >= 2 && |v0| == c.bs * c.n && HasBlock(v0, 0, c.bs)
    requires AllInVolume([Fill(c.bs, 2, 0), Fill(c.bs, 1, 1)], c.bs, c.n)
    ensures Block(FlatRun(v0, [Fill(c.bs, 2, 0), Fill(c.bs, 1, 1)], c.bs, c.n), 0, c.bs)[0] == 1
  {
    var reqs := [Fill(c.bs, 2, 0), Fill(c.bs, 1, 1)];
    assert reqs[..1] == [Fill(c.bs, 2, 0)] && reqs[..1][..0] == [];
    assert c.bs * 0 == 0 && c.bs * 1 == c.bs;
  }

  /** A write of blocks 0 and 1 with a write of block 0 after it: with everything done, block 0
      holds the first. */
  lemma OlderSubmitsLater(c: Config, most: nat, v0: seq<Byte>, vs: seq<View>, s0: Early) returns (s: Early)
    requires Begins(c, v0, vs, s0) && c.n >= 2 && most >= 2
    ensures Reaches(c, most, s0, s) && Quiet(c, vs, s) && !AllAgree(c, v0, vs, s.st)
    ensures s.st.board.reqs == [Fill(c.bs, 2, 0), Fill(c.bs, 1, 1)]
  {
    hide Reaches, Shape, FlatRun, Fill, Block, AllAllowed, AllMapped, Fits;
    var s1, j0, l0, j1, l1 := FirstWrite(c, most, v0, vs, s0);
    var s2, j2, l := SecondEnters(c, most, s0, s1, j0, l0, j1, l1);
    s2 := SecondRuns(c, most, s0, s2, j0, j1, l1, j2, l);
    s := FirstSubmits(c, most, s0, s2, j0, j1, l1);
    BothAllowed(c, v0, vs, s0);
    if AllAgree(c, v0, vs, s.st) {
      assert AgreesUpTo(c, v0, vs[0], ViewOf(s.st.blocks[0].l), s.st.board.reqs, 0, |s.st.board.reqs|);
      assert s.st.board.reqs[..2] == s.st.board.reqs;
      FlatHasSecond(c, v0);
    }
  }

  /** With waiters that may pass before the submission, and writes of at most `most` blocks:
      whenever all is done the volume is the flat array after all requests, in every run, if and
      only if no write can cover two blocks. */
  lemma FlatIffOneBlockWrites(c: Config, most: nat, v0: seq<Byte>, vs: seq<View>, s: Early)
    requires Begins(c, v0, vs, s)
    ensures (forall t :: Reaches(c, most, s, t) && Quiet(c, vs, t) ==> AllAgree(c, v0, vs, t.st))
            <==> most <= 1 || c.n <= 1
  {
    hide AllAgree, AllAllowed, Leads, Starts, Inv, AllMapped;
    if most <= 1 || c.n <= 1 {
      forall t | Reaches(c, most, s, t) && Quiet(c, vs, t) ensures AllAgree(c, v0, vs, t.st) {
        var es :| Leads(c, most, s, es, t);
        BeginIsSmall(c, v0, vs, s);
        SmallRun(c, vs, most, s, es, t);
        assert Settled(t).blocks == t.st.blocks;
        QuietInvAgrees(c, v0, vs, s.st, t.st);
      }
    } else {
      var t := OlderSubmitsLater(c, most, v0, vs, s);
    }
  }

  lemma BeginIsSmall(c: Config, v0: seq<Byte>, vs: seq<View>, s: Early)
    requires Begins(c, v0, vs, s)
    ensures SmallInv(c, vs, s)
  {
    hide Inv;
    StartIsInv(c, v0, vs, s.st);
    assert Settled(s).blocks == s.st.blocks;
  }
}
