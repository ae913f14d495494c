/** Main result on waiting as the code does it: a run can come to a stop as soon as there are
    two blocks, however many threads there are, since a wake-up can be lost. */
module TierLost {
  import opened Split
  import opened Volume
  import opened TierChain
  import opened TierFlat
  import opened TierMachine
  import opened TierRuns
  import opened TierWork
  import opened Tier
  import opened TierProgress
  import opened TierPool
  import TierJam
  import opened TierJamRun
  import TierStuck
  import opened TierWake

  /* ---- runs ---- */

  ghost predicate Leads(c: Config, t: nat, w: Wake, es: seq<WakeEvent>, v: Wake)
    decreases |es|
  {
    if es == [] then w == v
    else CanDo(c, t, w, es[0]) && Leads(c, t, Does(c, t, w, es[0]), es[1..], v)
  }

  ghost predicate Reaches(c: Config, t: nat, w: Wake, v: Wake) {
    exists es :: Leads(c, t, w, es, v)
  }

  lemma {:induction false} LeadsOn(c: Config, t: nat, w: Wake, es: seq<WakeEvent>, v: Wake, e: WakeEvent)
    requires Leads(c, t, w, es, v) && CanDo(c, t, v, e)
    ensures Leads(c, t, w, es + [e], Does(c, t, v, e))
    decreases |es|
  {
    hide CanDo, Does;
    if es == [] {
      assert (es + [e])[1..] == [];
    } else {
      LeadsOn(c, t, Does(c, t, w, es[0]), es[1..], v, e);
      assert (es + [e])[1..] == es[1..] + [e];
    }
  }

  /** A run from `w0` is at `w`. */
  ghost predicate At(c: Config, t: nat, vs: seq<View>, w0: Wake, w: Wake) {
    Reaches(c, t, w0, w) && WakeInv(c, t, vs, w)
  }

  lemma Advance(c: Config, t: nat, vs: seq<View>, w0: Wake, w: Wake, e: WakeEvent)
    requires At(c, t, vs, w0, w) && CanDo(c, t, w, e)
    ensures At(c, t, vs, w0, Does(c, t, w, e))
  {
    hide CanDo, Does, WakeInv;
    var es :| Leads(c, t, w0, es, w);
    LeadsOn(c, t, w0, es, w, e);
    WakeStep(c, t, vs, w, e);
  }

  /** No thread is about to sleep or asleep. */
  function Awake(p: Pool): Wake {
    Wake(p, {}, {})
  }

  function Steps(es: seq<PoolEvent>): seq<WakeEvent> {
    if es == [] then [] else [Step(es[0])] + Steps(es[1..])
  }

  /** A run of the pool is a run in which no test comes too early. */
  lemma {:induction false} PoolRunIsRun(c: Config, t: nat, p: Pool, es: seq<PoolEvent>, q: Pool)
    requires TierJam.Leads(c, t, p, es, q)
    ensures Leads(c, t, Awake(p), Steps(es), Awake(q))
    decreases |es|
  {
    hide CanHappen, Happens, Completes;
    if es != [] {
      var n := Happens(c, t, p, es[0]);
      PoolRunIsRun(c, t, n, es[1..], q);
      assert Does(c, t, Awake(p), Step(es[0])) == Awake(n);
    }
  }

  lemma PoolAtIsAt(c: Config, t: nat, vs: seq<View>, p: Pool, q: Pool)
    requires TierJam.At(c, t, vs, p, q)
    ensures At(c, t, vs, Awake(p), Awake(q))
  {
    hide PoolInv, Leads;
    var es :| TierJam.Leads(c, t, p, es, q);
    PoolRunIsRun(c, t, p, es, q);
  }

  ghost predicate Begins(c: Config, v0: seq<Byte>, vs: seq<View>, w: Wake) {
    TierJam.Begins(c, v0, vs, w.p) && w == Awake(w.p)
  }

  /* ---- a lost wake-up ---- */

  /** A write of blocks 0 and 1 is mapped, and block 0 is handed over; block 1 is a task. */
  ghost predicate HalfWay(c: Config, p: Pool) {
    && c.bs > 0 && |p.st.blocks| == c.n >= 2 && p.holders == {0} && p.tasks == [1] && AllMapped(c, p.st.board)
    && p.st.board.reqs == [Whole(c.bs, Write, 0, 2)] && p.st.board.arrived == [{0}]
    && OnlyWhole(c.bs, p.st.blocks[0], 1) && OnlyWhole(c.bs, p.st.blocks[1], 0)
  }

  ghost predicate OnlyWhole(bs: nat, w: Worker, pc: nat) {
    TierStuck.WholeFirst(bs, w, pc) && |w.jobs| == 1
  }

  lemma OneQueued(c: Config, p: Pool, q: Pool, b: nat)
    requires p.st.board.reqs == [] && Mapping(c, p, Whole(c.bs, Write, 0, 2), 2, q)
    requires b < 2 <= c.n && Idle(p.st.blocks[b])
    ensures OnlyWhole(c.bs, q.st.blocks[b], 0)
  {
    hide Pieces, Touches, Newly, SharedCount;
    TierStuck.WriteQueued(c, 1, p, q, b);
    WholeCount(c.bs, Write, 0, 2);
    assert q.st.blocks[b] == Upon(c.bs, p.st.blocks[b], 0, Whole(c.bs, Write, 0, 2), b, 2);
  }

  /** The two tasks of the write. */
  lemma TwoTasks(c: Config, v0: seq<Byte>, vs: seq<View>, p: Pool, q: Pool)
    requires TierJam.Begins(c, v0, vs, p) && c.n >= 2 && Mapping(c, p, Whole(c.bs, Write, 0, 2), 2, q)
    ensures q.tasks == [0, 1] && q.holders == {}
    ensures OnlyWhole(c.bs, q.st.blocks[0], 0) && OnlyWhole(c.bs, q.st.blocks[1], 0)
    ensures q.st.board == Board([Whole(c.bs, Write, 0, 2)], 2, [{}])
  {
    hide Newly, Starts, Idle, OnlyWhole, Upon, Pieces, SharedCount, Touches;
    NoRequests(c, v0, vs, p);
    TierStuck.BeginIsIdle(c, v0, vs, p, 0);
    TierStuck.BeginIsIdle(c, v0, vs, p, 1);
    OneQueued(c, p, q, 0);
    OneQueued(c, p, q, 1);
    WholeCount(c.bs, Write, 0, 2);
    IdleHasNone(p.st.blocks[0]);
    IdleHasNone(p.st.blocks[1]);
    AllNewly(p.st.blocks, 0, 2, 0);
    AllNewly(p.st.blocks, 0, 2, 1);
  }

  lemma IdleHasNone(w: Worker)
    requires Idle(w)
    ensures w.jobs == []
  {
  }

  lemma NoRequests(c: Config, v0: seq<Byte>, vs: seq<View>, p: Pool)
    requires TierJam.Begins(c, v0, vs, p)
    ensures p.st.board == Board([], 0, []) && p.holders == {} && p.tasks == [] && c.bs > 0 && |p.st.blocks| == c.n
  {
  }

  lemma WriteEnters(c: Config, t: nat, v0: seq<Byte>, vs: seq<View>, p: Pool) returns (q: Pool)
    requires TierJam.Begins(c, v0, vs, p) && c.n >= 2
    ensures TierJam.At(c, t, vs, p, q) && AllMapped(c, q.st.board)
    ensures Mapping(c, p, Whole(c.bs, Write, 0, 2), 2, q)
  {
    hide Starts, TierJam.At, AllMapped, Mapping, SharedCount, InVolume, Countable, Pieces;
    TierJam.BeginIsAt(c, t, v0, vs, p);
    NoRequests(c, v0, vs, p);
    WholeEnters(c, Write, 0, 2);
    WholeCount(c.bs, Write, 0, 2);
    FarMultiple(c.bs, 2);
    TierStuck.NothingToMap(c, p);
    q := EnterAndMap(c, t, vs, p, p, Whole(c.bs, Write, 0, 2));
  }

  lemma FirstHandsOver(c: Config, t: nat, v0: seq<Byte>, vs: seq<View>, p: Pool) returns (q: Pool)
    requires TierJam.Begins(c, v0, vs, p) && c.n >= 2 && t >= 1
    ensures TierJam.At(c, t, vs, p, q) && HalfWay(c, q)
  {
    hide Starts, TierJam.At, Mapping, Pieces, Full, WorkerOk, Worked, Whole;
    NoRequests(c, v0, vs, p);
    var m := WriteEnters(c, t, v0, vs, p);
    TwoTasks(c, v0, vs, p, m);
    var k := TakeSome(c, t, vs, p, m, 0, 1);
    AtIsOk(c, t, vs, p, k, 0);
    OneHandedOver(c.bs);
    StillHandedOver(c.bs, k.st.blocks[0]);
    q := HandRun(c, t, vs, p, k, 0);
  }

  /** One of two blocks does not fill the barrier, both do. */
  lemma OneHandedOver(bs: nat)
    requires bs > 0
    ensures Range(0, 1) == {0} && {} + {0} == {0} && {0} + {1} == {0, 1}
    ensures !Full(bs, Whole(bs, Write, 0, 2), {0}) && Full(bs, Whole(bs, Write, 0, 2), {0, 1})
  {
    hide SharedCount;
    WholeCount(bs, Write, 0, 2);
    assert |{0, 1}| == 2;
  }

  /** Block 1 is at its `i`-th operation, both blocks are handed over, and thread 0 sleeps. */
  ghost predicate Late(c: Config, w: Wake, i: nat) {
    && Shape(c, w.p.st) && c.n >= 2 && w.p.holders == {0, 1} && w.p.tasks == [] && AllMapped(c, w.p.st.board)
    && w.p.st.board.reqs == [Whole(c.bs, Write, 0, 2)] && w.p.st.board.arrived == [{0, 1}]
    && OnlyWhole(c.bs, w.p.st.blocks[0], 1) && OnlyWhole(c.bs, w.p.st.blocks[1], i)
    && w.tested == {} && w.asleep == {0}
  }

  /** What a step of a block does to its queue and to the board. */
  lemma AfterWork(c: Config, st: State, b: nat)
    requires Shape(c, st) && Enabled(c, st, Work(b)) && |st.blocks[b].jobs| == 1
    ensures var w, n := st.blocks[b], Next(c, st, Work(b));
            && b < |n.blocks| == |st.blocks|
            && (if w.pc + 1 < |Compile(c.bs, w.jobs[0])| then n.blocks[b].jobs == w.jobs && n.blocks[b].pc == w.pc + 1
                else n.blocks[b].jobs == [])
            && (if HandsOver(c.bs, w) then n.board == HandedOver(st.board, w.jobs[0].rid, b) else n.board == st.board)
  {
    hide Full, MayPass, Perform, Fits, Compile;
    assert Runnable(c, st.board, st.blocks[b]);
  }

  /** The last hand-over finds thread 0 not yet asleep, and it falls asleep afterwards. */
  lemma SleepsTooLate(c: Config, t: nat, vs: seq<View>, w0: Wake, p: Pool) returns (w: Wake)
    requires At(c, t, vs, w0, Awake(p)) && HalfWay(c, p) && t >= 2
    ensures At(c, t, vs, w0, w) && Late(c, w, 1)
  {
    hide At, WakeInv, Full, AllMapped, Whole, Next, Shape;
    var w1 := TestsEarly(c, t, vs, w0, p);
    var w2 := TakesSecond(c, t, vs, w0, w1);
    var w3 := SecondHandsOver(c, t, vs, w0, w2);
    Advance(c, t, vs, w0, w3, Sleep(0));
    w := Does(c, t, w3, Sleep(0));
  }

  ghost predicate Early(c: Config, w: Wake) {
    HalfWay(c, w.p) && w.tested == {0} && w.asleep == {}
  }

  lemma TestsEarly(c: Config, t: nat, vs: seq<View>, w0: Wake, p: Pool) returns (w: Wake)
    requires At(c, t, vs, w0, Awake(p)) && HalfWay(c, p)
    ensures At(c, t, vs, w0, w) && Early(c, w) && w.p == p
  {
    hide Reaches, Inv, Full, AllMapped, Whole;
    OneHandedOver(c.bs);
    PoolIsShaped(c, t, vs, p);
    Advance(c, t, vs, w0, Awake(p), Test(0));
    w := Does(c, t, Awake(p), Test(0));
  }

  /** Both blocks have a thread. */
  ghost predicate Both(c: Config, w: Wake) {
    && Shape(c, w.p.st) && c.n >= 2 && w.p.holders == {0, 1} && w.p.tasks == [] && AllMapped(c, w.p.st.board)
    && w.p.st.board.reqs == [Whole(c.bs, Write, 0, 2)] && w.p.st.board.arrived == [{0}]
    && OnlyWhole(c.bs, w.p.st.blocks[0], 1) && OnlyWhole(c.bs, w.p.st.blocks[1], 0)
    && w.tested == {0} && w.asleep == {}
  }

  lemma TakesSecond(c: Config, t: nat, vs: seq<View>, w0: Wake, w: Wake) returns (n: Wake)
    requires At(c, t, vs, w0, w) && Early(c, w) && t >= 2
    ensures At(c, t, vs, w0, n) && Both(c, n)
  {
    hide Reaches, Inv, AllMapped, Whole, OnlyWhole, Shape;
    PoolIsShaped(c, t, vs, w.p);
    Advance(c, t, vs, w0, w, Step(Take));
    n := Does(c, t, w, Step(Take));
  }

  lemma SecondHandsOver(c: Config, t: nat, vs: seq<View>, w0: Wake, w: Wake) returns (n: Wake)
    requires At(c, t, vs, w0, w) && Both(c, w)
    ensures At(c, t, vs, w0, n) && Late(c, n.(tested := {}, asleep := {0}), 1) && n.tested == {0} && n.asleep == {}
  {
    hide Reaches, Inv, Full, Whole, Next, Staffed;
    OneHandedOver(c.bs);
    Advance(c, t, vs, w0, w, Step(Run(1)));
    n := Does(c, t, w, Step(Run(1)));
    AfterWork(c, w.p.st, 1);
    RunLeavesOthers(c, t, vs, w.p, 1, 0);
    PoolIsShaped(c, t, vs, n.p);
  }

  lemma LateStep(c: Config, t: nat, vs: seq<View>, w0: Wake, w: Wake, i: nat) returns (n: Wake)
    requires At(c, t, vs, w0, w) && Late(c, w, i) && 1 <= i < 3
    ensures At(c, t, vs, w0, n) && Late(c, n, i + 1)
  {
    hide Reaches, Inv, Full, Whole, Next, Staffed;
    OneHandedOver(c.bs);
    Advance(c, t, vs, w0, w, Step(Run(1)));
    n := Does(c, t, w, Step(Run(1)));
    AfterWork(c, w.p.st, 1);
    RunLeavesOthers(c, t, vs, w.p, 1, 0);
    PoolIsShaped(c, t, vs, n.p);
  }

  /** Block 1 is done; thread 0 sleeps though its request is submitted. */
  lemma LateEnd(c: Config, t: nat, vs: seq<View>, w0: Wake, w: Wake) returns (n: Wake)
    requires At(c, t, vs, w0, w) && Late(c, w, 3)
    ensures At(c, t, vs, w0, n) && Lost(c, n, 0) && n.p.holders == {0} && n.p.tasks == []
    ensures n.tested == {} && n.asleep == {0} && AllMapped(c, n.p.st.board)
  {
    hide Reaches, Inv, Full, Whole, Next, Staffed;
    OneHandedOver(c.bs);
    Advance(c, t, vs, w0, w, Step(Run(1)));
    n := Does(c, t, w, Step(Run(1)));
    AfterWork(c, w.p.st, 1);
    RunLeavesOthers(c, t, vs, w.p, 1, 0);
    PoolIsShaped(c, t, vs, n.p);
  }

  /** With two threads and two blocks or more of each, one write of two blocks can leave a
      thread asleep for good, with all other work done. */
  lemma WakeUpIsLost(c: Config, t: nat, v0: seq<Byte>, vs: seq<View>, w0: Wake) returns (w: Wake)
    requires Begins(c, v0, vs, w0) && c.n >= 2 && t >= 2
    ensures At(c, t, vs, w0, w) && Lost(c, w, 0) && Stuck(c, t, w)
  {
    hide At, TierJam.Begins, TierJam.At, HalfWay, Late, Lost, AllMapped, Stuck;
    var p := FirstHandsOver(c, t, v0, vs, w0.p);
    PoolAtIsAt(c, t, vs, w0.p, p);
    w := SleepsTooLate(c, t, vs, w0, p);
    w := LateStep(c, t, vs, w0, w, 1);
    w := LateStep(c, t, vs, w0, w, 2);
    w := LateEnd(c, t, vs, w0, w);
    AsleepIsStuck(c, t, vs, w0, w);
  }

  /** And it stays asleep in whatever follows. */
  lemma {:induction false} LostForEver(c: Config, t: nat, vs: seq<View>, w: Wake, es: seq<WakeEvent>, v: Wake, b: nat)
    requires WakeInv(c, t, vs, w) && Lost(c, w, b) && Leads(c, t, w, es, v)
    ensures Lost(c, v, b) && v.p.st.blocks[b].jobs[0] == w.p.st.blocks[b].jobs[0]
    decreases |es|
  {
    hide CanDo, Does, WakeInv, MayPass;
    if es != [] {
      LostStays(c, t, vs, w, es[0], b);
      WakeStep(c, t, vs, w, es[0]);
      LostForEver(c, t, vs, Does(c, t, w, es[0]), es[1..], v, b);
    }
  }

  /* ---- when a run can stop ---- */

  /** Nothing but new requests can happen although some block has work. */
  ghost predicate Stuck(c: Config, t: nat, w: Wake) {
    && Shape(c, w.p.st) && (exists b :: Busy(w.p.st, b))
    && forall e: WakeEvent :: CanDo(c, t, w, e) ==> e.Step? && e.e.Enter?
  }

  /** All threads sleep, and there is no task or no thread to take it. */
  lemma AsleepIsStuck(c: Config, t: nat, vs: seq<View>, w0: Wake, w: Wake)
    requires At(c, t, vs, w0, w) && w.p.holders == w.asleep == {0} && w.tested == {} && AllMapped(c, w.p.st.board)
    requires w.p.tasks == [] || t == 1
    ensures Stuck(c, t, w)
  {
    hide Inv, Reaches;
    PoolIsShaped(c, t, vs, w.p);
    BusyHolder(c, t, vs, w.p, 0);
    assert Busy(w.p.st, 0);
    NothingUnmapped(c, w.p.st.board);
    forall e: WakeEvent | CanDo(c, t, w, e) ensures e.Step? && e.e.Enter? {
    }
  }

  lemma NothingUnmapped(c: Config, g: Board)
    requires c.bs > 0 && AllMapped(c, g)
    ensures !Unmapped(c, g)
  {
  }

  /** A single thread waits for the block that it would have to run itself. */
  lemma OneThreadWaits(c: Config, t: nat, v0: seq<Byte>, vs: seq<View>, w0: Wake) returns (w: Wake)
    requires Begins(c, v0, vs, w0) && c.n >= 2 && t == 1
    ensures At(c, t, vs, w0, w) && Stuck(c, t, w)
  {
    hide At, TierJam.Begins, TierJam.At, OnlyWhole, Whole, AllMapped, Stuck;
    var p := FirstHandsOver(c, t, v0, vs, w0.p);
    PoolAtIsAt(c, t, vs, w0.p, p);
    w := TestsEarly(c, t, vs, w0, p);
    Advance(c, t, vs, w0, w, Sleep(0));
    w := Does(c, t, w, Sleep(0));
    AsleepIsStuck(c, t, vs, w0, w);
  }

  lemma {:induction false} AloneStaysAwake(c: Config, t: nat, vs: seq<View>, w: Wake, es: seq<WakeEvent>, v: Wake)
    requires WakeInv(c, t, vs, w) && w == Awake(w.p) && c.n <= 1 && Leads(c, t, w, es, v)
    ensures WakeInv(c, t, vs, v) && v == Awake(v.p)
    decreases |es|
  {
    hide CanDo, Does, WakeInv;
    if es != [] {
      AloneNeverSleeps(c, t, vs, w, es[0]);
      WakeStep(c, t, vs, w, es[0]);
      AloneStaysAwake(c, t, vs, Does(c, t, w, es[0]), es[1..], v);
    }
  }

  lemma AloneNotStuck(c: Config, t: nat, vs: seq<View>, w: Wake)
    requires WakeInv(c, t, vs, w) && w == Awake(w.p) && c.n <= 1 && t >= 1
    ensures !Stuck(c, t, w)
  {
    hide PoolInv, CanHappen;
    AtomicWaitEnough(c, t, vs, w.p);
    if Stuck(c, t, w) {
      forall e | CanHappen(c, t, w.p, e) ensures e.Enter? {
        assert CanDo(c, t, w, Step(e));
      }
    }
  }

  /** For every number of threads: a run can reach a state where nothing but new requests can
      happen although a block has work, if and only if there are two blocks or more. */
  lemma StuckIffTwoBlocks(c: Config, t: nat, v0: seq<Byte>, vs: seq<View>, w: Wake)
    requires Begins(c, v0, vs, w) && t >= 1
    ensures (exists v :: Reaches(c, t, w, v) && Stuck(c, t, v)) <==> c.n >= 2
  {
    hide Stuck, WakeInv, Leads, TierJam.Begins, Lost;
    if c.n >= 2 {
      if t == 1 {
        var v := OneThreadWaits(c, t, v0, vs, w);
      } else {
        var v := WakeUpIsLost(c, t, v0, vs, w);
      }
    } else {
      forall v | Reaches(c, t, w, v) ensures !Stuck(c, t, v) {
        var es :| Leads(c, t, w, es, v);
        TierJam.BeginIsAt(c, t, v0, vs, w.p);
        PoolAtIsAt(c, t, vs, w.p, w.p);
        AloneStaysAwake(c, t, vs, w, es, v);
        AloneNotStuck(c, t, vs, v);
      }
    }
  }
}
