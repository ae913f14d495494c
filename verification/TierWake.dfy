/** The tier machine on a pool whose threads wait as the code does: a thread tests the count of
    its completion, later falls asleep, and the completing hand-over wakes those asleep by then.
    Neither the count nor the notification is under the waiters' lock. */
module TierWake {
  import opened TierChain
  import opened TierFlat
  import opened TierMachine
  import opened TierRuns
  import opened TierWork
  import opened Tier
  import opened TierProgress
  import opened TierPool

  /** `tested` are the blocks whose thread saw a count above zero and is about to sleep. */
  datatype Wake = Wake(p: Pool, tested: set<nat>, asleep: set<nat>)

  /** A test that finds the count at zero is the `Run` that leaves the barrier. */
  datatype WakeEvent = Step(e: PoolEvent) | Test(b: nat) | Sleep(b: nat)

  ghost predicate CanDo(c: Config, t: nat, w: Wake, e: WakeEvent) {
    match e
    case Step(e) => CanHappen(c, t, w.p, e) && (e.Run? ==> e.b !in w.tested && e.b !in w.asleep)
    case Test(b) =>
      && Shape(c, w.p.st) && b in w.p.holders && b !in w.tested && b !in w.asleep
      && b < c.n && !MayPass(c, w.p.st.board, w.p.st.blocks[b])
    case Sleep(b) => b in w.tested
  }

  /** Block `b` hands over the last fragment of its request. */
  ghost predicate Completes(c: Config, st: State, b: nat)
    requires Shape(c, st) && b < c.n
  {
    assert Runnable(c, st.board, st.blocks[b]);
    HandsOver(c.bs, st.blocks[b]) &&
    var rid := st.blocks[b].jobs[0].rid;
    Full(c.bs, st.board.reqs[rid], st.board.arrived[rid] + {b})
  }

  /** Block `x` is at the completion that block `b` is about to complete. */
  predicate SameRequest(st: State, b: nat, x: nat) {
    b < |st.blocks| && x < |st.blocks| && st.blocks[b].jobs != [] && st.blocks[x].jobs != [] &&
    st.blocks[x].jobs[0].rid == st.blocks[b].jobs[0].rid
  }

  ghost function Does(c: Config, t: nat, w: Wake, e: WakeEvent): Wake
    requires CanDo(c, t, w, e)
  {
    match e
    case Step(e) =>
      Wake(Happens(c, t, w.p, e), w.tested,
           if e.Run? && Completes(c, w.p.st, e.b) then set x | x in w.asleep && !SameRequest(w.p.st, e.b, x)
           else w.asleep)
    case Test(b) => w.(tested := w.tested + {b})
    case Sleep(b) => w.(tested := w.tested - {b}, asleep := w.asleep + {b})
  }

  /** Threads about to sleep or asleep are at a barrier. */
  ghost predicate AtBarrier(c: Config, p: Pool, b: nat) {
    b in p.holders && b < |p.st.blocks| && Waits(c.bs, p.st.blocks[b])
  }

  ghost predicate WakeInv(c: Config, t: nat, vs: seq<View>, w: Wake) {
    && PoolInv(c, t, vs, w.p) && w.tested !! w.asleep
    && forall b :: b in w.tested || b in w.asleep ==> AtBarrier(c, w.p, b)
  }

  lemma RunLeavesOthers(c: Config, t: nat, vs: seq<View>, p: Pool, b: nat, x: nat)
    requires PoolInv(c, t, vs, p) && CanHappen(c, t, p, Run(b)) && x != b && x < |p.st.blocks|
    ensures var q := Happens(c, t, p, Run(b));
            && (x in p.holders ==> x in q.holders) && x < |q.st.blocks|
            && q.st.blocks[x].jobs == p.st.blocks[x].jobs && q.st.blocks[x].pc == p.st.blocks[x].pc
  {
    hide Inv, Shape, Enabled, Next;
    SizeOfState(c, vs, p.st);
    JobsAfterWork(c, p.st, b, x);
  }

  lemma MapLeavesHeads(c: Config, t: nat, vs: seq<View>, p: Pool, x: nat)
    requires PoolInv(c, t, vs, p) && CanHappen(c, t, p, MapOne) && x < |p.st.blocks| && p.st.blocks[x].jobs != []
    ensures var q := Happens(c, t, p, MapOne);
            && q.holders == p.holders && x < |q.st.blocks| && q.st.blocks[x].pc == p.st.blocks[x].pc
            && q.st.blocks[x].jobs != [] && q.st.blocks[x].jobs[0] == p.st.blocks[x].jobs[0]
            && q.st.board.reqs == p.st.board.reqs && q.st.board.arrived == p.st.board.arrived
  {
    hide Good, Listed, JobOn, Touches, Target;
    MapChanges(c, p.st.board, 0, 0);
  }

  /** A step of the pool leaves every block at its barrier that does not run. */
  lemma BarrierAfterStep(c: Config, t: nat, vs: seq<View>, w: Wake, e: PoolEvent, b: nat)
    requires PoolInv(c, t, vs, w.p) && CanDo(c, t, w, Step(e)) && AtBarrier(c, w.p, b)
    requires b in w.tested || b in w.asleep
    ensures AtBarrier(c, Does(c, t, w, Step(e)).p, b)
    ensures b < |w.p.st.blocks| && Busy(w.p.st, b) && Busy(Does(c, t, w, Step(e)).p.st, b)
    ensures Does(c, t, w, Step(e)).p.st.blocks[b].jobs[0] == w.p.st.blocks[b].jobs[0]
  {
    hide Inv, Shape, Enabled, Next, Staffed;
    match e
    case Enter(r) => EnterLeaves(c, t, w.p, r);
    case MapOne => MapLeavesHeads(c, t, vs, w.p, b);
    case Take =>
    case Run(x) => RunLeavesOthers(c, t, vs, w.p, x, b);
  }

  lemma EnterLeaves(c: Config, t: nat, p: Pool, r: Req)
    requires CanHappen(c, t, p, Enter(r))
    ensures var q := Happens(c, t, p, Enter(r));
            q.st.blocks == p.st.blocks && q.holders == p.holders && q.st.board == Arrived(p.st.board, r)
  {
  }

  /** Every event keeps the invariant: all but the tests and sleeps are steps of the pool. */
  lemma WakeStep(c: Config, t: nat, vs: seq<View>, w: Wake, e: WakeEvent)
    requires WakeInv(c, t, vs, w) && CanDo(c, t, w, e)
    ensures WakeInv(c, t, vs, Does(c, t, w, e))
  {
    hide PoolInv, CanHappen, Happens, MayPass, AtBarrier, Completes;
    match e
    case Step(s) =>
      PoolStep(c, t, vs, w.p, s);
      forall b | b in w.tested || b in w.asleep ensures AtBarrier(c, Does(c, t, w, e).p, b) {
        BarrierAfterStep(c, t, vs, w, s, b);
      }
    case Test(b) => TestIsAtBarrier(c, t, w, b);
    case Sleep(b) =>
  }

  lemma TestIsAtBarrier(c: Config, t: nat, w: Wake, b: nat)
    requires CanDo(c, t, w, Test(b))
    ensures AtBarrier(c, w.p, b)
  {
    hide Full;
  }

  /* ---- a wake-up that never comes ---- */

  /** The thread sleeps though its request has been submitted. */
  ghost predicate Lost(c: Config, w: Wake, b: nat) {
    && Shape(c, w.p.st) && b < c.n && b in w.asleep && AtBarrier(c, w.p, b)
    && MayPass(c, w.p.st.board, w.p.st.blocks[b])
  }

  /** A submitted request is not handed over again. */
  lemma FullStays(c: Config, t: nat, vs: seq<View>, p: Pool, b: nat, rid: nat)
    requires PoolInv(c, t, vs, p) && CanHappen(c, t, p, Run(b)) && rid < |p.st.board.reqs| == |p.st.board.arrived|
    requires Full(c.bs, p.st.board.reqs[rid], p.st.board.arrived[rid])
    ensures var g := Happens(c, t, p, Run(b)).st.board;
            && g.reqs == p.st.board.reqs && |g.arrived| == |p.st.board.arrived|
            && g.arrived[rid] == p.st.board.arrived[rid]
    ensures HandsOver(c.bs, p.st.blocks[b]) ==> p.st.blocks[b].jobs[0].rid != rid
  {
    hide Full, Heading, Listed, Staffed, Worked;
    EnabledInRange(c, p.st, b);
    var w := p.st.blocks[b];
    assert Good(c, p.st.board, b, w, vs[b]);
    if HandsOver(c.bs, w) {
      HandOverBoard(c, p.st.board, b, w);
    }
  }

  /** Nothing wakes it. */
  lemma LostStays(c: Config, t: nat, vs: seq<View>, w: Wake, e: WakeEvent, b: nat)
    requires WakeInv(c, t, vs, w) && Lost(c, w, b) && CanDo(c, t, w, e)
    ensures Lost(c, Does(c, t, w, e), b)
    ensures Does(c, t, w, e).p.st.blocks[b].jobs[0] == w.p.st.blocks[b].jobs[0]
  {
    hide PoolInv, Happens, Full, Completes, CanHappen, Shape;
    WakeStep(c, t, vs, w, e);
    var n := Does(c, t, w, e);
    PoolIsShaped(c, t, vs, n.p);
    var rid := w.p.st.blocks[b].jobs[0].rid;
    BoardSizes(c, w.p.st);
    match e
    case Step(s) =>
      BarrierAfterStep(c, t, vs, w, s, b);
      match s {
        case Enter(r) =>
          EnterLeaves(c, t, w.p, r);
          BoardSizes(c, n.p.st);
        case MapOne => MapLeavesHeads(c, t, vs, w.p, b);
        case Take => TakeLeaves(c, t, w.p);
        case Run(x) =>
          RunInRange(c, t, w.p, x);
          FullStays(c, t, vs, w.p, x, rid);
          CompletesOther(c, w.p.st, x, b);
      }
    case Test(x) =>
    case Sleep(x) =>
  }

  lemma CompletesOther(c: Config, st: State, x: nat, b: nat)
    requires Shape(c, st) && x < c.n && b < |st.blocks| && st.blocks[b].jobs != []
    requires HandsOver(c.bs, st.blocks[x]) ==> st.blocks[x].jobs[0].rid != st.blocks[b].jobs[0].rid
    ensures Completes(c, st, x) ==> !SameRequest(st, x, b)
  {
    hide Full;
  }

  lemma BoardSizes(c: Config, st: State)
    requires Shape(c, st)
    ensures |st.board.reqs| == |st.board.arrived| && |st.blocks| == c.n && BoardOk(c, st.board)
  {
  }

  lemma RunInRange(c: Config, t: nat, p: Pool, b: nat)
    requires CanHappen(c, t, p, Run(b))
    ensures Shape(c, p.st) && b < c.n
  {
  }

  lemma TakeLeaves(c: Config, t: nat, p: Pool)
    requires CanHappen(c, t, p, Take)
    ensures Happens(c, t, p, Take).st == p.st
  {
  }

  lemma PoolIsShaped(c: Config, t: nat, vs: seq<View>, p: Pool)
    requires PoolInv(c, t, vs, p)
    ensures Shape(c, p.st)
  {
    InvIsShaped(c, vs, p.st);
  }

  /* ---- one block ---- */

  /** On a single block a barrier is full as soon as the block is at it. */
  lemma AloneMayPass(c: Config, vs: seq<View>, st: State, b: nat)
    requires Inv(c, vs, st) && c.n == 1 && b == 0 && st.blocks[b].jobs != []
    ensures MayPass(c, st.board, st.blocks[b])
  {
    hide Full, Heading, WorkerOk, JobOn, WaitOk;
    var g, w := st.board, st.blocks[b];
    assert Good(c, g, b, w, vs[b]);
    if Waits(c.bs, w) {
      assert JobOk(c, g, b, w.jobs[0]);
      var rid := w.jobs[0].rid;
      var r := g.reqs[rid];
      assert ArrivalOk(c, g, b, w, rid);
      assert !Due(c.bs, w, rid);
      assert b in g.arrived[rid] && g.arrived[rid] <= BlocksOf(r, c.bs);
      AloneTouched(c, r);
      TouchesSome(r, b, c.bs);
      FullIffAll(c.bs, r, g.arrived[rid]);
    }
  }

  lemma AloneTouched(c: Config, r: Req)
    requires c.bs > 0 && c.n == 1 && InVolume(r, c.bs, c.n)
    ensures BlocksOf(r, c.bs) <= {0}
  {
    forall b | b in BlocksOf(r, c.bs) ensures b == 0 {
      PieceInVolume(r, b, c.bs, c.n);
    }
  }

  /** So no thread is ever about to sleep. */
  lemma AloneNeverSleeps(c: Config, t: nat, vs: seq<View>, w: Wake, e: WakeEvent)
    requires WakeInv(c, t, vs, w) && CanDo(c, t, w, e) && c.n <= 1 && w.tested == w.asleep == {}
    ensures Does(c, t, w, e).tested == Does(c, t, w, e).asleep == {}
  {
    hide Inv, MayPass, Happens, Completes;
    if e.Test? {
      BusyHolder(c, t, vs, w.p, e.b);
      AloneMayPass(c, vs, w.p.st, e.b);
    }
  }

  lemma BusyHolder(c: Config, t: nat, vs: seq<View>, p: Pool, b: nat)
    requires PoolInv(c, t, vs, p) && b in p.holders
    ensures b < |p.st.blocks| == c.n && p.st.blocks[b].jobs != []
  {
    SizeOfState(c, vs, p.st);
    assert Busy(p.st, b);
  }
}
