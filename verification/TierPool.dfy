/** The tier machine on a pool of `t` threads with one queue of tasks.  A block that gets work
    queues a task; a thread that takes it stays with the block, also while it waits at a
    barrier, until the block has no work left. */
module TierPool {
  import opened Basics
  import opened TierChain
  import opened TierFlat
  import opened TierMachine
  import opened TierRuns
  import opened TierWork
  import opened Tier
  import opened TierProgress

  /** `holders` are the blocks that have a thread, `tasks` those that wait for one. */
  datatype Pool = Pool(st: State, holders: set<nat>, tasks: seq<nat>)

  /** `Take` is a free thread taking the oldest task. */
  datatype PoolEvent = Enter(r: Req) | MapOne | Take | Run(b: nat)

  ghost predicate CanHappen(c: Config, t: nat, p: Pool, e: PoolEvent) {
    Shape(c, p.st) &&
    match e
    case Enter(r) => Enabled(c, p.st, Arrive(r))
    case MapOne => Enabled(c, p.st, MapNext)
    case Take => p.tasks != [] && |p.holders| < t
    case Run(b) => b in p.holders && Enabled(c, p.st, Work(b))
  }

  ghost function Happens(c: Config, t: nat, p: Pool, e: PoolEvent): Pool
    requires CanHappen(c, t, p, e)
  {
    match e
    case Enter(r) => p.(st := Next(c, p.st, Arrive(r)))
    case MapOne =>
      MapChanges(c, p.st.board, 0, 0);
      var b := Target(c, p.st.board);
      Pool(Next(c, p.st, MapNext), p.holders, if p.st.blocks[b].jobs == [] then p.tasks + [b] else p.tasks)
    case Take => Pool(p.st, p.holders + {p.tasks[0]}, p.tasks[1..])
    case Run(b) =>
      var after := Next(c, p.st, Work(b));
      Pool(after, if Busy(after, b) then p.holders else p.holders - {b}, p.tasks)
  }

  /** Every block with work has a thread or a task, and not both. */
  ghost predicate Staffed(p: Pool) {
    && Distinct(p.tasks)
    && (forall b :: b in p.tasks ==> b !in p.holders)
    && (forall b: nat :: b in p.holders || b in p.tasks <==> Busy(p.st, b))
  }

  ghost predicate PoolInv(c: Config, t: nat, vs: seq<View>, p: Pool) {
    Inv(c, vs, p.st) && |p.holders| <= t && Staffed(p)
  }

  /** Work on one block leaves the queues of the others alone, and of its own fragments
      finishes at most the first. */
  lemma JobsAfterWork(c: Config, st: State, b: nat, x: nat)
    requires Shape(c, st) && Enabled(c, st, Work(b)) && x < c.n
    ensures var after := Next(c, st, Work(b));
            && |after.blocks| == c.n
            && (x != b ==> after.blocks[x].jobs == st.blocks[x].jobs && after.blocks[x].pc == st.blocks[x].pc)
            && (x == b ==> after.blocks[b].jobs == st.blocks[b].jobs || after.blocks[b].jobs == st.blocks[b].jobs[1..])
  {
    hide Full, MayPass, Perform, Fits;
    assert Runnable(c, st.board, st.blocks[b]);
  }

  lemma StaffedAfterRun(c: Config, t: nat, vs: seq<View>, p: Pool, b: nat)
    requires PoolInv(c, t, vs, p) && CanHappen(c, t, p, Run(b))
    ensures Staffed(Happens(c, t, p, Run(b)))
  {
    hide Inv, Shape, Enabled, Next;
    var q := Happens(c, t, p, Run(b));
    assert b < c.n by {
      EnabledInRange(c, p.st, b);
    }
    SizeOfState(c, vs, p.st);
    JobsAfterWork(c, p.st, b, b);
    forall x: nat ensures x in q.holders || x in q.tasks <==> Busy(q.st, x) {
      if x < c.n {
        JobsAfterWork(c, p.st, b, x);
      }
    }
  }

  lemma EnabledInRange(c: Config, st: State, b: nat)
    requires Shape(c, st) && Enabled(c, st, Work(b))
    ensures b < c.n && Busy(st, b)
  {
  }

  lemma SizeOfState(c: Config, vs: seq<View>, st: State)
    requires Inv(c, vs, st)
    ensures |st.blocks| == c.n
  {
  }

  lemma StaffedAfterMap(c: Config, t: nat, vs: seq<View>, p: Pool)
    requires PoolInv(c, t, vs, p) && CanHappen(c, t, p, MapOne)
    ensures Staffed(Happens(c, t, p, MapOne))
  {
    hide Good, Listed, JobOn, Touches, Target;
    MapChanges(c, p.st.board, 0, 0);
    var b := Target(c, p.st.board);
    var q := Happens(c, t, p, MapOne);
    assert q.st.blocks[b].jobs != [];
    assert forall x: nat :: x < c.n && x != b ==> q.st.blocks[x] == p.st.blocks[x];
    forall x: nat ensures x in q.holders || x in q.tasks <==> Busy(q.st, x) {
      assert x in p.holders || x in p.tasks <==> Busy(p.st, x);
    }
    if p.st.blocks[b].jobs == [] {
      assert !Busy(p.st, b);
    }
  }

  lemma StaffedAfterTake(c: Config, t: nat, vs: seq<View>, p: Pool)
    requires PoolInv(c, t, vs, p) && CanHappen(c, t, p, Take)
    ensures PoolInv(c, t, vs, Happens(c, t, p, Take))
  {
    hide Inv, Shape;
    var q := Happens(c, t, p, Take);
    assert forall x :: x in p.tasks <==> x == p.tasks[0] || x in q.tasks;
  }

  /** Every event keeps the invariant; all but `Take` are steps of the tier machine, so all that
      holds of its runs holds on any pool. */
  lemma PoolStep(c: Config, t: nat, vs: seq<View>, p: Pool, e: PoolEvent)
    requires PoolInv(c, t, vs, p) && CanHappen(c, t, p, e)
    ensures PoolInv(c, t, vs, Happens(c, t, p, e))
  {
    hide Inv, Shape, Staffed;
    match e
    case Enter(r) =>
      StepKeepsInv(c, vs, p.st, Arrive(r));
      SameBusy(c, p, r);
    case MapOne =>
      StepKeepsInv(c, vs, p.st, MapNext);
      StaffedAfterMap(c, t, vs, p);
    case Take => StaffedAfterTake(c, t, vs, p);
    case Run(b) =>
      StepKeepsInv(c, vs, p.st, Work(b));
      StaffedAfterRun(c, t, vs, p, b);
  }

  lemma SameBusy(c: Config, p: Pool, r: Req)
    requires Shape(c, p.st) && Enabled(c, p.st, Arrive(r)) && Staffed(p)
    ensures Staffed(p.(st := Next(c, p.st, Arrive(r))))
  {
  }

  /* ---- enough threads ---- */

  /** Nothing but new requests can happen although some block has work. */
  ghost predicate Stuck(c: Config, t: nat, p: Pool) {
    && Shape(c, p.st) && (exists b :: Busy(p.st, b))
    && forall e: PoolEvent :: CanHappen(c, t, p, e) ==> e.Enter?
  }

  /** With waits in one step and a thread for every block no state is stuck. */
  lemma AtomicWaitEnough(c: Config, t: nat, vs: seq<View>, p: Pool)
    requires PoolInv(c, t, vs, p) && t >= c.n
    ensures !Stuck(c, t, p)
  {
    hide Good, MayPass, Listed;
    if b :| Busy(p.st, b) {
      var e := AtomicWaitNoDeadlock(c, vs, p.st, b);
      if e.MapNext? {
        assert CanHappen(c, t, p, MapOne);
      } else {
        EnabledInRange(c, p.st, e.b);
        if e.b in p.holders {
          assert CanHappen(c, t, p, Run(e.b));
        } else {
          HoldersBelow(p.holders, c.n, e.b, p);
          assert CanHappen(c, t, p, Take);
        }
      }
    }
  }

  lemma HoldersBelow(holders: set<nat>, n: nat, x: nat, p: Pool)
    requires x < n && x !in holders && forall b :: b in holders ==> Busy(p.st, b) && |p.st.blocks| == n
    ensures |holders| < n
  {
    SubsetSize(holders + {x}, Range(0, n));
  }
}
