/** Progress of the tier machine, whose threads test a completion and fall asleep in one step:
    the barrier never blocks for good, and once requests stop arriving every run comes to rest.
    `TierLost` has what becomes of this when the test and the sleep are two steps. */
module TierProgress {
  import opened TierChain
  import opened TierFlat
  import opened TierMachine
  import opened TierRuns
  import opened TierWork
  import opened Tier

  ghost predicate Busy(st: State, b: nat) {
    b < |st.blocks| && st.blocks[b].jobs != []
  }

  /** A busy block whose fragment in hand is the oldest. */
  lemma {:induction false} OldestBusy(st: State, b: nat, k: nat) returns (m: nat)
    requires Busy(st, b) && b < k <= |st.blocks|
    ensures Busy(st, m)
    ensures forall x :: 0 <= x < k && Busy(st, x) ==> st.blocks[m].jobs[0].rid <= st.blocks[x].jobs[0].rid
  {
    m := b;
    for i := 0 to k
      invariant Busy(st, m)
      invariant forall x :: 0 <= x < i && Busy(st, x) ==> st.blocks[m].jobs[0].rid <= st.blocks[x].jobs[0].rid
    {
      if Busy(st, i) && st.blocks[i].jobs[0].rid < st.blocks[m].jobs[0].rid {
        m := i;
      }
    }
  }

  /** A block that the oldest waiting request still needs is not itself stuck. */
  lemma NeededMayPass(c: Config, g: Board, x: nat, y: Worker, rid: nat)
    requires BoardOk(c, g) && BlockOk(c, g, x, y) && rid < |g.reqs|
    requires Mapped(c, g, rid, x) && g.reqs[rid].io == Write && x !in g.arrived[rid]
    requires y.jobs != [] ==> rid <= y.jobs[0].rid
    ensures y.jobs != [] && MayPass(c, g, y)
  {
    hide WorkerOk, JobOk, Full, WaitOk;
    assert ArrivalOk(c, g, x, y, rid);
    assert forall j :: 0 < j < |y.jobs| ==> y.jobs[0].rid < y.jobs[j].rid;
    var i :| 0 <= i < |y.jobs| && y.jobs[i].rid == rid && (i > 0 || y.pc <= PrepareAt(c.bs, y.jobs[0]));
  }

  /** With waits in one step and a thread for every block: while any block has work, some step
      other than an arrival is possible. */
  lemma AtomicWaitNoDeadlock(c: Config, vs: seq<View>, st: State, b: nat) returns (e: Event)
    requires Inv(c, vs, st) && Busy(st, b)
    ensures !e.Arrive? && Shape(c, st) && Enabled(c, st, e)
  {
    hide Good, BlockOk, MayPass, Mapped, BlocksOf, Full, Touches;
    InvIsShaped(c, vs, st);
    if Unmapped(c, st.board) {
      return MapNext;
    }
    var m := OldestBusy(st, b, |st.blocks|);
    var g, w := st.board, st.blocks[m];
    if MayPass(c, g, w) {
      return Work(m);
    }
    assert Good(c, g, m, w, vs[m]);
    var x := MissingBlock(c, vs, st, m);
    GoodIsOk(c, g, x, st.blocks[x], vs[x]);
    NeededMayPass(c, g, x, st.blocks[x], w.jobs[0].rid);
    e := Work(x);
  }

  /** A request that is not submitted misses a block, whose fragment is mapped. */
  lemma MissingBlock(c: Config, vs: seq<View>, st: State, m: nat) returns (x: nat)
    requires Inv(c, vs, st) && Busy(st, m) && !MayPass(c, st.board, st.blocks[m]) && !Unmapped(c, st.board)
    ensures x < c.n && Good(c, st.board, x, st.blocks[x], vs[x])
    ensures var rid := st.blocks[m].jobs[0].rid;
            && rid < |st.board.reqs| && st.board.reqs[rid].io == Write
            && Mapped(c, st.board, rid, x) && x !in st.board.arrived[rid]
  {
    hide ArrivalOk, WorkerOk, WaitOk, Full, BlocksOf, Touches, Heading;
    var g, w := st.board, st.blocks[m];
    assert Good(c, g, m, w, vs[m]) && JobOk(c, g, m, w.jobs[0]);
    var rid := w.jobs[0].rid;
    var r := g.reqs[rid];
    TouchesSome(r, m, c.bs);
    FullIffAll(c.bs, r, g.arrived[rid]);
    x :| x in BlocksOf(r, c.bs) && x !in g.arrived[rid];
    PieceInVolume(r, x, c.bs, c.n);
    TouchedWhenAllMapped(c, g, rid, x);
  }

  lemma TouchedWhenAllMapped(c: Config, g: Board, rid: nat, x: nat)
    requires BoardOk(c, g) && !Unmapped(c, g) && rid < |g.reqs| && Touches(g.reqs[rid], x, c.bs)
    ensures Mapped(c, g, rid, x)
  {
  }

  /* ---- coming to rest ---- */

  /** Operations mapped to a block and not run. */
  ghost function OpsOf(bs: nat, js: seq<Job>): nat {
    if js == [] then 0 else OpsOf(bs, js[..|js| - 1]) + |Compile(bs, js[|js| - 1])|
  }

  ghost function OpsLeft(bs: nat, w: Worker): int {
    OpsOf(bs, w.jobs) - w.pc
  }

  ghost function Total(bs: nat, ws: seq<Worker>): int {
    if ws == [] then 0 else Total(bs, ws[..|ws| - 1]) + OpsLeft(bs, ws[|ws| - 1])
  }

  ghost function ToMap(c: Config, g: Board): int
    requires c.bs > 0
  {
    if g.reqs == [] then 0 else |Pieces(g.reqs[|g.reqs| - 1], c.bs)| - g.next
  }

  /** Bounds the steps left when no more requests arrive: a fragment to map counts for itself
      and its chain. */
  ghost function StepsLeft(c: Config, st: State): int
    requires c.bs > 0
  {
    8 * ToMap(c, st.board) + Total(c.bs, st.blocks)
  }

  lemma {:induction false} OpsOfTail(bs: nat, js: seq<Job>)
    requires js != []
    ensures OpsOf(bs, js) == |Compile(bs, js[0])| + OpsOf(bs, js[1..])
  {
    hide Compile;
    var k := |js| - 1;
    if k > 0 {
      OpsOfTail(bs, js[..k]);
      assert js[..k][1..] == js[1..][..k - 1];
    } else {
      assert js[..k] == [] && js[1..] == [];
    }
  }

  lemma {:induction false} TotalUpdate(bs: nat, ws: seq<Worker>, b: nat, w: Worker)
    requires b < |ws|
    ensures Total(bs, ws[b := w]) == Total(bs, ws) - OpsLeft(bs, ws[b]) + OpsLeft(bs, w)
  {
    hide OpsLeft;
    var k := |ws| - 1;
    if b == k {
      assert ws[b := w][..k] == ws[..k];
    } else {
      assert ws[b := w][..k] == ws[..k][b := w];
      TotalUpdate(bs, ws[..k], b, w);
    }
  }

  lemma {:induction false} TotalSame(bs: nat, ws: seq<Worker>, us: seq<Worker>)
    requires |ws| == |us| && forall i :: 0 <= i < |ws| ==> ws[i].jobs == us[i].jobs && ws[i].pc == us[i].pc
    ensures Total(bs, ws) == Total(bs, us)
  {
    if ws != [] {
      TotalSame(bs, ws[..|ws| - 1], us[..|us| - 1]);
    }
  }

  lemma {:induction false} OpsBounded(bs: nat, js: seq<Job>)
    requires js != []
    ensures OpsOf(bs, js) >= |Compile(bs, js[0])|
  {
    OpsOfTail(bs, js);
  }

  lemma {:induction false} TotalNonNegative(bs: nat, ws: seq<Worker>)
    requires forall i :: 0 <= i < |ws| ==> WorkerOk(bs, ws[i])
    ensures Total(bs, ws) >= 0
  {
    hide Compile;
    if ws != [] {
      TotalNonNegative(bs, ws[..|ws| - 1]);
      var w := ws[|ws| - 1];
      if w.jobs != [] {
        OpsBounded(bs, w.jobs);
      }
    }
  }

  lemma WorkedOps(bs: nat, w: Worker)
    requires WorkerOk(bs, w) && w.jobs != []
    ensures OpsLeft(bs, Worked(bs, w)) == OpsLeft(bs, w) - 1
  {
    hide Compile, Perform;
    OpsOfTail(bs, w.jobs);
  }

  /** Mapping a fragment and running an operation both use up the bound. */
  lemma StepsUseUp(c: Config, vs: seq<View>, st: State, e: Event)
    requires Inv(c, vs, st) && Shape(c, st) && Enabled(c, st, e) && !e.Arrive?
    ensures c.bs > 0 && 0 <= StepsLeft(c, Next(c, st, e)) < StepsLeft(c, st)
  {
    hide Good, Total, OpsOf, MayPass, Touches, OpsLeft, JobOn, Listed, Worked, Queued, AtSubmission, HandsOver;
    StepKeepsInv(c, vs, st, e);
    InvIsShaped(c, vs, Next(c, st, e));
    LeftNonNegative(c, Next(c, st, e));
    match e {
      case MapNext =>
        MapChanges(c, st.board, 0, 0);
        var b := Target(c, st.board);
        TotalUpdate(c.bs, st.blocks, b, Queued(c, st.board, st.blocks[b]));
        QueuedOps(c, st.board, st.blocks[b]);
      case Work(b) =>
        var w := st.blocks[b];
        assert Runnable(c, st.board, w);
        WorkedOps(c.bs, w);
        TotalUpdate(c.bs, st.blocks, b, Worked(c.bs, w));
        if HandsOver(c.bs, w) {
          SubmissionOps(c, st, b);
        }
    }
  }

  lemma QueuedOps(c: Config, g: Board, w: Worker)
    requires BoardOk(c, g) && g.reqs != [] && Touches(g.reqs[|g.reqs| - 1], Target(c, g), c.bs)
    requires |g.reqs[|g.reqs| - 1].data| == g.reqs[|g.reqs| - 1].length
    ensures OpsLeft(c.bs, Queued(c, g, w)) <= OpsLeft(c.bs, w) + 7
  {
    hide JobOn, Touches;
    assert Queued(c, g, w).jobs[..|w.jobs|] == w.jobs;
  }

  lemma SubmissionOps(c: Config, st: State, b: nat)
    requires Shape(c, st) && b < c.n && HandsOver(c.bs, st.blocks[b])
    requires WorkerOk(c.bs, st.blocks[b]) && st.blocks[b].jobs[0].rid < |st.board.reqs|
    ensures var h := HandedOver(st.board, st.blocks[b].jobs[0].rid, b);
            var ws := st.blocks[b := Worked(c.bs, st.blocks[b])];
            BoardOk(c, h) && Total(c.bs, AllAtSubmission(c, h, st.blocks[b].jobs[0].rid, ws)) == Total(c.bs, ws)
  {
    hide Total, Full, Worked, Runnable;
    var h := HandedOver(st.board, st.blocks[b].jobs[0].rid, b);
    var ws := st.blocks[b := Worked(c.bs, st.blocks[b])];
    TotalSame(c.bs, AllAtSubmission(c, h, st.blocks[b].jobs[0].rid, ws), ws);
  }

  lemma LeftNonNegative(c: Config, st: State)
    requires Shape(c, st)
    ensures StepsLeft(c, st) >= 0
  {
    hide Total, Compile;
    forall i | 0 <= i < |st.blocks| ensures WorkerOk(c.bs, st.blocks[i]) {
      assert Runnable(c, st.board, st.blocks[i]);
    }
    TotalNonNegative(c.bs, st.blocks);
  }

  /** No run without arrivals is longer than the bound at its start. */
  lemma {:induction false} RunIsBounded(c: Config, vs: seq<View>, sts: seq<State>, es: seq<Event>, k: nat)
    requires IsRun(c, sts, es) && Inv(c, vs, sts[0]) && k <= |es|
    requires forall i :: 0 <= i < |es| ==> !es[i].Arrive?
    ensures c.bs > 0 && Inv(c, vs, sts[k]) && 0 <= StepsLeft(c, sts[k]) <= StepsLeft(c, sts[0]) - k
  {
    hide Good, Enabled, Next, StepsLeft, Shape, Listed;
    InvIsShaped(c, vs, sts[0]);
    if k == 0 {
      LeftNonNegative(c, sts[0]);
    } else {
      RunIsBounded(c, vs, sts, es, k - 1);
      assert StepTo(c, sts[k - 1], es[k - 1], sts[k - 1 + 1]);
      StepKeepsInv(c, vs, sts[k - 1], es[k - 1]);
      StepsUseUp(c, vs, sts[k - 1], es[k - 1]);
    }
  }

  /** Likewise, a state where only arrivals are possible has nothing left to map or to run. */
  lemma AtomicWaitRests(c: Config, vs: seq<View>, st: State)
    requires Inv(c, vs, st) && Shape(c, st)
    requires forall e: Event :: Enabled(c, st, e) ==> e.Arrive?
    ensures AllMapped(c, st.board) && AllIdle(st)
  {
    hide Good, MayPass, Listed;
    assert !Enabled(c, st, MapNext);
    forall b | 0 <= b < |st.blocks| ensures Idle(st.blocks[b]) {
      if Busy(st, b) {
        var e := AtomicWaitNoDeadlock(c, vs, st, b);
      }
      assert Runnable(c, st.board, st.blocks[b]);
    }
  }
}
