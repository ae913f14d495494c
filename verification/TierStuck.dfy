/** The thread pool with waits in one step: a run can come to a stop for ever exactly when there
    are fewer threads than blocks. */
module TierStuck {
  import opened Split
  import opened Volume
  import opened TierChain
  import opened TierFlat
  import opened TierMachine
  import opened TierRuns
  import opened TierWork
  import opened Tier
  import opened TierProgress
  import opened TierPool
  import opened TierJam
  import opened TierJamRun

  /* ---- writes of two blocks each ---- */

  /** Blocks 1 to `t` have a whole read queued and the first `i` of them a whole write behind
      it; write `h` covers blocks `h - 1` and `h`. */
  ghost predicate Prepared(c: Config, t: nat, i: nat, q: Pool) {
    && |q.st.blocks| == c.n && t < c.n && i <= t && c.bs > 0
    && |q.st.board.reqs| == |q.st.board.arrived| == i + 1 && AllMapped(c, q.st.board)
    && q.holders == {} && |q.tasks| >= t && (forall k :: 0 <= k < t ==> q.tasks[k] == 1 + k)
    && (forall b :: 1 <= b <= t ==> ReadFirst(c.bs, q.st.blocks[b]))
    && (forall b :: 1 <= b <= t ==> (i < b ==> |q.st.blocks[b].jobs| == 1))
    && (forall b :: 1 <= b <= i ==> Ready(c.bs, q.st.blocks[b], b) && Pair(c, q.st.board, b, {}))
  }

  ghost predicate ReadFirst(bs: nat, w: Worker) {
    w.pc == 0 && w.jobs != [] && w.jobs[0].io == Read && w.jobs[0].f.size == bs
  }

  lemma BeginIsIdle(c: Config, v0: seq<Byte>, vs: seq<View>, p: Pool, b: nat)
    requires Begins(c, v0, vs, p) && b < c.n
    ensures Idle(p.st.blocks[b])
  {
    assert StartsAt(c, v0, vs[b], b, p.st.blocks[b]);
  }

  lemma ReadsEnter(c: Config, t: nat, v0: seq<Byte>, vs: seq<View>, p: Pool) returns (q: Pool)
    requires Begins(c, v0, vs, p) && 1 <= t < c.n
    ensures At(c, t, vs, p, q) && Prepared(c, t, 0, q)
  {
    hide Pieces, Touches, At, JobOn, Newly, SharedCount, Upon, Prepared, InVolume, Countable, StartsAt;
    BeginIsAt(c, t, v0, vs, p);
    var r := Whole(c.bs, Read, 1, t);
    WholeEnters(c, Read, 1, t);
    WholeCount(c.bs, Read, 1, t);
    FarMultiple(c.bs, t);
    q := EnterAndMap(c, t, vs, p, p, r);
    ReadsQueued(c, t, v0, vs, p, q);
  }

  lemma ReadsQueued(c: Config, t: nat, v0: seq<Byte>, vs: seq<View>, p: Pool, q: Pool)
    requires Begins(c, v0, vs, p) && 1 <= t < c.n && Mapping(c, p, Whole(c.bs, Read, 1, t), t, q)
    requires AllMapped(c, q.st.board)
    ensures Prepared(c, t, 0, q)
  {
    hide Pieces, Touches, JobOn, Newly, AllMapped, StartsAt, Whole;
    var r := Whole(c.bs, Read, 1, t);
    WholeCount(c.bs, Read, 1, t);
    forall b | 0 <= b < c.n ensures Idle(p.st.blocks[b]) {
      BeginIsIdle(c, v0, vs, p, b);
    }
    AllNewly(p.st.blocks, 1, t, 0);
    forall k | 0 <= k < t ensures q.tasks[k] == 1 + k {
      AllNewly(p.st.blocks, 1, t, k);
    }
    forall b | 1 <= b <= t ensures ReadFirst(c.bs, q.st.blocks[b]) && |q.st.blocks[b].jobs| == 1 {
      ReadQueued(c, t, p, q, b);
    }
  }

  lemma ReadQueued(c: Config, t: nat, p: Pool, q: Pool, b: nat)
    requires Mapping(c, p, Whole(c.bs, Read, 1, t), t, q) && 1 <= b <= t && b < c.n && Idle(p.st.blocks[b])
    ensures ReadFirst(c.bs, q.st.blocks[b]) && |q.st.blocks[b].jobs| == 1
  {
    hide Pieces, Touches, Newly, SharedCount;
    var r := Whole(c.bs, Read, 1, t);
    WholeCount(c.bs, Read, 1, t);
    WholeJob(c.bs, Read, 1, t, |p.st.board.reqs|, b);
    assert q.st.blocks[b] == Upon(c.bs, p.st.blocks[b], |p.st.board.reqs|, r, b, t);
  }

  lemma WriteEnters(c: Config, t: nat, vs: seq<View>, p0: Pool, p: Pool, i: nat) returns (q: Pool)
    requires At(c, t, vs, p0, p) && Prepared(c, t, i, p) && i < t
    ensures At(c, t, vs, p0, q) && Prepared(c, t, i + 1, q)
  {
    hide Pieces, Touches, At, JobOn, Newly, SharedCount;
    var r := Whole(c.bs, Write, i, 2);
    WholeEnters(c, Write, i, 2);
    WholeCount(c.bs, Write, i, 2);
    q := EnterAndMap(c, t, vs, p0, p, r);
    forall b | 1 <= b <= t
      ensures ReadFirst(c.bs, q.st.blocks[b]) && (i + 1 < b ==> |q.st.blocks[b].jobs| == 1)
      ensures b <= i + 1 ==> Ready(c.bs, q.st.blocks[b], b) && Pair(c, q.st.board, b, {})
    {
      assert q.st.blocks[b] == Upon(c.bs, p.st.blocks[b], i + 1, r, b, 2);
      assert ReadFirst(c.bs, p.st.blocks[b]);
      if b == i + 1 {
        WholeJob(c.bs, Write, i, 2, i + 1, b);
      }
    }
  }

  /** Of blocks 1 to `t`, which have the threads, those below `i` wait at their barriers. */
  ghost predicate Stopping(c: Config, t: nat, i: nat, q: Pool) {
    && |q.st.blocks| == c.n && i <= t + 1 && t < c.n && c.bs > 0 && q.holders == Range(1, t) && AllMapped(c, q.st.board)
    && (forall b :: i <= b <= t ==> Ready(c.bs, q.st.blocks[b], b) && Pair(c, q.st.board, b, {}))
    && (forall b :: 1 <= b < i ==> Blocked(c.bs, q.st.blocks[b], b) && Pair(c, q.st.board, b, {b}))
  }

  lemma StopNext(c: Config, t: nat, vs: seq<View>, p0: Pool, p: Pool, i: nat) returns (q: Pool)
    requires At(c, t, vs, p0, p) && Stopping(c, t, i, p) && 1 <= i <= t
    ensures At(c, t, vs, p0, q) && Stopping(c, t, i + 1, q)
  {
    hide At, Ready, Blocked, SharedCount, Pieces;
    q := RunToBarrier(c, t, vs, p0, p, i);
    forall b | i + 1 <= b <= t ensures Ready(c.bs, q.st.blocks[b], b) && Pair(c, q.st.board, b, {}) {
      assert Pair(c, p.st.board, b, {});
    }
    forall b | 1 <= b < i + 1 ensures Blocked(c.bs, q.st.blocks[b], b) && Pair(c, q.st.board, b, {b}) {
      if b < i {
        assert Pair(c, p.st.board, b, {b});
      }
    }
  }

  lemma StoppedIsJammed(c: Config, t: nat, vs: seq<View>, p0: Pool, p: Pool)
    requires At(c, t, vs, p0, p) && Stopping(c, t, t + 1, p)
    ensures Jammed(c, t, p)
  {
    hide Good, Listed, SharedCount, Reaches, Staffed;
    InvIsShaped(c, vs, p.st);
    forall b | b in p.holders ensures b < c.n && Busy(p.st, b) && !MayPass(c, p.st.board, p.st.blocks[b]) {
      assert Blocked(c.bs, p.st.blocks[b], b) && Pair(c, p.st.board, b, {b});
    }
  }

  lemma AllPrepared(c: Config, t: nat, v0: seq<Byte>, vs: seq<View>, p: Pool) returns (q: Pool)
    requires Begins(c, v0, vs, p) && 1 <= t < c.n
    ensures At(c, t, vs, p, q) && Prepared(c, t, t, q)
  {
    hide At, Prepared, Begins;
    q := ReadsEnter(c, t, v0, vs, p);
    var i := 0;
    while i < t
      invariant i <= t && At(c, t, vs, p, q) && Prepared(c, t, i, q)
    {
      q := WriteEnters(c, t, vs, p, q, i);
      i := i + 1;
    }
  }

  lemma AllStop(c: Config, t: nat, vs: seq<View>, p0: Pool, p: Pool) returns (q: Pool)
    requires At(c, t, vs, p0, p) && Stopping(c, t, 1, p) && t >= 1
    ensures At(c, t, vs, p0, q) && Stopping(c, t, t + 1, q)
  {
    hide At, Stopping;
    q := p;
    var i := 1;
    while i <= t
      invariant 1 <= i <= t + 1 && At(c, t, vs, p0, q) && Stopping(c, t, i, q)
    {
      q := StopNext(c, t, vs, p0, q, i);
      i := i + 1;
    }
  }

  /** A read of `t` blocks and `t` writes of two blocks each stop `t` threads: each waits for
      the other block of its write. */
  lemma SmallWritesJam(c: Config, t: nat, v0: seq<Byte>, vs: seq<View>, p: Pool) returns (q: Pool)
    requires Begins(c, v0, vs, p) && 1 <= t < c.n
    ensures At(c, t, vs, p, q) && Jammed(c, t, q) && AllMapped(c, q.st.board)
    ensures forall b :: b in q.holders ==> Pair(c, q.st.board, b, {b})
  {
    hide At, AllMapped, Ready, Blocked, ReadFirst, Pair, Jammed, Begins;
    q := AllPrepared(c, t, v0, vs, p);
    q := TakeSome(c, t, vs, p, q, 1, t);
    q := AllStop(c, t, vs, p, q);
    StoppedIsJammed(c, t, vs, p, q);
  }

  /* ---- one write of more blocks than threads ---- */

  /** Of the blocks that have the threads, the first `i` have been handed over. */
  ghost predicate Filling(c: Config, t: nat, i: nat, q: Pool) {
    && |q.st.blocks| == c.n && i <= t < c.n && c.bs > 0 && q.holders == Range(0, t) && AllMapped(c, q.st.board)
    && q.st.board.reqs == [Whole(c.bs, Write, 0, t + 1)] && q.st.board.arrived == [Range(0, i)]
    && forall b :: 0 <= b < t ==> WholeFirst(c.bs, q.st.blocks[b], if b < i then 1 else 0)
  }

  ghost predicate WholeFirst(bs: nat, w: Worker, pc: nat) {
    w.pc == pc && w.jobs != [] && w.jobs[0].io == Write && w.jobs[0].f.size == bs && w.jobs[0].rid == 0
  }

  lemma NotFull(bs: nat, t: nat, i: nat)
    requires bs > 0 && i <= t <= 254
    ensures !Full(bs, Whole(bs, Write, 0, t + 1), Range(0, i))
  {
    hide SharedCount;
    WholeCount(bs, Write, 0, t + 1);
  }

  lemma RangeNext(i: nat)
    ensures Range(0, i + 1) == Range(0, i) + {i}
  {
  }

  lemma FillNext(c: Config, t: nat, vs: seq<View>, p0: Pool, p: Pool, i: nat) returns (q: Pool)
    requires At(c, t, vs, p0, p) && Filling(c, t, i, p) && i < t <= 254
    ensures At(c, t, vs, p0, q) && Filling(c, t, i + 1, q)
  {
    hide At, Full, Whole, Pieces, WorkerOk, Worked, Range, SharedCount;
    assert WholeFirst(c.bs, p.st.blocks[i], 0);
    AtIsOk(c, t, vs, p0, p, i);
    RangeNext(i);
    NotFull(c.bs, t, i + 1);
    StillHandedOver(c.bs, p.st.blocks[i]);
    q := HandRun(c, t, vs, p0, p, i);
    assert q.st.board.arrived == [Range(0, i + 1)];
    forall b | 0 <= b < t ensures WholeFirst(c.bs, q.st.blocks[b], if b < i + 1 then 1 else 0) {
      assert WholeFirst(c.bs, p.st.blocks[b], if b < i then 1 else 0);
    }
  }

  lemma AllFill(c: Config, t: nat, vs: seq<View>, p0: Pool, p: Pool) returns (q: Pool)
    requires At(c, t, vs, p0, p) && Filling(c, t, 0, p) && t <= 254
    ensures At(c, t, vs, p0, q) && Filling(c, t, t, q)
  {
    hide At, Filling;
    q := p;
    for i := 0 to t
      invariant At(c, t, vs, p0, q) && Filling(c, t, i, q)
    {
      q := FillNext(c, t, vs, p0, q, i);
    }
  }

  lemma FilledIsJammed(c: Config, t: nat, vs: seq<View>, p0: Pool, p: Pool)
    requires At(c, t, vs, p0, p) && Filling(c, t, t, p) && t <= 254
    ensures Jammed(c, t, p)
  {
    hide Good, Listed, Full, Reaches, Staffed, Whole, Pieces;
    InvIsShaped(c, vs, p.st);
    NotFull(c.bs, t, t);
    forall b | b in p.holders ensures b < c.n && Busy(p.st, b) && !MayPass(c, p.st.board, p.st.blocks[b]) {
      assert WholeFirst(c.bs, p.st.blocks[b], 1);
    }
  }

  lemma WriteQueued(c: Config, t: nat, p: Pool, q: Pool, b: nat)
    requires p.st.board.reqs == [] && Mapping(c, p, Whole(c.bs, Write, 0, t + 1), t + 1, q)
    requires b <= t < c.n && Idle(p.st.blocks[b])
    ensures WholeFirst(c.bs, q.st.blocks[b], 0)
  {
    hide Pieces, Touches, Newly, SharedCount;
    var r := Whole(c.bs, Write, 0, t + 1);
    WholeCount(c.bs, Write, 0, t + 1);
    WholeJob(c.bs, Write, 0, t + 1, 0, b);
    assert q.st.blocks[b] == Upon(c.bs, p.st.blocks[b], 0, r, b, t + 1);
  }

  lemma WriteTaken(c: Config, t: nat, v0: seq<Byte>, vs: seq<View>, p: Pool, m: Pool) returns (q: Pool)
    requires Begins(c, v0, vs, p) && 1 <= t < c.n && At(c, t, vs, p, m) && AllMapped(c, m.st.board)
    requires Mapping(c, p, Whole(c.bs, Write, 0, t + 1), t + 1, m)
    ensures At(c, t, vs, p, q) && Filling(c, t, 0, q)
  {
    hide At, Pieces, Touches, JobOn, Newly, AllMapped, StartsAt, Whole, SharedCount, Upon;
    WholeCount(c.bs, Write, 0, t + 1);
    forall b | 0 <= b < c.n ensures Idle(p.st.blocks[b]) {
      BeginIsIdle(c, v0, vs, p, b);
    }
    AllNewly(p.st.blocks, 0, t + 1, 0);
    forall k | 0 <= k <= t ensures m.tasks[k] == k {
      AllNewly(p.st.blocks, 0, t + 1, k);
    }
    q := TakeSome(c, t, vs, p, m, 0, t);
    forall b | 0 <= b < t ensures WholeFirst(c.bs, q.st.blocks[b], 0) {
      WriteQueued(c, t, p, m, b);
    }
    assert Range(0, 0) == {};
  }

  /** A single write of one block more than there are threads stops them all, too. */
  lemma OneWriteJams(c: Config, t: nat, v0: seq<Byte>, vs: seq<View>, p: Pool) returns (q: Pool)
    requires Begins(c, v0, vs, p) && 1 <= t < c.n && t <= 254
    ensures At(c, t, vs, p, q) && Jammed(c, t, q) && AllMapped(c, q.st.board)
    ensures q.st.board.reqs == [Whole(c.bs, Write, 0, t + 1)]
  {
    hide At, AllMapped, Mapping, Jammed, SharedCount, InVolume, Countable, Pieces, StartsAt;
    BeginIsAt(c, t, v0, vs, p);
    WholeEnters(c, Write, 0, t + 1);
    WholeCount(c.bs, Write, 0, t + 1);
    FarMultiple(c.bs, t + 1);
    NothingToMap(c, p);
    var m := EnterAndMap(c, t, vs, p, p, Whole(c.bs, Write, 0, t + 1));
    m := WriteTaken(c, t, v0, vs, p, m);
    q := AllFill(c, t, vs, p, m);
    FilledIsJammed(c, t, vs, p, q);
  }

  lemma NothingToMap(c: Config, p: Pool)
    requires c.bs > 0 && p.st.board.reqs == []
    ensures AllMapped(c, p.st.board)
  {
  }

  /** With waits in one step, a run can stop for ever exactly when there are fewer threads than
      blocks, however few blocks each write covers. */
  lemma AtomicWaitStuckIff(c: Config, t: nat, v0: seq<Byte>, vs: seq<View>, p: Pool)
    requires Begins(c, v0, vs, p) && t >= 1
    ensures (exists q :: Reaches(c, t, p, q) && Stuck(c, t, q)) <==> t < c.n
  {
    hide Stuck, PoolInv, Jammed, AllMapped;
    if t < c.n {
      var q := SmallWritesJam(c, t, v0, vs, p);
      JamIsStuck(c, t, vs, q);
    } else {
      forall q | Reaches(c, t, p, q) ensures !Stuck(c, t, q) {
        var es :| Leads(c, t, p, es, q);
        BeginIsAt(c, t, v0, vs, p);
        LeadsKeepsInv(c, t, vs, p, es, q);
        AtomicWaitEnough(c, t, vs, q);
      }
    }
  }
}
