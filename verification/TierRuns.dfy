/** The invariant of a tier volume while requests arrive and their fragments are mapped. */
module TierRuns {
  import opened TierChain
  import opened TierFlat
  import opened TierMachine

  ghost predicate BoardOk(c: Config, g: Board) {
    && c.bs > 0 && AllInVolume(g.reqs, c.bs, c.n) && |g.arrived| == |g.reqs|
    && (forall k :: 0 <= k < |g.reqs| ==> Countable(c.bs, g.reqs[k]))
    && g.next <= if g.reqs == [] then 0 else |Pieces(g.reqs[|g.reqs| - 1], c.bs)|
  }

  /** The fragment of request `rid` on block `b` exists and has been mapped. */
  ghost predicate Mapped(c: Config, g: Board, rid: int, b: int)
    requires c.bs > 0
  {
    && 0 <= rid < |g.reqs| && Touches(g.reqs[rid], b, c.bs)
    && (rid == |g.reqs| - 1 ==> b - g.reqs[rid].offset / c.bs < g.next)
  }

  ghost predicate JobOk(c: Config, g: Board, b: nat, j: Job)
    requires BoardOk(c, g)
  {
    Mapped(c, g, j.rid, b) && j == JobOn(j.rid, g.reqs[j.rid], b, c.bs)
  }

  /** Request `rid` is mapped to the block but the block is not handed over yet. */
  ghost predicate Due(bs: nat, w: Worker, rid: nat) {
    exists i :: 0 <= i < |w.jobs| && w.jobs[i].rid == rid && (i > 0 || w.pc <= PrepareAt(bs, w.jobs[0]))
  }

  /** The board lists a block exactly when its worker has handed it over, and a worker leaves
      the barrier only after the submission. */
  ghost predicate ArrivalOk(c: Config, g: Board, b: nat, w: Worker, rid: nat)
    requires BoardOk(c, g) && rid < |g.reqs|
  {
    && (b in g.arrived[rid] <==> Mapped(c, g, rid, b) && g.reqs[rid].io == Write && !Due(c.bs, w, rid))
    && (b in g.arrived[rid] && !Full(c.bs, g.reqs[rid], g.arrived[rid]) ==> Waits(c.bs, w) && w.jobs[0].rid == rid)
  }

  /** A waiting block holds what it handed over, and after the submission so does the store. */
  ghost predicate WaitOk(c: Config, g: Board, w: Worker)
    requires BoardOk(c, g)
  {
    Waits(c.bs, w) ==>
      var j := w.jobs[0];
      && (j.f.size == c.bs ==> w.l.pending == j.bytes)
      && (j.rid < |g.reqs| && Full(c.bs, g.reqs[j.rid], g.arrived[j.rid]) ==> w.l.cache == w.l.pending)
  }

  ghost predicate BlockOk(c: Config, g: Board, b: nat, w: Worker)
    requires BoardOk(c, g)
  {
    && WorkerOk(c.bs, w)
    && (forall i :: 0 <= i < |w.jobs| ==> JobOk(c, g, b, w.jobs[i]))
    && (forall i, j :: 0 <= i < j < |w.jobs| ==> w.jobs[i].rid < w.jobs[j].rid)
    && (forall rid :: 0 <= rid < |g.reqs| ==> ArrivalOk(c, g, b, w, rid))
    && WaitOk(c, g, w)
  }

  /** How many requests have their fragment on block `b`, if any, mapped. */
  ghost function MappedUpTo(c: Config, g: Board, b: int): (m: nat)
    requires BoardOk(c, g)
    ensures m <= |g.reqs|
  {
    var k := |g.reqs| - 1;
    if k >= 0 && Touches(g.reqs[k], b, c.bs) && !Mapped(c, g, k, b) then k else |g.reqs|
  }

  /** How many requests block `b` is through with. */
  ghost function DoneUpTo(c: Config, g: Board, b: int, w: Worker): nat
    requires BoardOk(c, g)
  {
    if w.jobs == [] then MappedUpTo(c, g, b) else w.jobs[0].rid
  }

  /** From the one in hand on, every mapped fragment is in the block's queue. */
  ghost predicate AllQueued(c: Config, g: Board, b: nat, w: Worker)
    requires BoardOk(c, g)
  {
    forall rid :: Mapped(c, g, rid, b) && DoneUpTo(c, g, b, w) <= rid ==>
                  exists i :: 0 <= i < |w.jobs| && w.jobs[i].rid == rid
  }

  /** Block `b` after the first `m` requests, from view `v`. */
  ghost function Upto(c: Config, g: Board, b: int, v: View, m: nat): (w: View)
    requires BoardOk(c, g) && m <= |g.reqs| && |v.cache| == |v.back| == c.bs
    ensures |w.cache| == |w.back| == c.bs
  {
    BlockRun(v, g.reqs[..m], b, c.bs)
  }

  /** Between chains the block is what the requests it is through with make it, and the chain
      in hand leads to what the next one makes it. */
  ghost predicate Heading(c: Config, g: Board, b: nat, w: Worker, v: View)
    requires BoardOk(c, g) && WorkerOk(c.bs, w)
  {
    && |v.cache| == |v.back| == c.bs
    && AllQueued(c, g, b, w)
    && (w.pc == 0 ==> DoneUpTo(c, g, b, w) <= |g.reqs| && ViewOf(w.l) == Upto(c, g, b, v, DoneUpTo(c, g, b, w)))
    && (w.jobs != [] ==> w.jobs[0].rid < |g.reqs| && ViewOf(Soon(c.bs, w)) == Upto(c, g, b, v, w.jobs[0].rid + 1))
  }

  ghost predicate Good(c: Config, g: Board, b: nat, w: Worker, v: View)
    requires BoardOk(c, g)
  {
    BlockOk(c, g, b, w) && Heading(c, g, b, w, v)
  }

  /* ---- a request arrives ---- */

  ghost predicate AllMapped(c: Config, g: Board)
    requires c.bs > 0
  {
    g.reqs == [] || g.next == |Pieces(g.reqs[|g.reqs| - 1], c.bs)|
  }

  function Arrived(g: Board, r: Req): Board {
    Board(g.reqs + [r], 0, g.arrived + [{}])
  }

  lemma ArriveKeepsMapped(c: Config, g: Board, r: Req, rid: int, b: int)
    requires BoardOk(c, g) && AllMapped(c, g) && InVolume(r, c.bs, c.n) && Countable(c.bs, r)
    ensures BoardOk(c, Arrived(g, r))
    ensures Mapped(c, Arrived(g, r), rid, b) <==> Mapped(c, g, rid, b)
  {
    var h := Arrived(g, r);
    assert forall k :: 0 <= k < |g.reqs| ==> h.reqs[k] == g.reqs[k];
  }

  lemma ArriveKeeps(c: Config, g: Board, r: Req, b: nat, w: Worker, v: View)
    requires BoardOk(c, g) && AllMapped(c, g) && InVolume(r, c.bs, c.n) && Countable(c.bs, r) && Good(c, g, b, w, v)
    ensures BoardOk(c, Arrived(g, r)) && Good(c, Arrived(g, r), b, w, v)
  {
    hide Mapped, JobOn, WorkerOk, Waits, Full, Due, Heading;
    var h := Arrived(g, r);
    ArriveKeepsMapped(c, g, r, 0, b);
    forall i | 0 <= i < |w.jobs| ensures JobOk(c, h, b, w.jobs[i]) {
      assert JobOk(c, g, b, w.jobs[i]);
      ArriveKeepsMapped(c, g, r, w.jobs[i].rid, b);
      MappedInRange(c, g, w.jobs[i].rid, b);
    }
    forall rid | 0 <= rid < |h.reqs| ensures ArrivalOk(c, h, b, w, rid) {
      ArriveKeepsMapped(c, g, r, rid, b);
      if rid < |g.reqs| {
        assert ArrivalOk(c, g, b, w, rid);
      } else {
        MappedInRange(c, g, rid, b);
      }
    }
    if Waits(c.bs, w) {
      JobsOfWaiting(c.bs, w);
      assert JobOk(c, g, b, w.jobs[0]);
      MappedInRange(c, g, w.jobs[0].rid, b);
    }
    ArriveHeads(c, g, r, b, w, v);
  }

  lemma JobsOfWaiting(bs: nat, w: Worker)
    requires Waits(bs, w)
    ensures w.jobs != [] && w.jobs[0].io == Write
  {
  }

  lemma MappedInRange(c: Config, g: Board, rid: int, b: int)
    requires c.bs > 0
    ensures Mapped(c, g, rid, b) ==> 0 <= rid < |g.reqs| && Touches(g.reqs[rid], b, c.bs)
  {
  }

  /** A prefix of the requests is not changed by a newer one. */
  lemma UptoArrived(c: Config, g: Board, r: Req, b: nat, v: View, m: nat)
    requires BoardOk(c, g) && BoardOk(c, Arrived(g, r)) && m <= |g.reqs| && |v.cache| == |v.back| == c.bs
    ensures Upto(c, Arrived(g, r), b, v, m) == Upto(c, g, b, v, m)
  {
    assert (g.reqs + [r])[..m] == g.reqs[..m];
  }

  lemma ArriveHeads(c: Config, g: Board, r: Req, b: nat, w: Worker, v: View)
    requires BoardOk(c, g) && AllMapped(c, g) && InVolume(r, c.bs, c.n) && Countable(c.bs, r)
    requires BoardOk(c, Arrived(g, r))
    requires WorkerOk(c.bs, w) && Heading(c, g, b, w, v)
    ensures Heading(c, Arrived(g, r), b, w, v)
  {
    hide Upto, Soon;
    var h, k := Arrived(g, r), |g.reqs|;
    assert MappedUpTo(c, g, b) == k;
    forall rid | Mapped(c, h, rid, b) && DoneUpTo(c, h, b, w) <= rid
      ensures exists i :: 0 <= i < |w.jobs| && w.jobs[i].rid == rid
    {
      ArriveKeepsMapped(c, g, r, rid, b);
    }
    if w.pc == 0 {
      UptoArrived(c, g, r, b, v, DoneUpTo(c, g, b, w));
      if w.jobs == [] && !Touches(r, b, c.bs) {
        UptoUntouched(c, h, b, v, k, k + 1);
      }
    }
    if w.jobs != [] {
      UptoArrived(c, g, r, b, v, w.jobs[0].rid + 1);
    }
  }

  /** Requests that do not touch the block do not change it. */
  lemma {:induction false} UptoUntouched(c: Config, g: Board, b: int, v: View, m: nat, k: nat)
    requires BoardOk(c, g) && m <= k <= |g.reqs| && |v.cache| == |v.back| == c.bs
    requires forall i :: m <= i < k ==> !Touches(g.reqs[i], b, c.bs)
    ensures Upto(c, g, b, v, k) == Upto(c, g, b, v, m)
    decreases k
  {
    hide Applied, Touches;
    if m < k {
      UptoUntouched(c, g, b, v, m, k - 1);
      assert g.reqs[..k][..k - 1] == g.reqs[..k - 1];
    }
  }

  /** A request that touches the block applies its fragment. */
  lemma UptoTouched(c: Config, g: Board, b: int, v: View, m: nat)
    requires BoardOk(c, g) && m < |g.reqs| && |v.cache| == |v.back| == c.bs && Touches(g.reqs[m], b, c.bs)
    ensures Upto(c, g, b, v, m + 1) == Applied(c.bs, JobOn(m, g.reqs[m], b, c.bs), Upto(c, g, b, v, m))
  {
    hide Applied, Touches;
    assert g.reqs[..m + 1][..m] == g.reqs[..m];
  }

  /* ---- a fragment is mapped ---- */

  ghost predicate Unmapped(c: Config, g: Board)
    requires c.bs > 0
  {
    g.reqs != [] && g.next < |Pieces(g.reqs[|g.reqs| - 1], c.bs)|
  }

  /** The block of the next fragment of the newest request. */
  function Target(c: Config, g: Board): nat
    requires c.bs > 0 && g.reqs != []
  {
    g.reqs[|g.reqs| - 1].offset / c.bs + g.next
  }

  function OneMapped(g: Board): Board {
    g.(next := g.next + 1)
  }

  /** The block's queue gets the fragment's chain at its end. */
  function Queued(c: Config, g: Board, w: Worker): Worker
    requires c.bs > 0 && g.reqs != []
    requires var r := g.reqs[|g.reqs| - 1]; Touches(r, Target(c, g), c.bs) && |r.data| == r.length
  {
    w.(jobs := w.jobs + [JobOn(|g.reqs| - 1, g.reqs[|g.reqs| - 1], Target(c, g), c.bs)])
  }

  lemma MapChanges(c: Config, g: Board, rid: int, b: int)
    requires BoardOk(c, g) && Unmapped(c, g)
    ensures BoardOk(c, OneMapped(g))
    ensures Touches(g.reqs[|g.reqs| - 1], Target(c, g), c.bs) && Target(c, g) < c.n
    ensures Mapped(c, OneMapped(g), rid, b) <==>
            Mapped(c, g, rid, b) || (rid == |g.reqs| - 1 && b == Target(c, g))
    ensures !Mapped(c, g, |g.reqs| - 1, Target(c, g))
  {
    PieceInVolume(g.reqs[|g.reqs| - 1], Target(c, g), c.bs, c.n);
  }

  lemma MapKeepsOther(c: Config, g: Board, b: nat, w: Worker, v: View)
    requires BoardOk(c, g) && Unmapped(c, g) && b != Target(c, g) && Good(c, g, b, w, v)
    ensures BoardOk(c, OneMapped(g)) && Good(c, OneMapped(g), b, w, v)
  {
    hide Mapped, JobOn, WorkerOk, Waits, Full, Due, Target, Touches, Soon, Upto;
    var h := OneMapped(g);
    MapChanges(c, g, |g.reqs| - 1, b);
    forall i | 0 <= i < |w.jobs| ensures JobOk(c, h, b, w.jobs[i]) {
      assert JobOk(c, g, b, w.jobs[i]);
      MapChanges(c, g, w.jobs[i].rid, b);
    }
    forall rid | 0 <= rid < |h.reqs| ensures ArrivalOk(c, h, b, w, rid) {
      MapChanges(c, g, rid, b);
      assert ArrivalOk(c, g, b, w, rid);
    }
    forall rid | Mapped(c, h, rid, b) && DoneUpTo(c, h, b, w) <= rid
      ensures exists i :: 0 <= i < |w.jobs| && w.jobs[i].rid == rid
    {
      MapChanges(c, g, rid, b);
    }
    MapKeepsUpto(c, g, b, w, v);
  }

  lemma MapKeepsUpto(c: Config, g: Board, b: nat, w: Worker, v: View)
    requires BoardOk(c, g) && BoardOk(c, OneMapped(g)) && |v.cache| == |v.back| == c.bs
    ensures forall m :: 0 <= m <= |g.reqs| ==> Upto(c, OneMapped(g), b, v, m) == Upto(c, g, b, v, m)
  {
  }

  /** No fragment already on the block belongs to the request being mapped. */
  lemma NewestLast(c: Config, g: Board, w: Worker, i: int)
    requires BoardOk(c, g) && Unmapped(c, g) && BlockOk(c, g, Target(c, g), w) && 0 <= i < |w.jobs|
    ensures 0 <= w.jobs[i].rid < |g.reqs| - 1
  {
    assert JobOk(c, g, Target(c, g), w.jobs[i]);
    MapChanges(c, g, w.jobs[i].rid, Target(c, g));
  }

  lemma DueAfterQueue(c: Config, g: Board, w: Worker, rid: nat)
    requires BoardOk(c, g) && Unmapped(c, g) && BlockOk(c, g, Target(c, g), w) && rid < |g.reqs|
    requires Touches(g.reqs[|g.reqs| - 1], Target(c, g), c.bs)
    ensures Due(c.bs, Queued(c, g, w), rid) <==> Due(c.bs, w, rid) || rid == |g.reqs| - 1
  {
    hide JobOn, WorkerOk, JobOk, ArrivalOk, WaitOk;
    var m, q := Queued(c, g, w), |w.jobs|;
    assert m.jobs[q].rid == |g.reqs| - 1;
    assert forall i :: 0 <= i < q ==> m.jobs[i] == w.jobs[i];
    if w.jobs == [] {
      EmptyStarts(c.bs, w);
    }
    if Due(c.bs, w, rid) {
      var i :| 0 <= i < |w.jobs| && w.jobs[i].rid == rid && (i > 0 || w.pc <= PrepareAt(c.bs, w.jobs[0]));
      assert m.jobs[i].rid == rid;
    }
    if Due(c.bs, m, rid) {
      var i :| 0 <= i < |m.jobs| && m.jobs[i].rid == rid && (i > 0 || m.pc <= PrepareAt(c.bs, m.jobs[0]));
      if i < q {
        assert w.jobs[i].rid == rid;
      }
    }
  }

  lemma EmptyStarts(bs: nat, w: Worker)
    requires WorkerOk(bs, w) && w.jobs == []
    ensures w.pc == 0
  {
  }

  lemma MapKeepsTarget(c: Config, g: Board, w: Worker, v: View)
    requires BoardOk(c, g) && Unmapped(c, g) && Good(c, g, Target(c, g), w, v)
    requires Touches(g.reqs[|g.reqs| - 1], Target(c, g), c.bs)
    ensures BoardOk(c, OneMapped(g)) && BlockOk(c, OneMapped(g), Target(c, g), Queued(c, g, w))
  {
    hide Mapped, WorkerOk, Full, Due, Target, Touches, Waits, JobOn, Heading;
    var h, b, m, k := OneMapped(g), Target(c, g), Queued(c, g, w), |g.reqs| - 1;
    MapChanges(c, g, k, b);
    QueueKeepsWorker(c, g, w);
    forall i | 0 <= i < |m.jobs| ensures JobOk(c, h, b, m.jobs[i]) {
      if i < |w.jobs| {
        assert m.jobs[i] == w.jobs[i] && JobOk(c, g, b, w.jobs[i]);
        MapChanges(c, g, w.jobs[i].rid, b);
      } else {
        assert m.jobs[i] == JobOn(k, g.reqs[k], b, c.bs);
      }
    }
    forall i, j | 0 <= i < j < |m.jobs| ensures m.jobs[i].rid < m.jobs[j].rid {
      NewestLast(c, g, w, i);
    }
    forall rid | 0 <= rid < |h.reqs| ensures ArrivalOk(c, h, b, m, rid) {
      MapKeepsArrivals(c, g, w, rid);
    }
    if Waits(c.bs, m) {
      JobsOfWaiting(c.bs, w);
    }
  }

  lemma MapKeepsArrivals(c: Config, g: Board, w: Worker, rid: nat)
    requires BoardOk(c, g) && Unmapped(c, g) && BlockOk(c, g, Target(c, g), w) && rid < |g.reqs|
    requires Touches(g.reqs[|g.reqs| - 1], Target(c, g), c.bs)
    ensures BoardOk(c, OneMapped(g)) && ArrivalOk(c, OneMapped(g), Target(c, g), Queued(c, g, w), rid)
  {
    hide Mapped, WorkerOk, Full, Due, Target, Touches, JobOn, JobOk, WaitOk;
    MapChanges(c, g, rid, Target(c, g));
    assert ArrivalOk(c, g, Target(c, g), w, rid);
    DueAfterQueue(c, g, w, rid);
    BlockOkWorker(c, g, Target(c, g), w);
    QueueKeepsWorker(c, g, w);
  }

  /** A fragment queued behind others does not move the worker. */
  lemma QueueKeepsWorker(c: Config, g: Board, w: Worker)
    requires BoardOk(c, g) && Unmapped(c, g) && WorkerOk(c.bs, w)
    requires Touches(g.reqs[|g.reqs| - 1], Target(c, g), c.bs)
    ensures WorkerOk(c.bs, Queued(c, g, w))
    ensures Waits(c.bs, Queued(c, g, w)) <==> Waits(c.bs, w)
    ensures w.jobs != [] ==> Queued(c, g, w).jobs[0] == w.jobs[0]
  {
  }

  lemma MapHeads(c: Config, g: Board, w: Worker, v: View)
    requires BoardOk(c, g) && Unmapped(c, g) && Good(c, g, Target(c, g), w, v)
    requires Touches(g.reqs[|g.reqs| - 1], Target(c, g), c.bs)
    ensures BoardOk(c, OneMapped(g)) && WorkerOk(c.bs, Queued(c, g, w))
    ensures Heading(c, OneMapped(g), Target(c, g), Queued(c, g, w), v)
  {
    hide Mapped, WorkerOk, Target, Touches, Applied, BlockOk, JobOn, Soon, Upto;
    var h, b, k, m := OneMapped(g), Target(c, g), |g.reqs| - 1, Queued(c, g, w);
    MapChanges(c, g, k, b);
    BlockOkWorker(c, g, b, w);
    QueueKeepsWorker(c, g, w);
    MapKeepsUpto(c, g, b, w, v);
    forall rid | Mapped(c, h, rid, b) && DoneUpTo(c, h, b, m) <= rid
      ensures exists i :: 0 <= i < |m.jobs| && m.jobs[i].rid == rid
    {
      MapChanges(c, g, rid, b);
      if rid == k {
        assert m.jobs[|w.jobs|].rid == rid;
      } else {
        var i :| 0 <= i < |w.jobs| && w.jobs[i].rid == rid;
        assert m.jobs[i].rid == rid;
      }
    }
    if w.jobs == [] {
      EmptyStarts(c.bs, w);
      SoonAtStart(c.bs, m);
      UptoTouched(c, g, b, v, k);
    } else {
      SameSoon(c.bs, w, m);
    }
  }

  /** Only the first fragment and the position matter. */
  lemma SameSoon(bs: nat, w: Worker, m: Worker)
    requires WorkerOk(bs, w) && WorkerOk(bs, m) && w.jobs != [] && m.jobs != []
    requires m.jobs[0] == w.jobs[0] && m.pc == w.pc && m.l == w.l
    ensures Soon(bs, m) == Soon(bs, w)
  {
  }

  lemma BlockOkWorker(c: Config, g: Board, b: nat, w: Worker)
    requires BoardOk(c, g) && BlockOk(c, g, b, w)
    ensures WorkerOk(c.bs, w)
  {
  }
}
