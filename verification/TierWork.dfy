/** The steps of a block's worker: plain operations, leaving the barrier, and handing a block
    over, the last of which submits the whole request. */
module TierWork {
  import opened TierChain
  import opened TierFlat
  import opened TierMachine
  import opened TierRuns

  /* ---- any operation but the hand-over ---- */

  /** A worker that leaves the barrier writes nothing: the submission wrote its block. */
  function Worked(bs: nat, w: Worker): Worker
    requires WorkerOk(bs, w) && w.jobs != []
  {
    Moved(bs, w, if Waits(bs, w) then w.l else Perform(bs, Current(bs, w), w.l))
  }

  /** The barrier lets a worker pass once its request is submitted. */
  ghost predicate MayPass(c: Config, g: Board, w: Worker)
    requires BoardOk(c, g)
  {
    Waits(c.bs, w) ==> w.jobs[0].rid < |g.reqs| && Full(c.bs, g.reqs[w.jobs[0].rid], g.arrived[w.jobs[0].rid])
  }

  lemma MovedNext(bs: nat, w: Worker, l: Local)
    requires WorkerOk(bs, w) && w.jobs != []
    ensures WorkerOk(bs, Moved(bs, w, l))
    ensures var m := Moved(bs, w, l);
            && m.l == l
            && ((m.jobs == w.jobs && m.pc == w.pc + 1) ||
                (m.jobs == w.jobs[1..] && m.pc == 0 && (w.jobs[0].io == Write ==> w.pc > PrepareAt(bs, w.jobs[0]) + 1)))
  {
  }

  lemma DueAfterMove(bs: nat, w: Worker, l: Local, rid: nat)
    requires WorkerOk(bs, w) && w.jobs != [] && !HandsOver(bs, w)
    requires w.jobs[0].rid == rid ==> w.jobs[0].io == Write
    ensures Due(bs, Moved(bs, w, l), rid) <==> Due(bs, w, rid)
  {
    hide Moved, WorkerOk;
    MovedNext(bs, w, l);
    var m := Moved(bs, w, l);
    if Due(bs, w, rid) {
      var i :| 0 <= i < |w.jobs| && w.jobs[i].rid == rid && (i > 0 || w.pc <= PrepareAt(bs, w.jobs[0]));
      if m.jobs == w.jobs {
        assert m.jobs[i].rid == rid;
      } else {
        assert m.jobs[i - 1].rid == rid;
      }
    }
    if Due(bs, m, rid) {
      var i :| 0 <= i < |m.jobs| && m.jobs[i].rid == rid && (i > 0 || m.pc <= PrepareAt(bs, m.jobs[0]));
      if m.jobs == w.jobs {
        assert w.jobs[i].rid == rid;
      } else {
        assert w.jobs[i + 1].rid == rid;
      }
    }
  }

  /** After a plain step the worker is not at the barrier. */
  lemma NotWaiting(bs: nat, w: Worker, l: Local)
    requires WorkerOk(bs, w) && w.jobs != [] && !HandsOver(bs, w)
    ensures !Waits(bs, Moved(bs, w, l))
  {
  }

  lemma WorkKeepsBlock(c: Config, g: Board, b: nat, w: Worker, l: Local)
    requires BoardOk(c, g) && BlockOk(c, g, b, w) && w.jobs != [] && !HandsOver(c.bs, w) && MayPass(c, g, w)
    ensures BlockOk(c, g, b, Moved(c.bs, w, l))
  {
    hide Moved, WorkerOk, HandsOver, Mapped, Full, Due, JobOn;
    BlockOkWorker(c, g, b, w);
    MovedNext(c.bs, w, l);
    NotWaiting(c.bs, w, l);
    var m := Moved(c.bs, w, l);
    forall i | 0 <= i < |m.jobs| ensures JobOk(c, g, b, m.jobs[i]) {
      assert JobOk(c, g, b, w.jobs[if m.jobs == w.jobs then i else i + 1]);
    }
    forall rid | 0 <= rid < |g.reqs| ensures ArrivalOk(c, g, b, m, rid) {
      assert ArrivalOk(c, g, b, w, rid);
      if g.reqs[rid].io == Write {
        assert JobOk(c, g, b, w.jobs[0]);
        DueAfterMove(c.bs, w, l, rid);
      }
    }
  }

  /** Leaving the barrier has the effect of writing the block: the submission did it. */
  lemma WorkedPerforms(c: Config, g: Board, w: Worker)
    requires BoardOk(c, g) && WorkerOk(c.bs, w) && w.jobs != [] && WaitOk(c, g, w) && MayPass(c, g, w)
    ensures Worked(c.bs, w) == Moved(c.bs, w, Perform(c.bs, Current(c.bs, w), w.l))
  {
    hide Moved, Compile, Full;
    WhereItIs(c.bs, w);
    if Waits(c.bs, w) {
      assert Perform(c.bs, Current(c.bs, w), w.l) == w.l.(cache := w.l.pending) == w.l;
    }
  }

  /** No request between the one in hand and the next one in the queue touches the block. */
  lemma NoneBetween(c: Config, g: Board, b: nat, w: Worker, k: nat)
    requires BoardOk(c, g) && BlockOk(c, g, b, w) && w.jobs != [] && AllQueued(c, g, b, w)
    requires k == if |w.jobs| == 1 then MappedUpTo(c, g, b) else w.jobs[1].rid
    ensures w.jobs[0].rid < k <= |g.reqs|
    ensures forall i :: w.jobs[0].rid < i < k ==> !Touches(g.reqs[i], b, c.bs)
  {
    hide WorkerOk, ArrivalOk, WaitOk, JobOn, Touches, MappedUpTo, Mapped;
    assert JobOk(c, g, b, w.jobs[0]);
    MappedBelow(c, g, w.jobs[0].rid, b);
    if |w.jobs| > 1 {
      assert JobOk(c, g, b, w.jobs[1]);
      MappedBelow(c, g, w.jobs[1].rid, b);
    }
    forall i | w.jobs[0].rid < i < k ensures !Touches(g.reqs[i], b, c.bs) {
      TouchedIsMapped(c, g, i, b);
      NotQueuedBetween(c, g, b, w, i);
    }
  }

  lemma TouchedIsMapped(c: Config, g: Board, i: nat, b: int)
    requires BoardOk(c, g) && i < MappedUpTo(c, g, b)
    ensures Touches(g.reqs[i], b, c.bs) ==> Mapped(c, g, i, b)
  {
  }

  lemma NotQueuedBetween(c: Config, g: Board, b: nat, w: Worker, i: nat)
    requires BoardOk(c, g) && AllQueued(c, g, b, w) && w.jobs != []
    requires forall i, j :: 0 <= i < j < |w.jobs| ==> w.jobs[i].rid < w.jobs[j].rid
    requires w.jobs[0].rid < i && (|w.jobs| > 1 ==> i < w.jobs[1].rid)
    ensures !Mapped(c, g, i, b)
  {
    hide Mapped;
    assert forall j :: 1 < j < |w.jobs| ==> w.jobs[1].rid < w.jobs[j].rid;
  }

  /** After the last operation of a chain. */
  lemma PopHeads(c: Config, g: Board, b: nat, w: Worker, m: Worker, v: View)
    requires BoardOk(c, g) && Good(c, g, b, w, v) && w.jobs != []
    requires WorkerOk(c.bs, m) && m.jobs == w.jobs[1..] && m.pc == 0 && m.l == Soon(c.bs, w)
    ensures Heading(c, g, b, m, v)
  {
    hide Upto, Soon, WorkerOk, Mapped, ArrivalOk, WaitOk, Applied, JobOn, Touches;
    var r0 := w.jobs[0].rid;
    var k := if |w.jobs| == 1 then MappedUpTo(c, g, b) else w.jobs[1].rid;
    NoneBetween(c, g, b, w, k);
    UptoUntouched(c, g, b, v, r0 + 1, k);
    forall rid | Mapped(c, g, rid, b) && DoneUpTo(c, g, b, m) <= rid
      ensures exists i :: 0 <= i < |m.jobs| && m.jobs[i].rid == rid
    {
      if m.jobs == [] {
        MappedBelow(c, g, rid, b);
      }
      var i :| 0 <= i < |w.jobs| && w.jobs[i].rid == rid;
      assert m.jobs[i - 1].rid == rid;
    }
    if m.jobs != [] {
      assert m.jobs[0] == w.jobs[1] && JobOk(c, g, b, w.jobs[1]);
      SoonAtStart(c.bs, m);
      MappedInRange(c, g, k, b);
      UptoTouched(c, g, b, v, k);
    }
  }

  lemma MappedBelow(c: Config, g: Board, rid: int, b: int)
    requires BoardOk(c, g) && Mapped(c, g, rid, b)
    ensures rid < MappedUpTo(c, g, b) && rid < |g.reqs|
  {
  }

  lemma WorkHeads(c: Config, g: Board, b: nat, w: Worker, v: View)
    requires BoardOk(c, g) && Good(c, g, b, w, v) && w.jobs != [] && MayPass(c, g, w)
    ensures WorkerOk(c.bs, w) && WorkerOk(c.bs, Worked(c.bs, w))
    ensures Heading(c, g, b, Worked(c.bs, w), v)
  {
    hide Upto, Soon, Mapped, ArrivalOk, MayPass, JobOk, Worked;
    WorkedPerforms(c, g, w);
    SoonStep(c.bs, w);
    if w.pc + 1 == |Compile(c.bs, w.jobs[0])| {
      PopHeads(c, g, b, w, Worked(c.bs, w), v);
    }
  }

  lemma WorkKeeps(c: Config, g: Board, b: nat, w: Worker, v: View)
    requires BoardOk(c, g) && Good(c, g, b, w, v) && w.jobs != [] && !HandsOver(c.bs, w) && MayPass(c, g, w)
    ensures WorkerOk(c.bs, w) && Good(c, g, b, Worked(c.bs, w), v)
  {
    hide BlockOk, Moved, Perform, MayPass, HandsOver, Heading;
    BlockOkWorker(c, g, b, w);
    WorkHeads(c, g, b, w, v);
    WorkKeepsBlock(c, g, b, w, Worked(c.bs, w).l);
    WorkedIsMoved(c.bs, w);
  }

  lemma WorkedIsMoved(bs: nat, w: Worker)
    requires WorkerOk(bs, w) && w.jobs != []
    ensures Worked(bs, w) == Moved(bs, w, Worked(bs, w).l)
  {
  }

  /* ---- handing a block over ---- */

  /** No block outside a request is listed for it. */
  ghost predicate Listed(c: Config, g: Board)
    requires BoardOk(c, g)
  {
    forall rid :: 0 <= rid < |g.reqs| ==> g.arrived[rid] <= BlocksOf(g.reqs[rid], c.bs)
  }

  function HandedOver(g: Board, rid: nat, b: nat): Board
    requires rid < |g.arrived|
  {
    g.(arrived := g.arrived[rid := g.arrived[rid] + {b}])
  }

  /** The submission writes the block that was handed over. */
  function Submitted(w: Worker): Worker {
    w.(l := w.l.(cache := w.l.pending))
  }

  /** What a hand-over for `rid` does to a block: nothing, unless it completes the request. */
  ghost function AtSubmission(c: Config, g: Board, rid: nat, b: nat, w: Worker): Worker
    requires BoardOk(c, g) && rid < |g.reqs|
  {
    if Full(c.bs, g.reqs[rid], g.arrived[rid]) && b in g.arrived[rid] then Submitted(w) else w
  }

  lemma HandOverBoard(c: Config, g: Board, b: nat, w: Worker)
    requires BoardOk(c, g) && Listed(c, g) && BlockOk(c, g, b, w) && HandsOver(c.bs, w)
    ensures w.jobs[0].rid < |g.reqs| && b !in g.arrived[w.jobs[0].rid] && g.reqs[w.jobs[0].rid].io == Write
    ensures !Full(c.bs, g.reqs[w.jobs[0].rid], g.arrived[w.jobs[0].rid])
    ensures var h := HandedOver(g, w.jobs[0].rid, b); BoardOk(c, h) && Listed(c, h)
  {
    hide WorkerOk, Full, JobOn, BlocksOf, Touches;
    var rid := w.jobs[0].rid;
    assert JobOk(c, g, b, w.jobs[0]);
    assert Due(c.bs, w, rid) by {
      assert w.jobs[0].rid == rid;
    }
    assert ArrivalOk(c, g, b, w, rid);
    var r := g.reqs[rid];
    assert b in BlocksOf(r, c.bs);
    TouchesSome(r, b, c.bs);
    FullIffAll(c.bs, r, g.arrived[rid]);
  }

  lemma TouchesSome(r: Req, b: int, bs: nat)
    requires bs > 0 && Touches(r, b, bs)
    ensures r.length > 0
  {
  }

  /** Another block: if it is listed for the request it waits there, and the submission changes
      neither where it is heading nor anything else. */
  lemma HandOverOther(c: Config, g: Board, b: nat, w: Worker, rid: nat, x: nat, y: Worker, v: View)
    requires BoardOk(c, g) && Listed(c, g) && BlockOk(c, g, b, w) && HandsOver(c.bs, w) && rid == w.jobs[0].rid
    requires x != b && Good(c, g, x, y, v)
    ensures rid < |g.reqs| && BoardOk(c, HandedOver(g, rid, b))
    ensures Good(c, HandedOver(g, rid, b), x, AtSubmission(c, HandedOver(g, rid, b), rid, x, y), v)
  {
    hide Full, BlockOk, HandsOver, Heading, AtSubmission, Listed, BoardOk;
    HandOverBoard(c, g, b, w);
    BlockOkWorker(c, g, x, y);
    OtherKeepsBlock(c, g, rid, b, x, y);
    OtherHeads(c, g, rid, b, x, y, v);
  }

  lemma OtherHeads(c: Config, g: Board, rid: nat, b: nat, x: nat, y: Worker, v: View)
    requires BoardOk(c, g) && Good(c, g, x, y, v) && x != b && rid < |g.reqs| && BoardOk(c, HandedOver(g, rid, b))
    requires !Full(c.bs, g.reqs[rid], g.arrived[rid])
    ensures var z := AtSubmission(c, HandedOver(g, rid, b), rid, x, y);
            WorkerOk(c.bs, z) && Heading(c, HandedOver(g, rid, b), x, z, v)
  {
    hide Full, Soon, WorkerOk, Mapped, JobOn, JobOk, WaitOk;
    assert ArrivalOk(c, g, x, y, rid);
    if x in g.arrived[rid] {
      SoonOfSubmitted(c.bs, y);
    }
    SameMapped(c, g, rid, b, x);
  }

  lemma SameMapped(c: Config, g: Board, rid: nat, b: nat, x: nat)
    requires c.bs > 0 && rid < |g.arrived|
    ensures forall k :: Mapped(c, HandedOver(g, rid, b), k, x) <==> Mapped(c, g, k, x)
  {
  }

  lemma OtherKeepsBlock(c: Config, g: Board, rid: nat, b: nat, x: nat, y: Worker)
    requires BoardOk(c, g) && BlockOk(c, g, x, y) && x != b && rid < |g.reqs| && BoardOk(c, HandedOver(g, rid, b))
    requires !Full(c.bs, g.reqs[rid], g.arrived[rid])
    ensures BlockOk(c, HandedOver(g, rid, b), x, AtSubmission(c, HandedOver(g, rid, b), rid, x, y))
  {
    hide Full, WorkerOk, JobOn;
    var h := HandedOver(g, rid, b);
    var z := AtSubmission(c, h, rid, x, y);
    SubmittedKeepsWorker(c.bs, y);
    forall i | 0 <= i < |z.jobs| ensures JobOk(c, h, x, z.jobs[i]) {
      assert JobOk(c, g, x, y.jobs[i]);
    }
    forall k | 0 <= k < |h.reqs| ensures ArrivalOk(c, h, x, z, k) {
      assert ArrivalOk(c, g, x, y, k);
      assert Due(c.bs, z, k) <==> Due(c.bs, y, k);
    }
    if Waits(c.bs, z) && z.jobs[0].rid == rid {
      assert JobOk(c, g, x, y.jobs[0]);
      assert ArrivalOk(c, g, x, y, rid);
      assert !Due(c.bs, y, rid);
    }
  }

  lemma SubmittedKeepsWorker(bs: nat, w: Worker)
    requires WorkerOk(bs, w)
    ensures WorkerOk(bs, Submitted(w))
  {
  }

  /** The worker that hands its block over goes to the barrier with the block's new contents. */
  lemma HandOverMoves(bs: nat, w: Worker)
    requires WorkerOk(bs, w) && HandsOver(bs, w)
    ensures var m := Worked(bs, w);
            && m.jobs == w.jobs && m.pc == w.pc + 1 && Waits(bs, m) && WorkerOk(bs, m)
            && (w.jobs[0].f.size == bs ==> m.l.pending == w.jobs[0].bytes)
            && Soon(bs, m) == Soon(bs, w)
  {
    hide Soon, Fits;
    WhereItIs(bs, w);
    SoonStep(bs, w);
  }

  lemma DueAfterHandOver(bs: nat, w: Worker, m: Worker, k: nat)
    requires HandsOver(bs, w) && m.jobs == w.jobs && m.pc == w.pc + 1
    requires forall i, j :: 0 <= i < j < |w.jobs| ==> w.jobs[i].rid < w.jobs[j].rid
    ensures Due(bs, m, k) <==> Due(bs, w, k) && k != w.jobs[0].rid
  {
    if Due(bs, w, k) && k != w.jobs[0].rid {
      var i :| 0 <= i < |w.jobs| && w.jobs[i].rid == k && (i > 0 || w.pc <= PrepareAt(bs, w.jobs[0]));
      assert m.jobs[i].rid == k;
    }
    if Due(bs, m, k) {
      var i :| 0 <= i < |m.jobs| && m.jobs[i].rid == k && (i > 0 || m.pc <= PrepareAt(bs, m.jobs[0]));
      assert w.jobs[i].rid == k && w.jobs[0].rid < w.jobs[i].rid;
    }
  }

  lemma SelfKeepsBlock(c: Config, g: Board, b: nat, w: Worker, rid: nat)
    requires BoardOk(c, g) && Listed(c, g) && BlockOk(c, g, b, w) && HandsOver(c.bs, w) && rid == w.jobs[0].rid
    ensures rid < |g.reqs| && BoardOk(c, HandedOver(g, rid, b)) && WorkerOk(c.bs, w)
    ensures BlockOk(c, HandedOver(g, rid, b), b, AtSubmission(c, HandedOver(g, rid, b), rid, b, Worked(c.bs, w)))
  {
    hide Full, JobOn, Worked, Listed, Due, WorkerOk, Mapped;
    HandOverBoard(c, g, b, w);
    BlockOkWorker(c, g, b, w);
    HandOverMoves(c.bs, w);
    var h, m := HandedOver(g, rid, b), Worked(c.bs, w);
    var z := AtSubmission(c, h, rid, b, m);
    SubmittedKeepsWorker(c.bs, m);
    SameMapped(c, g, rid, b, b);
    forall i | 0 <= i < |z.jobs| ensures JobOk(c, h, b, z.jobs[i]) {
      assert JobOk(c, g, b, w.jobs[i]);
    }
    forall k | 0 <= k < |h.reqs| ensures ArrivalOk(c, h, b, z, k) {
      assert ArrivalOk(c, g, b, w, k);
      DueAfterHandOver(c.bs, w, m, k);
      DueOfSubmitted(c.bs, m, k);
      assert JobOk(c, g, b, w.jobs[0]);
    }
  }

  lemma DueOfSubmitted(bs: nat, w: Worker, k: nat)
    ensures Due(bs, Submitted(w), k) <==> Due(bs, w, k)
  {
    assert Submitted(w).jobs == w.jobs;
  }

  lemma HandOverSelf(c: Config, g: Board, b: nat, w: Worker, rid: nat, v: View)
    requires BoardOk(c, g) && Listed(c, g) && Good(c, g, b, w, v) && HandsOver(c.bs, w) && rid == w.jobs[0].rid
    ensures rid < |g.reqs| && BoardOk(c, HandedOver(g, rid, b)) && WorkerOk(c.bs, w)
    ensures Good(c, HandedOver(g, rid, b), b, AtSubmission(c, HandedOver(g, rid, b), rid, b, Worked(c.bs, w)), v)
  {
    hide Full, Worked, Listed, WorkerOk, Mapped, BlockOk, Soon;
    SelfKeepsBlock(c, g, b, w, rid);
    HandOverMoves(c.bs, w);
    SoonOfSubmitted(c.bs, Worked(c.bs, w));
    SameMapped(c, g, rid, b, b);
  }
}
