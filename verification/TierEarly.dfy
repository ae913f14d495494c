/** The tier machine with the completion in the code's two steps: the last hand-over brings the
    count to zero, and only then calls the submission.  In between, threads that wait may pass. */
module TierEarly {
  import opened TierChain
  import opened TierFlat
  import opened TierMachine
  import opened TierRuns
  import opened TierWork
  import opened Tier
  import opened Split
  import opened Volume

  /** `owed` are the blocks whose thread is about to submit, with what each will write. */
  datatype Early = Early(st: State, owed: map<nat, map<nat, seq<Byte>>>)

  datatype EarlyEvent = Plain(e: Event) | Submit(b: nat)

  /** Block `b` hands over the last fragment of its request. */
  ghost predicate Last(c: Config, st: State, b: nat)
    requires Shape(c, st) && b < c.n
  {
    assert Runnable(c, st.board, st.blocks[b]);
    HandsOver(c.bs, st.blocks[b]) &&
    var rid := st.blocks[b].jobs[0].rid;
    Full(c.bs, st.board.reqs[rid], st.board.arrived[rid] + {b})
  }

  /** `most` bounds the number of blocks of a write. */
  ghost predicate CanDo(c: Config, most: nat, s: Early, e: EarlyEvent) {
    match e
    case Plain(e) =>
      && Shape(c, s.st) && Enabled(c, s.st, e) && (e.Work? ==> e.b !in s.owed)
      && (e.Arrive? && e.r.io == Write ==> SharedCount(e.r.offset, e.r.length, c.bs) <= most)
    case Submit(b) => b in s.owed
  }

  /** What the blocks listed for a request have handed over. */
  function Handed(blocks: seq<Worker>, listed: set<nat>): map<nat, seq<Byte>> {
    map x | x in listed && x < |blocks| :: blocks[x].l.pending
  }

  function Written(blocks: seq<Worker>, data: map<nat, seq<Byte>>): (ws: seq<Worker>)
    ensures |ws| == |blocks|
    ensures forall x :: 0 <= x < |ws| ==>
              ws[x] == if x in data then blocks[x].(l := blocks[x].l.(cache := data[x])) else blocks[x]
  {
    seq(|blocks|, x requires 0 <= x < |blocks| =>
      if x in data then blocks[x].(l := blocks[x].l.(cache := data[x])) else blocks[x])
  }

  ghost function Does(c: Config, most: nat, s: Early, e: EarlyEvent): Early
    requires CanDo(c, most, s, e)
  {
    match e
    case Plain(e) =>
      if e.Work? && Last(c, s.st, e.b) then
        var w := s.st.blocks[e.b];
        assert Runnable(c, s.st.board, w);
        var h := HandedOver(s.st.board, w.jobs[0].rid, e.b);
        var blocks := s.st.blocks[e.b := Worked(c.bs, w)];
        Early(State(h, blocks), s.owed[e.b := Handed(blocks, h.arrived[w.jobs[0].rid])])
      else s.(st := Next(c, s.st, e))
    case Submit(b) => Early(State(s.st.board, Written(s.st.blocks, s.owed[b])), s.owed - {b})
  }

  /* ---- runs ---- */

  ghost predicate Leads(c: Config, most: nat, s: Early, es: seq<EarlyEvent>, t: Early)
    decreases |es|
  {
    if es == [] then s == t
    else CanDo(c, most, s, es[0]) && Leads(c, most, Does(c, most, s, es[0]), es[1..], t)
  }

  ghost predicate Reaches(c: Config, most: nat, s: Early, t: Early) {
    exists es :: Leads(c, most, s, es, t)
  }

  lemma {:induction false} LeadsOn(c: Config, most: nat, s: Early, es: seq<EarlyEvent>, t: Early, e: EarlyEvent)
    requires Leads(c, most, s, es, t) && CanDo(c, most, t, e)
    ensures Leads(c, most, s, es + [e], Does(c, most, t, e))
    decreases |es|
  {
    hide CanDo, Does;
    if es == [] {
      assert (es + [e])[1..] == [];
    } else {
      LeadsOn(c, most, Does(c, most, s, es[0]), es[1..], t, e);
      assert (es + [e])[1..] == es[1..] + [e];
    }
  }

  ghost predicate Begins(c: Config, v0: seq<Byte>, vs: seq<View>, s: Early) {
    Starts(c, v0, vs, s.st) && s.owed == map[]
  }

  /* ---- writes of one block ---- */

  ghost predicate Small(c: Config, r: Req)
    requires c.bs > 0
  {
    r.io == Write ==> SharedCount(r.offset, r.length, c.bs) <= 1
  }

  /** The state once all that is owed is written. */
  ghost function Settled(s: Early): State {
    State(s.st.board, seq(|s.st.blocks|, x requires 0 <= x < |s.st.blocks| =>
      if x in s.owed then Submitted(s.st.blocks[x]) else s.st.blocks[x]))
  }

  /** Every block owes what it has handed over itself, and nothing else. */
  ghost predicate OwesOwn(c: Config, s: Early) {
    forall b :: b in s.owed ==>
      && b < |s.st.blocks| && s.st.blocks[b].jobs != []
      && s.owed[b] == map[b := s.st.blocks[b].l.pending]
  }

  ghost predicate SmallInv(c: Config, vs: seq<View>, s: Early) {
    && Inv(c, vs, Settled(s)) && OwesOwn(c, s)
    && forall k :: 0 <= k < |s.st.board.reqs| ==> Small(c, s.st.board.reqs[k])
  }

  lemma SmallIsFull(c: Config, vs: seq<View>, st: State, b: nat)
    requires Inv(c, vs, st) && b < c.n && HandsOver(c.bs, st.blocks[b])
    requires forall k :: 0 <= k < |st.board.reqs| ==> Small(c, st.board.reqs[k])
    ensures var rid := st.blocks[b].jobs[0].rid;
            && rid < |st.board.reqs| && st.board.arrived[rid] + {b} == {b}
            && Full(c.bs, st.board.reqs[rid], {b})
  {
    hide Full, Heading, WorkerOk, JobOn, WaitOk, SharedCount, Fragments;
    var g, w := st.board, st.blocks[b];
    assert Good(c, g, b, w, vs[b]);
    HandOverBoard(c, g, b, w);
    var rid := w.jobs[0].rid;
    var r := g.reqs[rid];
    assert JobOk(c, g, b, w.jobs[0]);
    TouchesSome(r, b, c.bs);
    CountIsShared(r.offset, r.length, 0, c.bs);
    assert b in BlocksOf(r, c.bs) && g.arrived[rid] <= BlocksOf(r, c.bs);
    assert BlocksOf(r, c.bs) == {b};
    FullIffAll(c.bs, r, {b});
  }

  lemma SettledShape(c: Config, vs: seq<View>, s: Early)
    requires SmallInv(c, vs, s)
    ensures Shape(c, s.st) && |s.st.blocks| == c.n
  {
    hide Good, Listed;
    InvIsShaped(c, vs, Settled(s));
    forall b | 0 <= b < c.n ensures Runnable(c, s.st.board, s.st.blocks[b]) {
      assert Runnable(c, s.st.board, Settled(s).blocks[b]);
    }
  }

  /** Arrivals and mapping do not mind what is owed. */
  lemma SettledMap(c: Config, vs: seq<View>, s: Early)
    requires SmallInv(c, vs, s) && Shape(c, s.st) && Enabled(c, s.st, MapNext) && Shape(c, Settled(s))
    ensures var t := s.(st := Next(c, s.st, MapNext));
            Settled(t) == Next(c, Settled(s), MapNext) && OwesOwn(c, t) && t.st.board.reqs == s.st.board.reqs
  {
    hide Good, Listed, JobOn, Touches, Target;
    MapChanges(c, s.st.board, 0, 0);
    var t := s.(st := Next(c, s.st, MapNext));
    assert Settled(t).blocks == Next(c, Settled(s), MapNext).blocks;
  }

  lemma SettledPlainWork(c: Config, vs: seq<View>, s: Early, b: nat)
    requires SmallInv(c, vs, s) && Shape(c, s.st) && Enabled(c, s.st, Work(b)) && b !in s.owed && Shape(c, Settled(s))
    requires !HandsOver(c.bs, s.st.blocks[b])
    ensures var t := s.(st := Next(c, s.st, Work(b)));
            Enabled(c, Settled(s), Work(b)) && Settled(t) == Next(c, Settled(s), Work(b)) && OwesOwn(c, t)
  {
    hide Good, Listed, Full, Worked;
    assert Runnable(c, s.st.board, s.st.blocks[b]);
    var t := s.(st := Next(c, s.st, Work(b)));
    assert Settled(t).blocks == Next(c, Settled(s), Work(b)).blocks;
  }

  /** The hand-over of a one-block write owes that block. */
  lemma LastOwes(c: Config, vs: seq<View>, most: nat, s: Early, b: nat)
    requires SmallInv(c, vs, s) && CanDo(c, most, s, Plain(Work(b))) && HandsOver(c.bs, s.st.blocks[b])
    ensures var w, t := s.st.blocks[b], Does(c, most, s, Plain(Work(b)));
            && WorkerOk(c.bs, w) && w.jobs[0].rid < |s.st.board.arrived|
            && t.st == State(HandedOver(s.st.board, w.jobs[0].rid, b), s.st.blocks[b := Worked(c.bs, w)])
            && t.owed.Keys == s.owed.Keys + {b} && t.owed[b] == map[b := Worked(c.bs, w).l.pending]
            && (forall x :: x in s.owed && x != b ==> t.owed[x] == s.owed[x])
            && s.st.board.arrived[w.jobs[0].rid] + {b} == {b}
            && Full(c.bs, s.st.board.reqs[w.jobs[0].rid], {b})
  {
    hide Good, Listed, Full, Worked, Written;
    assert Settled(s).blocks[b] == s.st.blocks[b];
    SmallIsFull(c, vs, Settled(s), b);
    assert Runnable(c, s.st.board, s.st.blocks[b]);
  }

  lemma SettledLast(c: Config, vs: seq<View>, most: nat, s: Early, b: nat)
    requires SmallInv(c, vs, s) && CanDo(c, most, s, Plain(Work(b))) && Shape(c, Settled(s))
    requires HandsOver(c.bs, s.st.blocks[b])
    ensures var t := Does(c, most, s, Plain(Work(b)));
            && Enabled(c, Settled(s), Work(b)) && Settled(t) == Next(c, Settled(s), Work(b)) && OwesOwn(c, t)
            && t.st.board.reqs == s.st.board.reqs
  {
    hide Inv, Full, Does, Worked, Last, Next, Shape, WorkerOk, HandsOver;
    SettledShape(c, vs, s);
    var w := s.st.blocks[b];
    LastOwes(c, vs, most, s, b);
    StillHere(c.bs, w);
    var t := Does(c, most, s, Plain(Work(b)));
    NextAlone(c, Settled(s), b);
    assert Settled(t).blocks == Settled(s).blocks[b := Submitted(Worked(c.bs, w))];
  }

  /** A hand-over that is first and last submits its block. */
  lemma NextAlone(c: Config, st: State, b: nat)
    requires Shape(c, st) && b < c.n && HandsOver(c.bs, st.blocks[b])
    requires st.blocks[b].jobs[0].rid < |st.board.arrived|
    requires var rid := st.blocks[b].jobs[0].rid;
             st.board.arrived[rid] + {b} == {b} && Full(c.bs, st.board.reqs[rid], {b})
    ensures var w := st.blocks[b];
            && Enabled(c, st, Work(b)) && WorkerOk(c.bs, w)
            && Next(c, st, Work(b)) ==
               State(HandedOver(st.board, w.jobs[0].rid, b), st.blocks[b := Submitted(Worked(c.bs, w))])
  {
    hide Full, Worked, WorkerOk;
    var w := st.blocks[b];
    assert Runnable(c, st.board, w);
    var h := HandedOver(st.board, w.jobs[0].rid, b);
    assert AllAtSubmission(c, h, w.jobs[0].rid, st.blocks[b := Worked(c.bs, w)]) ==
           st.blocks[b := Submitted(Worked(c.bs, w))];
  }

  lemma StillHere(bs: nat, w: Worker)
    requires WorkerOk(bs, w) && HandsOver(bs, w)
    ensures Worked(bs, w).jobs == w.jobs
  {
  }

  lemma SettledSubmit(c: Config, s: Early, b: nat)
    requires OwesOwn(c, s) && b in s.owed
    ensures var t := Early(State(s.st.board, Written(s.st.blocks, s.owed[b])), s.owed - {b});
            Settled(t) == Settled(s) && OwesOwn(c, t)
  {
    var t := Early(State(s.st.board, Written(s.st.blocks, s.owed[b])), s.owed - {b});
    assert Settled(t).blocks == Settled(s).blocks;
  }

  /** Writes of one block each: what waits to be submitted is as good as submitted. */
  lemma SmallStep(c: Config, vs: seq<View>, most: nat, s: Early, e: EarlyEvent)
    requires SmallInv(c, vs, s) && CanDo(c, most, s, e)
    requires e.Plain? && e.e.Arrive? ==> Small(c, e.e.r)
    ensures SmallInv(c, vs, Does(c, most, s, e))
  {
    hide Inv, Shape, Last, Settled, OwesOwn, Next, Written, Small;
    SettledShape(c, vs, s);
    InvIsShaped(c, vs, Settled(s));
    var t := Does(c, most, s, e);
    match e
    case Submit(b) => SettledSubmit(c, s, b);
    case Plain(Arrive(r)) =>
      SettledArrive(c, s, r);
      StepKeepsInv(c, vs, Settled(s), Arrive(r));
    case Plain(MapNext) =>
      SettledEnabled(c, s);
      SettledMap(c, vs, s);
      StepKeepsInv(c, vs, Settled(s), MapNext);
    case Plain(Work(b)) =>
      if HandsOver(c.bs, s.st.blocks[b]) {
        SettledLast(c, vs, most, s, b);
      } else {
        SettledPlainWork(c, vs, s, b);
        NotLast(c, s.st, b);
        SameReqs(c, s.st, b);
      }
      StepKeepsInv(c, vs, Settled(s), Work(b));
  }

  lemma NotLast(c: Config, st: State, b: nat)
    requires Shape(c, st) && b < c.n && !HandsOver(c.bs, st.blocks[b])
    ensures !Last(c, st, b)
  {
  }

  lemma SameReqs(c: Config, st: State, b: nat)
    requires Shape(c, st) && Enabled(c, st, Work(b))
    ensures Next(c, st, Work(b)).board.reqs == st.board.reqs
  {
  }

  lemma SettledEnabled(c: Config, s: Early)
    requires Shape(c, s.st) && Shape(c, Settled(s)) && Enabled(c, s.st, MapNext)
    ensures Enabled(c, Settled(s), MapNext)
  {
  }

  lemma SettledArrive(c: Config, s: Early, r: Req)
    requires Shape(c, s.st) && Shape(c, Settled(s)) && Enabled(c, s.st, Arrive(r)) && OwesOwn(c, s)
    ensures Enabled(c, Settled(s), Arrive(r))
    ensures var t := s.(st := Next(c, s.st, Arrive(r)));
            Settled(t) == Next(c, Settled(s), Arrive(r)) && OwesOwn(c, t) && t.st.board.reqs == s.st.board.reqs + [r]
  {
  }

  lemma {:induction false} SmallRun(c: Config, vs: seq<View>, most: nat, s: Early, es: seq<EarlyEvent>, t: Early)
    requires SmallInv(c, vs, s) && Leads(c, most, s, es, t) && (most <= 1 || c.n <= 1)
    ensures SmallInv(c, vs, t)
    decreases |es|
  {
    hide SmallInv, Does;
    if es != [] {
      if es[0].Plain? && es[0].e.Arrive? {
        ArrivesSmall(c, most, s, es[0].e.r);
      }
      SmallStep(c, vs, most, s, es[0]);
      SmallRun(c, vs, most, Does(c, most, s, es[0]), es[1..], t);
    }
  }

  lemma ArrivesSmall(c: Config, most: nat, s: Early, r: Req)
    requires CanDo(c, most, s, Plain(Arrive(r))) && (most <= 1 || c.n <= 1)
    ensures Small(c, r)
  {
    hide Fragments;
    if most > 1 {
      if r.length == 0 {
        CountsAgreeIff(r.offset, 0, c.bs);
        EmptyCount(r.offset, c.bs);
      } else {
        CountIsShared(r.offset, r.length, 0, c.bs);
        var k := |Pieces(r, c.bs)|;
        PieceAt(r, 0, c.bs);
        PieceAt(r, k - 1, c.bs);
        PieceInVolume(r, r.offset / c.bs, c.bs, c.n);
        PieceInVolume(r, r.offset / c.bs + k - 1, c.bs, c.n);
      }
    }
  }

  lemma EmptyCount(offset: nat, bs: nat)
    requires bs > 0
    ensures SharedCount(offset, 0, bs) <= 1
  {
    DivOfMultiple(0, bs, offset % bs);
  }
}
