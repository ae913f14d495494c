/** The list in front of the cache volume.  A request's fragments go to its end and one pass
    maps them in list order, leaving those whose block is being discarded; blocks run on
    during the pass. */
module CacheList {
  import opened CacheChain
  import opened CacheMachine
  import opened Cache

  datatype Item = Item(b: nat, a: Ask)

  /** The list is `passed + ahead`, cut where the pass stands; no pass runs when nothing is
      ahead.  `log` is every fragment that ever arrived, in order. */
  datatype Front = Front(st: State, passed: seq<Item>, ahead: seq<Item>, log: seq<Item>)

  /** A request arrives, the pass visits the next fragment, or a block runs one operation. */
  datatype Move = Come(items: seq<Item>) | Visit | Work(b: nat)

  ghost predicate Listable(c: Config, st: State, x: Item) {
    x.b < |st.blocks| && Fits(c, x.a)
  }

  ghost predicate AllListable(c: Config, st: State, xs: seq<Item>) {
    forall i :: 0 <= i < |xs| ==> Listable(c, st, xs[i])
  }

  /** The fragments of a request lie on different blocks. */
  ghost predicate ApartItems(xs: seq<Item>) {
    forall i, j :: 0 <= i < j < |xs| ==> xs[i].b != xs[j].b
  }

  predicate Raised(st: State, b: nat) {
    b < |st.blocks| && st.blocks[b].discarding
  }

  ghost predicate CanMove(c: Config, s: Front, e: Move) {
    match e
    case Come(items) => s.ahead == [] && AllListable(c, s.st, items) && ApartItems(items)
    case Visit => s.ahead != [] && (Raised(s.st, s.ahead[0].b) || CanMap(c, s.st, s.ahead[0].b, s.ahead[0].a))
    case Work(b) => Enabled(c, s.st, Run(b))
  }

  ghost function Moved(c: Config, s: Front, e: Move): Front
    requires CanMove(c, s, e)
  {
    match e
    case Come(items) => Front(s.st, [], s.passed + items, s.log + items)
    case Visit =>
      var x := s.ahead[0];
      if Raised(s.st, x.b) then s.(passed := s.passed + [x], ahead := s.ahead[1..])
      else s.(st := Next(c, s.st, Map(x.b, x.a)), ahead := s.ahead[1..])
    case Work(b) => s.(st := Next(c, s.st, Run(b)))
  }

  ghost predicate ListInv(c: Config, os: seq<Outside>, s: Front) {
    Inv(c, os, s.st) && AllListable(c, s.st, s.passed) && AllListable(c, s.st, s.ahead)
  }

  lemma SameBlocks(c: Config, st: State, e: Event)
    requires Enabled(c, st, e)
    ensures |Next(c, st, e).blocks| == |st.blocks|
  {
  }

  /** Every move keeps the volume's invariant. */
  lemma MoveKeepsInv(c: Config, os: seq<Outside>, s: Front, e: Move)
    requires ListInv(c, os, s) && CanMove(c, s, e)
    ensures ListInv(c, os, Moved(c, s, e))
  {
    hide Inv, Enabled, Next, CanMap, Fits;
    match e
    case Come(items) =>
    case Visit =>
      var x := s.ahead[0];
      if !Raised(s.st, x.b) {
        CanMapEnabled(c, s.st, x);
        StepKeepsInv(c, os, s.st, Map(x.b, x.a));
        SameBlocks(c, s.st, Map(x.b, x.a));
      }
    case Work(b) =>
      StepKeepsInv(c, os, s.st, Run(b));
      SameBlocks(c, s.st, Run(b));
  }

  lemma CanMapEnabled(c: Config, st: State, x: Item)
    requires CanMap(c, st, x.b, x.a)
    ensures Enabled(c, st, Map(x.b, x.a))
  {
  }

  /* ---- arrival order on a block ---- */

  /** The requests of block `b`, in order. */
  ghost function Of(xs: seq<Item>, b: nat): seq<Ask> {
    if xs == [] then []
    else Of(xs[..|xs| - 1], b) + if xs[|xs| - 1].b == b then [xs[|xs| - 1].a] else []
  }

  lemma {:induction false} OfConcat(xs: seq<Item>, ys: seq<Item>, b: nat)
    ensures Of(xs + ys, b) == Of(xs, b) + Of(ys, b)
    decreases |ys|
  {
    if ys == [] {
      assert xs + ys == xs;
    } else {
      var k := |ys| - 1;
      OfConcat(xs, ys[..k], b);
      assert (xs + ys)[..|xs + ys| - 1] == xs + ys[..k];
    }
  }

  lemma OfFirst(xs: seq<Item>, b: nat)
    requires xs != []
    ensures Of(xs, b) == (if xs[0].b == b then [xs[0].a] else []) + Of(xs[1..], b)
  {
    assert xs == [xs[0]] + xs[1..];
    OfConcat([xs[0]], xs[1..], b);
    assert [xs[0]][..0] == [];
  }

  lemma {:induction false} OfApart(xs: seq<Item>, b: nat)
    requires ApartItems(xs)
    ensures |Of(xs, b)| <= 1
    ensures Of(xs, b) == [] <==> forall i :: 0 <= i < |xs| ==> xs[i].b != b
  {
    if xs != [] {
      OfApart(xs[..|xs| - 1], b);
    }
  }

  /** What was mapped to the block is what arrived for it first, in that order. */
  ghost predicate InOrder(s: Front, b: nat)
    requires b < |s.st.blocks|
  {
    s.st.blocks[b].hist <= Of(s.log, b)
  }

  /** The list holds, in order, what arrived for the block and is not mapped: at most one
      request, or two that this pass will reach with the flag down. */
  ghost predicate Orderly(s: Front, b: nat)
    requires b < |s.st.blocks|
  {
    && s.st.blocks[b].hist + Of(s.passed, b) + Of(s.ahead, b) == Of(s.log, b)
    && (|Of(s.passed, b)| + |Of(s.ahead, b)| <= 1 ||
        (!s.st.blocks[b].discarding && Of(s.passed, b) == [] && |Of(s.ahead, b)| == 2))
  }

  ghost predicate AllOrderly(s: Front) {
    forall b :: 0 <= b < |s.st.blocks| ==> Orderly(s, b)
  }

  /** No fragment arrives for a block that is being discarded and has another in the list. */
  ghost predicate Waited(s: Front, items: seq<Item>) {
    forall i :: 0 <= i < |items| && Raised(s.st, items[i].b) ==> Of(s.passed, items[i].b) == []
  }

  lemma ComeKeepsOrder(c: Config, s: Front, items: seq<Item>, b: nat)
    requires CanMove(c, s, Come(items)) && b < |s.st.blocks| && Orderly(s, b) && Waited(s, items)
    ensures Orderly(Moved(c, s, Come(items)), b)
  {
    OfConcat(s.passed, items, b);
    OfConcat(s.log, items, b);
    OfApart(items, b);
    assert Of([], b) == [];
  }

  /** What an event of the volume does to the history and the flag of a block. */
  lemma EventOnBlock(c: Config, st: State, e: Event, b: nat)
    requires Enabled(c, st, e) && b < |st.blocks|
    ensures var t := Next(c, st, e);
            && |t.blocks| == |st.blocks|
            && (e.Map? && e.b == b ==> t.blocks[b].hist == st.blocks[b].hist + [e.a])
            && (e.Run? || e.b != b ==> t.blocks[b].hist == st.blocks[b].hist)
            && (e.Run? && t.blocks[b].discarding ==> st.blocks[b].discarding)
            && (e.b != b ==> t.blocks[b] == st.blocks[b])
  {
    hide Compile, Perform;
  }

  lemma VisitKeepsOrder(c: Config, s: Front, b: nat)
    requires CanMove(c, s, Visit) && b < |s.st.blocks| && Orderly(s, b)
    ensures var t := Moved(c, s, Visit); |t.st.blocks| == |s.st.blocks| && Orderly(t, b)
  {
    hide CanMap, Next, Of;
    var x := s.ahead[0];
    OfFirst(s.ahead, b);
    if Raised(s.st, x.b) {
      OfConcat(s.passed, [x], b);
      OfFirst([x], b);
      assert [x][1..] == [];
      OfNone(b);
    } else {
      CanMapEnabled(c, s.st, x);
      EventOnBlock(c, s.st, Map(x.b, x.a), b);
    }
  }

  lemma OfNone(b: nat)
    ensures Of([], b) == []
  {
  }

  /** The order survives every move but an arrival that does not wait. */
  lemma MoveKeepsOrder(c: Config, s: Front, e: Move, b: nat)
    requires CanMove(c, s, e) && b < |s.st.blocks| && Orderly(s, b)
    requires e.Come? ==> Waited(s, e.items)
    ensures var t := Moved(c, s, e); |t.st.blocks| == |s.st.blocks| && Orderly(t, b)
  {
    hide Orderly, Next, Enabled, CanMap, Of, Waited;
    match e
    case Come(items) => ComeKeepsOrder(c, s, items, b);
    case Visit => VisitKeepsOrder(c, s, b);
    case Work(x) =>
      EventOnBlock(c, s.st, Run(x), b);
      RunKeepsOrder(s, Moved(c, s, e), b);
  }

  lemma RunKeepsOrder(s: Front, t: Front, b: nat)
    requires b < |s.st.blocks| == |t.st.blocks| && Orderly(s, b)
    requires t.passed == s.passed && t.ahead == s.ahead && t.log == s.log
    requires t.st.blocks[b].hist == s.st.blocks[b].hist
    requires t.st.blocks[b].discarding ==> s.st.blocks[b].discarding
    ensures Orderly(t, b)
  {
  }

  lemma OrderlyIsInOrder(s: Front, b: nat)
    requires b < |s.st.blocks| && Orderly(s, b)
    ensures InOrder(s, b)
  {
    hide Of;
    var h := s.st.blocks[b].hist;
    assert h + Of(s.passed, b) + Of(s.ahead, b) == h + (Of(s.passed, b) + Of(s.ahead, b));
  }
}
