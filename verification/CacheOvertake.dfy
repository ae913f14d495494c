/** How a request overtakes an older one of the same block, and exactly when. */
module CacheOvertake {
  import opened Basics
  import opened Volume
  import opened Lru
  import opened CacheChain
  import opened CacheBlock
  import opened CacheMachine
  import opened CacheSteps
  import opened Cache
  import opened CacheList
  import opened CacheOrder

  /** A run from `s0` is at `s`. */
  ghost predicate IsAt(c: Config, os: seq<Outside>, m: Arrivals, s0: Front, s: Front) {
    Reaches(c, m, s0, s) && ListInv(c, os, s)
  }

  lemma Advance(c: Config, os: seq<Outside>, m: Arrivals, s0: Front, s: Front, e: Move)
    requires IsAt(c, os, m, s0, s) && CanMove(c, s, e) && Admits(m, s, e)
    ensures IsAt(c, os, m, s0, Moved(c, s, e))
  {
    hide CanMove, Moved, ListInv, Admits;
    var es :| Leads(c, m, s0, es, s);
    LeadsOn(c, m, s0, es, s, e);
    MoveKeepsInv(c, os, s, e);
  }

  lemma NowAt(c: Config, os: seq<Outside>, m: Arrivals, s: Front)
    requires ListInv(c, os, s)
    ensures IsAt(c, os, m, s, s)
  {
    assert Leads(c, m, s, [], s);
  }

  /** There is a free entry for everything the pass will still visit, and `room` more. */
  ghost predicate Roomy(s: Front, room: nat) {
    |s.st.free| >= |s.ahead| + room
  }

  lemma FreeAfterMap(st: State, b: nat, a: Ask)
    requires b < |st.blocks| && (Misses(st.blocks[b], a) ==> st.free != []) && Distinct(st.free)
    ensures |Mapped(st, b, a).free| >= |st.free| - 1
  {
    if Misses(st.blocks[b], a) {
      WithoutAt(st.free, 0);
    }
  }

  lemma InvParts(c: Config, os: seq<Outside>, s: Front)
    requires ListInv(c, os, s)
    ensures Distinct(s.st.free)
  {
  }

  /** A pass with room goes on. */
  lemma VisitOne(c: Config, os: seq<Outside>, m: Arrivals, s0: Front, s: Front, room: nat) returns (t: Front)
    requires IsAt(c, os, m, s0, s) && s.ahead != [] && Roomy(s, room)
    ensures CanMove(c, s, Visit) && t == Moved(c, s, Visit) && IsAt(c, os, m, s0, t) && Roomy(t, room)
  {
    hide Inv, Reaches, Fits;
    var x := s.ahead[0];
    assert Listable(c, s.st, x);
    InvParts(c, os, s);
    Advance(c, os, m, s0, s, Visit);
    t := Moved(c, s, Visit);
    if !Raised(s.st, x.b) {
      FreeAfterMap(s.st, x.b, x.a);
    }
  }

  /** The pass visits `k` fragments that do not reach block `b`: they lie elsewhere, or the
      block is being discarded. */
  lemma VisitPast(c: Config, os: seq<Outside>, m: Arrivals, s0: Front, s: Front, b: nat, k: nat, room: nat)
    returns (t: Front)
    requires IsAt(c, os, m, s0, s) && Roomy(s, room) && k <= |s.ahead| && b < |s.st.blocks|
    requires Raised(s.st, b) || forall i :: 0 <= i < k ==> s.ahead[i].b != b
    ensures IsAt(c, os, m, s0, t) && Roomy(t, room) && t.ahead == s.ahead[k..] && t.log == s.log
    ensures |t.st.blocks| == |s.st.blocks| && t.st.blocks[b] == s.st.blocks[b]
    ensures Of(t.passed, b) == Of(s.passed, b) + Of(s.ahead[..k], b)
    decreases k
  {
    hide IsAt, CanMap, Next, Of, Moved, CanMove;
    if k == 0 {
      t := s;
      assert s.ahead[..0] == [];
      OfNone(b);
    } else {
      var n := VisitOne(c, os, m, s0, s, room);
      VisitElsewhere(c, s, b);
      t := VisitPast(c, os, m, s0, n, b, k - 1, room);
      assert n.ahead[k - 1..] == s.ahead[k..];
      OfFirst(s.ahead[..k], b);
      assert s.ahead[..k][1..] == n.ahead[..k - 1];
    }
  }

  lemma VisitElsewhere(c: Config, s: Front, b: nat)
    requires CanMove(c, s, Visit) && b < |s.st.blocks| && (Raised(s.st, b) || s.ahead[0].b != b)
    ensures var t := Moved(c, s, Visit);
            && t.ahead == s.ahead[1..] && t.log == s.log
            && |t.st.blocks| == |s.st.blocks| && t.st.blocks[b] == s.st.blocks[b]
            && Of(t.passed, b) == Of(s.passed, b) + if s.ahead[0].b == b then [s.ahead[0].a] else []
  {
    hide Next, CanMap;
    var x := s.ahead[0];
    if Raised(s.st, x.b) {
      OfConcat(s.passed, [x], b);
      OfFirst([x], b);
      assert [x][1..] == [];
    } else {
      CanMapEnabled(c, s.st, x);
      EventOnBlock(c, s.st, Map(x.b, x.a), b);
    }
  }

  /* ---- a block runs until it has nothing to do ---- */

  lemma TouchedLonger(keys: seq<nat>, k: nat)
    requires Distinct(keys)
    ensures |Touched(keys, k)| >= |keys|
  {
    if k in keys {
      var i :| 0 <= i < |keys| && keys[i] == k;
      WithoutAt(keys, i);
    } else {
      WithoutAbsent(keys, k);
    }
  }

  lemma FreeAfterRun(c: Config, st: State, b: nat)
    requires Enabled(c, st, Run(b)) && Distinct(st.free)
    ensures |Next(c, st, Run(b)).free| >= |st.free|
  {
    hide Compile, Perform, Touched;
    if st.blocks[b].jobs[0].entry.At? {
      TouchedLonger(st.free, st.blocks[b].jobs[0].entry.e);
    }
  }

  ghost predicate SameList(s: Front, t: Front) {
    t.passed == s.passed && t.ahead == s.ahead && t.log == s.log
  }

  lemma RunOne(c: Config, os: seq<Outside>, m: Arrivals, s0: Front, s: Front, b: nat, room: nat) returns (t: Front)
    requires IsAt(c, os, m, s0, s) && Roomy(s, room) && b < |s.st.blocks| && s.st.blocks[b].jobs != []
    ensures IsAt(c, os, m, s0, t) && Roomy(t, room) && SameList(s, t) && |t.st.blocks| == |s.st.blocks|
    ensures var blk, now := s.st.blocks[b], t.st.blocks[b];
            && now.hist == blk.hist
            && (|now.jobs| < |blk.jobs| ||
                (now.jobs == blk.jobs && blk.pc < now.pc < |Compile(c, blk.jobs[0])|))
  {
    hide Owned, BlkOk, Reaches, Compile, Perform, Fits, Loc;
    RunIsReady(c, os, s.st, b);
    ReadyParts(c, s.st, b);
    InvParts(c, os, s);
    Advance(c, os, m, s0, s, Work(b));
    t := Moved(c, s, Work(b));
    FreeAfterRun(c, s.st, b);
  }

  lemma IdleIsDown(c: Config, os: seq<Outside>, s: Front, b: nat)
    requires ListInv(c, os, s) && b < |s.st.blocks| && s.st.blocks[b].jobs == []
    ensures !s.st.blocks[b].discarding && s.st.blocks[b].pc == 0
  {
    hide Rests, Soon;
    OwnedIsSized(s.st);
    assert BlkOk(c, s.st.blocks[b], Loc(s.st, b), os[b]);
  }

  lemma RunToIdle(c: Config, os: seq<Outside>, m: Arrivals, s0: Front, s: Front, b: nat, room: nat) returns (t: Front)
    requires IsAt(c, os, m, s0, s) && Roomy(s, room) && b < |s.st.blocks|
    ensures IsAt(c, os, m, s0, t) && Roomy(t, room) && SameList(s, t) && |t.st.blocks| == |s.st.blocks|
    ensures t.st.blocks[b].hist == s.st.blocks[b].hist
    ensures t.st.blocks[b].jobs == [] && !t.st.blocks[b].discarding && t.st.blocks[b].pc == 0
    decreases |s.st.blocks[b].jobs|,
              var blk := s.st.blocks[b]; if blk.jobs == [] then 0 else |Compile(c, blk.jobs[0])| - blk.pc
  {
    hide ListInv, Reaches, Compile;
    if s.st.blocks[b].jobs == [] {
      IdleIsDown(c, os, s, b);
      t := s;
    } else {
      var n := RunOne(c, os, m, s0, s, b, room);
      t := RunToIdle(c, os, m, s0, n, b, room);
    }
  }

  /* ---- overtaking ---- */

  lemma {:induction false} OfOne(items: seq<Item>, j: nat)
    requires ApartItems(items) && j < |items|
    ensures Of(items, items[j].b) == [items[j].a]
  {
    var b, k := items[j].b, |items| - 1;
    OfApart(items[..k], b);
    if j < k {
      OfOne(items[..k], j);
    }
  }

  /** A request arrives for a block that is being discarded while an older one is held: the
      flag can fall during the pass, and then the newer one is mapped first. */
  lemma Overtakes(c: Config, os: seq<Outside>, m: Arrivals, s0: Front, s: Front, held: seq<Item>, items: seq<Item>,
                  j: nat, room: nat)
    returns (t: Front)
    requires IsAt(c, os, m, s0, s) && s.passed == [] && s.ahead == held + items && Roomy(s, room)
    requires ApartItems(items) && j < |items| && Raised(s.st, items[j].b)
    ensures IsAt(c, os, m, s0, t) && Roomy(t, room) && t.ahead == items[j + 1..] && t.log == s.log
    ensures var x := items[j];
            && |t.st.blocks| == |s.st.blocks|
            && t.st.blocks[x.b].hist == s.st.blocks[x.b].hist + [x.a] && Of(t.passed, x.b) == Of(held, x.b)
  {
    hide IsAt, CanMap, Next, Of;
    var x := items[j];
    var p := VisitPast(c, os, m, s0, s, x.b, |held|, room);
    assert s.ahead[..|held|] == held && p.ahead == items;
    OfNone(x.b);
    var q := RunToIdle(c, os, m, s0, p, x.b, room);
    var r := VisitPast(c, os, m, s0, q, x.b, j, room);
    OfApart(items[..j], x.b);
    assert r.ahead[0] == x;
    t := VisitOne(c, os, m, s0, r, room);
    CanMapEnabled(c, r.st, x);
    EventOnBlock(c, r.st, Map(x.b, x.a), x.b);
    assert items[j..][1..] == items[j + 1..];
  }

  lemma OvertakenIsOutOfOrder(s: Front, t: Front, items: seq<Item>, j: nat)
    requires s.ahead == [] && ApartItems(items) && j < |items| && items[j].b < |s.st.blocks| == |t.st.blocks|
    requires Orderly(s, items[j].b) && Of(s.passed, items[j].b) != [] && items[j].a !in Of(s.passed, items[j].b)
    requires t.log == s.log + items
    requires t.st.blocks[items[j].b].hist == s.st.blocks[items[j].b].hist + [items[j].a]
    ensures !InOrder(t, items[j].b)
  {
    hide Of;
    var x := items[j];
    var h := s.st.blocks[x.b].hist;
    OfNone(x.b);
    OfOne(items, j);
    OfConcat(s.log, items, x.b);
    assert Of(t.log, x.b)[|h|] == Of(s.passed, x.b)[0];
    assert t.st.blocks[x.b].hist[|h|] == x.a;
  }

  /** Between passes, with a free entry for every fragment: the requests that now arrive are
      mapped behind the older ones of their blocks in every interleaving, if and only if none
      of them finds its block being discarded and an older one of it held. */
  lemma OrderKeptIff(c: Config, os: seq<Outside>, s: Front, items: seq<Item>)
    requires ListInv(c, os, s) && AllOrderly(s) && CanMove(c, s, Come(items))
    requires |s.st.free| >= |s.passed| + |items|
    requires forall i :: 0 <= i < |items| ==> items[i].a !in Of(s.passed, items[i].b)
    ensures (forall t, b :: Reaches(c, Quiet, Moved(c, s, Come(items)), t) && 0 <= b < |t.st.blocks| ==> InOrder(t, b))
            <==> Waited(s, items)
  {
    hide Inv, Orderly, Of, InOrder, Leads;
    var n := Moved(c, s, Come(items));
    MoveKeepsInv(c, os, s, Come(items));
    if Waited(s, items) {
      AllStayOrderly(c, s, Come(items));
      forall t, b | Reaches(c, Quiet, n, t) && 0 <= b < |t.st.blocks| ensures InOrder(t, b) {
        var es :| Leads(c, Quiet, n, es, t);
        LeadsKeepsOrder(c, Quiet, n, es, t);
        OrderlyIsInOrder(t, b);
      }
    } else {
      var j :| 0 <= j < |items| && Raised(s.st, items[j].b) && Of(s.passed, items[j].b) != [];
      NowAt(c, os, Quiet, n);
      var t := Overtakes(c, os, Quiet, n, n, s.passed, items, j, 0);
      OvertakenIsOutOfOrder(s, t, items, j);
    }
  }

  /* ---- an older write wins ---- */

  lemma ComeOne(c: Config, os: seq<Outside>, s0: Front, s: Front, x: Item, room: nat) returns (t: Front)
    requires IsAt(c, os, Any, s0, s) && s.ahead == [] && Listable(c, s.st, x) && Roomy(s, room + |s.passed| + 1)
    ensures t == Front(s.st, [], s.passed + [x], s.log + [x]) && IsAt(c, os, Any, s0, t) && Roomy(t, room)
  {
    hide IsAt, Fits;
    Advance(c, os, Any, s0, s, Come([x]));
    t := Moved(c, s, Come([x]));
  }

  lemma VisitRaised(c: Config, os: seq<Outside>, s0: Front, s: Front, room: nat) returns (t: Front)
    requires IsAt(c, os, Any, s0, s) && s.ahead != [] && Roomy(s, room) && Raised(s.st, s.ahead[0].b)
    ensures t == Front(s.st, s.passed + [s.ahead[0]], s.ahead[1..], s.log) && IsAt(c, os, Any, s0, t) && Roomy(t, room)
  {
    hide IsAt, CanMap, Next;
    t := VisitOne(c, os, Any, s0, s, room);
  }

  lemma VisitLowered(c: Config, os: seq<Outside>, s0: Front, s: Front, room: nat) returns (t: Front)
    requires IsAt(c, os, Any, s0, s) && s.ahead != [] && Roomy(s, room) && !Raised(s.st, s.ahead[0].b)
    ensures IsAt(c, os, Any, s0, t) && Roomy(t, room) && t == s.(st := t.st, ahead := s.ahead[1..])
    ensures var x := s.ahead[0];
            && x.b < |t.st.blocks| == |s.st.blocks|
            && t.st.blocks[x.b].hist == s.st.blocks[x.b].hist + [x.a]
            && (t.st.blocks[x.b].discarding <==> x.a.io == Discard || (x.a.io == Demote && s.st.blocks[x.b].entry.At?))
            && (x.a.io == Write ==> t.st.blocks[x.b].entry.At?)
  {
    hide IsAt;
    t := VisitOne(c, os, Any, s0, s, room);
  }

  /** A write that brings a block into the cache, the demote of that block, two more writes, and
      a read of the whole block. */
  ghost predicate FiveAsks(c: Config, w0: Ask, d: Ask, w1: Ask, w2: Ask, r: Ask) {
    && ConfigOk(c) && Fits(c, w0) && Fits(c, d) && Fits(c, w1) && Fits(c, w2) && Fits(c, r)
    && w0.io == w1.io == w2.io == Write && d.io == Demote && r.io == Read && r.f.offset == 0 && r.f.size == c.bs
  }

  /** The first two requests are mapped. */
  lemma Demoted(c: Config, os: seq<Outside>, s: Front, b: nat, w0: Ask, d: Ask) returns (t: Front)
    requires Begins(c, os, s) && b < |s.st.blocks| && |s.st.free| >= 7 && w0.io == Write && d.io == Demote
    requires Fits(c, w0) && Fits(c, d)
    ensures IsAt(c, os, Any, s, t) && Roomy(t, 5) && t.passed == [] && t.ahead == []
    ensures t.log == [Item(b, w0), Item(b, d)]
    ensures b < |t.st.blocks| && t.st.blocks[b].hist == [w0, d] && t.st.blocks[b].discarding
  {
    hide IsAt, Fits, Inv, Tidy, Filled, Owned, Loc, Of;
    BeginIsOrderly(c, os, s);
    NowAt(c, os, Any, s);
    StartsLowered(c, os, s.st, b);
    t := ComeOne(c, os, s, s, Item(b, w0), 6);
    t := VisitLowered(c, os, s, t, 6);
    t := ComeOne(c, os, s, t, Item(b, d), 5);
    t := VisitLowered(c, os, s, t, 5);
  }

  /** The second write arrives while the demote holds the first one back, and the flag falls
      between the two visits. */
  lemma SecondFirst(c: Config, os: seq<Outside>, s: Front, b: nat, w0: Ask, d: Ask, w1: Ask, w2: Ask) returns (t: Front)
    requires Begins(c, os, s) && b < |s.st.blocks| && |s.st.free| >= 7 && w0.io == w1.io == w2.io == Write
    requires d.io == Demote && Fits(c, w0) && Fits(c, d) && Fits(c, w1) && Fits(c, w2)
    ensures IsAt(c, os, Any, s, t) && Roomy(t, 2) && t.passed == [Item(b, w1)] && t.ahead == []
    ensures t.log == [Item(b, w0), Item(b, d), Item(b, w1), Item(b, w2)]
    ensures b < |t.st.blocks| && t.st.blocks[b].hist == [w0, d, w2] && !t.st.blocks[b].discarding
  {
    hide IsAt, Fits, Begins, Of;
    t := Demoted(c, os, s, b, w0, d);
    t := ComeOne(c, os, s, t, Item(b, w1), 4);
    t := VisitRaised(c, os, s, t, 4);
    t := ComeOne(c, os, s, t, Item(b, w2), 2);
    t := VisitRaised(c, os, s, t, 2);
    t := RunToIdle(c, os, Any, s, t, b, 2);
    t := VisitLowered(c, os, s, t, 2);
  }

  lemma StartsLowered(c: Config, os: seq<Outside>, st: State, b: nat)
    requires Starts(c, os, st) && b < |st.blocks|
    ensures !st.blocks[b].discarding && st.blocks[b].hist == []
  {
    hide Tidy, Filled, Seen;
    OwnedIsSized(st);
    assert StartsAt(c, st.blocks[b], Loc(st, b), os[b]);
  }

  lemma LastOfFive(c: Config, was: seq<Byte>, w0: Ask, d: Ask, w1: Ask, w2: Ask, r: Ask)
    requires FiveAsks(c, w0, d, w1, w2, r)
    ensures LastWrite(c, was, [w0, d, w1, w2, r]) == w2.bytes
    ensures Answers(c, was, [w0, d, w1, w2, r]) == [Reading(r.rid, r.f, w2.bytes)]
  {
    hide Answers;
    NoAnswer(c, was, [], w0);
    NoAnswer(c, was, [w0], d);
    NoAnswer(c, was, [w0, d], w1);
    NoAnswer(c, was, [w0, d, w1], w2);
    assert [] + [w0] == [w0] && [w0] + [d] == [w0, d] && [w0, d] + [w1] == [w0, d, w1];
    assert [w0, d, w1] + [w2] == [w0, d, w1, w2];
    AnswerLast(c, was, [w0, d, w1, w2], r);
    assert [w0, d, w1, w2] + [r] == [w0, d, w1, w2, r] && [w0, d, w1, w2, r][..4] == [w0, d, w1, w2];
    assert w2.bytes[0..c.bs] == w2.bytes;
  }

  lemma NoAnswer(c: Config, was: seq<Byte>, h: seq<Ask>, a: Ask)
    requires a.io != Read
    ensures Answers(c, was, h + [a]) == Answers(c, was, h) && Answers(c, was, []) == []
  {
    assert (h + [a])[..|h|] == h;
  }

  lemma AnswerLast(c: Config, was: seq<Byte>, h: seq<Ask>, a: Ask)
    requires a.io == Read && a.f.offset + a.f.size <= |LastWrite(c, was, h)|
    ensures Answers(c, was, h + [a]) ==
            Answers(c, was, h) + [Reading(a.rid, a.f, LastWrite(c, was, h)[a.f.offset..a.f.offset + a.f.size])]
  {
    hide LastWrite;
    var g := h + [a];
    assert g[..|g| - 1] == h && g[|g| - 1] == a;
  }

  lemma OfItem(x: Item)
    ensures Of([x], x.b) == [x.a]
  {
    OfFirst([x], x.b);
    assert [x][1..] == [];
  }

  lemma OfFive(b: nat, w0: Ask, d: Ask, w1: Ask, w2: Ask, r: Ask)
    ensures Of([Item(b, w0), Item(b, d), Item(b, w1), Item(b, w2), Item(b, r)], b) == [w0, d, w1, w2, r]
  {
    hide Of;
    OfConcat([Item(b, w0)], [Item(b, d)], b);
    OfConcat([Item(b, w0)] + [Item(b, d)], [Item(b, w1)], b);
    OfConcat([Item(b, w0)] + [Item(b, d)] + [Item(b, w1)], [Item(b, w2)], b);
    OfConcat([Item(b, w0)] + [Item(b, d)] + [Item(b, w1)] + [Item(b, w2)], [Item(b, r)], b);
    OfItem(Item(b, w0));
    OfItem(Item(b, d));
    OfItem(Item(b, w1));
    OfItem(Item(b, w2));
    OfItem(Item(b, r));
    assert [Item(b, w0)] + [Item(b, d)] + [Item(b, w1)] + [Item(b, w2)] + [Item(b, r)] ==
           [Item(b, w0), Item(b, d), Item(b, w1), Item(b, w2), Item(b, r)];
  }

  /** Write `w1` arrives before write `w2` of the same block, and a read after both.  There is a
      run that ends, all done, with `w1` in the block and in the answer to the read; in arrival
      order both would be `w2`. */
  lemma OlderWriteWins(c: Config, os: seq<Outside>, s: Front, b: nat, w0: Ask, d: Ask, w1: Ask, w2: Ask, r: Ask)
    returns (t: Front)
    requires Begins(c, os, s) && b < |s.st.blocks| && |s.st.free| >= 7 && FiveAsks(c, w0, d, w1, w2, r)
    ensures IsAt(c, os, Any, s, t) && t.passed == [] && t.ahead == [] && b < |t.st.blocks|
    ensures t.st.blocks[b].jobs == [] && Of(t.log, b) == [w0, d, w1, w2, r]
    ensures View(Loc(t.st, b)) == w1.bytes && LastWrite(c, os[b].bytes, Of(t.log, b)) == w2.bytes
    ensures Loc(t.st, b).out == os[b].out + [Reading(r.rid, r.f, w1.bytes)]
    ensures Answers(c, os[b].bytes, Of(t.log, b)) == [Reading(r.rid, r.f, w2.bytes)]
  {
    hide IsAt, Fits, BlkOk, Owned, Starts, Of, LastWrite, Answers, View, Loc;
    t := SecondFirst(c, os, s, b, w0, d, w1, w2);
    t := ComeOne(c, os, s, t, Item(b, r), 0);
    t := VisitLowered(c, os, s, t, 0);
    t := VisitLowered(c, os, s, t, 0);
    t := RunToIdle(c, os, Any, s, t, b, 0);
    AtIsInv(c, os, Any, s, t);
    OfFive(b, w0, d, w1, w2, r);
    assert t.log == [Item(b, w0), Item(b, d), Item(b, w1), Item(b, w2), Item(b, r)];
    LastOfFive(c, os[b].bytes, w0, d, w1, w2, r);
    LastOfFive(c, os[b].bytes, w0, d, w2, w1, r);
    HoldsLastWrite(c, os, t.st, b);
    assert t.st.blocks[b].hist[..Done(t.st.blocks[b])] == [w0, d, w2, w1, r];
  }

  lemma AtIsInv(c: Config, os: seq<Outside>, m: Arrivals, s0: Front, s: Front)
    requires IsAt(c, os, m, s0, s)
    ensures Inv(c, os, s.st)
  {
  }
}
