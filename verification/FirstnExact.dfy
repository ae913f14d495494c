/** Exactly what `crush_choose_firstn` takes when it neither retries in a bucket nor falls back to
    the permutation, stated over the draws of the buckets: each slot gets the first rank of its
    window that draws something it may take. */
module FirstnExact {
  import opened CrushTypes
  import opened CrushMaps
  import opened Firstn

  /** Where a way down at one rank ends: on an item of the kind asked for, in an empty bucket, or
      on something that ends the search for the slot. */
  datatype Fall = On(item: int) | Empty | Astray

  /** From bucket to bucket by the draws at rank `r`, until the kind is right. */
  ghost function Falls(c: Context, b: Bucket, kind: int, r: nat, position: nat): (f: Fall)
    requires Ok(c) && InMap(c.m, b)
    ensures f.On? && f.item < 0 ==> Has(c.m, f.item)
    decreases Rank(c.m, b)
  {
    if b.items == [] then Empty
    else
      var item := BucketChoose(c, b, r, position);
      if item >= c.m.maxDevices then Astray
      else if item >= 0 then if kind == 0 then On(item) else Astray
      else if Get(c.m, item).kind == kind then On(item)
      else Falls(c, Get(c.m, item), kind, r, position)
  }

  function PowerOfTwo(n: nat): (p: nat)
    ensures p > 0
  {
    if n == 0 then 1 else 2 * PowerOfTwo(n - 1)
  }

  /** At least one try is made. */
  function Window(tries: nat): nat {
    if tries > 1 then tries else 1
  }

  function Over(r: nat, p: nat): nat
    requires p > 0
  {
    r / p
  }

  /** The first rank at which devices below an item are drawn. */
  function LeafFrom(t: Tune, r: nat, outpos: nat): nat {
    (if t.stable then 0 else outpos) + if t.varyR == 0 then 0 else Over(r, PowerOfTwo(t.varyR - 1))
  }

  /** Rank `r` gives a search without leaves this item: it is drawn, new and not out. */
  ghost predicate Gives(c: Context, top: Bucket, kind: int, taken: seq<int>, r: nat, item: int)
    requires Ok(c) && InMap(c.m, top)
  {
    && Falls(c, top, kind, r, |taken|) == On(item)
    && item !in taken && (item >= 0 ==> !IsOut(c, item))
  }

  /** Rank `r` decides nothing. */
  ghost predicate Passes(c: Context, top: Bucket, kind: int, taken: seq<int>, r: nat)
    requires Ok(c) && InMap(c.m, top)
  {
    Falls(c, top, kind, r, |taken|) != Astray && forall item :: !Gives(c, top, kind, taken, r, item)
  }

  ghost predicate GivesNone(c: Context, top: Bucket, kind: int, taken: seq<int>, from: nat, r: nat)
    requires Ok(c) && InMap(c.m, top)
  {
    forall s :: from <= s < r ==> Passes(c, top, kind, taken, s)
  }

  /** The first of the `n` ranks from `from` on that decides gives this item. */
  ghost predicate GivesFirst(c: Context, top: Bucket, kind: int, taken: seq<int>, from: nat, n: nat, item: int)
    requires Ok(c) && InMap(c.m, top)
  {
    exists r :: from <= r < from + n && Gives(c, top, kind, taken, r, item) && GivesNone(c, top, kind, taken, from, r)
  }

  /** Rank `r` gives the slot `p`: its item, and in leaf mode the device that a search below the
      item gives first. */
  ghost predicate Takes(c: Context, t: Tune, q: Query, r: nat, p: Pick)
    requires Asks(c, q)
  {
    && Gives(c, q.top, q.kind, q.chosen, r, p.item)
    && if !q.leafMode || p.item >= 0 then p.leaf == p.item
       else GivesFirst(c, Get(c.m, p.item), 0, q.leaves, LeafFrom(t, r, |q.chosen|), Window(t.recurseTries), p.leaf)
  }

  /** Rank `r` decides the slot. */
  ghost predicate Decides(c: Context, t: Tune, q: Query, r: nat)
    requires Asks(c, q)
  {
    Falls(c, q.top, q.kind, r, |q.chosen|) == Astray || exists p :: Takes(c, t, q, r, p)
  }

  ghost predicate NoneBefore(c: Context, t: Tune, q: Query, from: nat, r: nat)
    requires Asks(c, q)
  {
    forall s :: from <= s < r ==> !Decides(c, t, q, s)
  }

  /** Of the `n` ranks from `from` on, the first that decides gives `p`. */
  ghost predicate IsFirst(c: Context, t: Tune, q: Query, from: nat, n: nat, p: Pick)
    requires Asks(c, q)
  {
    exists r :: from <= r < from + n && Takes(c, t, q, r, p) && NoneBefore(c, t, q, from, r)
  }

  /* ---- the search is that ---- */

  ghost predicate NoRetries(t: Tune) {
    t.localRetries == 0 && t.fallback == 0
  }

  lemma {:induction false} ShiftIsDivision(r: nat, n: nat)
    ensures ShiftRight(r, n) == r / PowerOfTwo(n)
  {
    if n > 0 {
      ShiftIsDivision(r / 2, n - 1);
      HalfThenRest(r, PowerOfTwo(n - 1));
    }
  }

  lemma HalfThenRest(r: nat, p: nat)
    requires p > 0
    ensures r / 2 / p == r / (2 * p)
  {
    var a, b := r / 2 / p, r / (2 * p);
    assert r / 2 == p * a + r / 2 % p;
    assert r == 2 * p * b + r % (2 * p);
    assert 2 * p * a <= r < 2 * p * (a + 1) by {
      assert 2 * (p * a) == 2 * p * a && 2 * (p * (a + 1)) == 2 * p * (a + 1) && p * (a + 1) == p * a + p;
    }
    MultipleIsFar(2 * p, a - b);
    assert 2 * p * (a - b) == 2 * p * a - 2 * p * b;
  }

  lemma LeafRanksAgree(t: Tune, r: nat, outpos: nat)
    ensures LeafBase(t, r, outpos) == LeafFrom(t, r, outpos)
  {
    if t.varyR > 0 {
      ShiftIsDivision(r, t.varyR - 1);
    }
  }

  /** What the slot gets if nothing has decided it up to `ftotal` failures. */
  ghost function Onward(c: Context, t: Tune, q: Query, base: nat, ftotal: nat): Option<Pick>
    requires Asks(c, q)
  {
    if ftotal + 1 < t.tries then Search(c, t, q, q.top, base, ftotal + 1, 0) else None
  }

  /** One way down, from bucket `b` on. */
  lemma {:induction false} OneTry(c: Context, t: Tune, q: Query, b: Bucket, base: nat, ftotal: nat)
    requires Asks(c, q) && InMap(c.m, b) && NoRetries(t)
    ensures var r := base + ftotal;
            Search(c, t, q, b, base, ftotal, 0) ==
            match Falls(c, b, q.kind, r, |q.chosen|)
            case Empty => Onward(c, t, q, base, ftotal)
            case Astray => None
            case On(item) =>
              var leaf := if q.leafMode then LeafOf(c, t, q, item, r) else Some(item);
              if item in q.chosen || leaf == None || (item >= 0 && IsOut(c, item)) then Onward(c, t, q, base, ftotal)
              else Some(Pick(item, leaf.value))
    decreases Rank(c.m, b)
  {
    hide LeafOf;
    var r := base + ftotal;
    if b.items != [] {
      var item := BucketChoose(c, b, r, |q.chosen|);
      assert Draw(c, t, b, r, 0, |q.chosen|) == item;
      if item < 0 && Get(c.m, item).kind != q.kind && item < c.m.maxDevices {
        OneTry(c, t, q, Get(c.m, item), base, ftotal);
      }
    }
  }

  /** The search finds `p` exactly when `p` is the first in its window, and nothing exactly when
      there is no such thing. */
  lemma {:induction false} SearchIsFirst(c: Context, t: Tune, q: Query, base: nat, ftotal: nat)
    requires Asks(c, q) && NoRetries(t)
    ensures var found := Search(c, t, q, q.top, base, ftotal, 0);
            forall p :: found == Some(p) <==> IsFirst(c, t, q, base + ftotal, Left(t.tries, ftotal), p)
    decreases q.leafMode, 1, Slack(t.tries, ftotal)
  {
    hide Falls, LeafOf, Search;
    var r := base + ftotal;
    OneTry(c, t, q, q.top, base, ftotal);
    TakesIff(c, t, q, r);
    if ftotal + 1 < t.tries {
      SearchIsFirst(c, t, q, base, ftotal + 1);
    }
    var found := Search(c, t, q, q.top, base, ftotal, 0);
    forall p ensures found == Some(p) <==> IsFirst(c, t, q, r, Left(t.tries, ftotal), p) {
      FirstStep(c, t, q, r, Left(t.tries, ftotal), p);
    }
  }

  /** The tries left after `ftotal` failures, the one in hand included. */
  function Left(tries: nat, ftotal: nat): nat {
    if tries > ftotal + 1 then tries - ftotal else 1
  }

  /** The first of `n` ranks: this one, or the first of the rest. */
  lemma FirstStep(c: Context, t: Tune, q: Query, from: nat, n: nat, p: Pick)
    requires Asks(c, q) && n >= 1
    ensures IsFirst(c, t, q, from, n, p) <==>
            Takes(c, t, q, from, p) || (!Decides(c, t, q, from) && IsFirst(c, t, q, from + 1, n - 1, p))
  {
    hide Takes, Decides;
    if IsFirst(c, t, q, from, n, p) {
      var r :| from <= r < from + n && Takes(c, t, q, r, p) && NoneBefore(c, t, q, from, r);
      if r > from {
        assert !Decides(c, t, q, from) && NoneBefore(c, t, q, from + 1, r);
      }
    }
    if Takes(c, t, q, from, p) {
      assert NoneBefore(c, t, q, from, from);
    }
    if !Decides(c, t, q, from) && IsFirst(c, t, q, from + 1, n - 1, p) {
      var r :| from + 1 <= r < from + n && Takes(c, t, q, r, p) && NoneBefore(c, t, q, from + 1, r);
      assert NoneBefore(c, t, q, from, r);
    }
  }

  /** What a rank gives, in terms of the leaf search. */
  lemma {:induction false} TakesIff(c: Context, t: Tune, q: Query, r: nat)
    requires Asks(c, q) && NoRetries(t)
    ensures var f := Falls(c, q.top, q.kind, r, |q.chosen|);
            && (f.On? && f.item < 0 ==> Has(c.m, f.item))
            && forall p :: Takes(c, t, q, r, p) <==>
                 && f == On(p.item) && p.item !in q.chosen && (p.item >= 0 ==> !IsOut(c, p.item))
                 && (if q.leafMode then LeafOf(c, t, q, p.item, r) else Some(p.item)) == Some(p.leaf)
    decreases q.leafMode, 0
  {
    hide Falls, Search, GivesFirst;
    var f := Falls(c, q.top, q.kind, r, |q.chosen|);
    if q.leafMode && f.On? && f.item < 0 {
      var b, from, n := Get(c.m, f.item), LeafFrom(t, r, |q.chosen|), Window(t.recurseTries);
      var lq := Query(b, 0, false, q.leaves, []);
      LeafRanksAgree(t, r, |q.chosen|);
      SearchIsFirst(c, LeafTune(t), lq, from, 0);
      var found := Search(c, LeafTune(t), lq, b, from, 0, 0);
      forall leaf ensures GivesFirst(c, b, 0, q.leaves, from, n, leaf) <==> found == Some(Pick(leaf, leaf)) {
        WithoutLeaves(c, LeafTune(t), lq, from, n, leaf);
      }
      if found.Some? {
        OwnLeaf(c, LeafTune(t), lq, from, n, found.value);
      }
    }
  }

  /** A search without leaves, in either form. */
  lemma WithoutLeaves(c: Context, t: Tune, q: Query, from: nat, n: nat, item: int)
    requires Asks(c, q) && !q.leafMode
    ensures IsFirst(c, t, q, from, n, Pick(item, item)) <==> GivesFirst(c, q.top, q.kind, q.chosen, from, n, item)
  {
    hide Falls, Gives;
    forall s: nat ensures Decides(c, t, q, s) <==> !Passes(c, q.top, q.kind, q.chosen, s) {
      if k :| Gives(c, q.top, q.kind, q.chosen, s, k) {
        assert Takes(c, t, q, s, Pick(k, k));
      }
    }
    assert forall r: nat :: NoneBefore(c, t, q, from, r) <==> GivesNone(c, q.top, q.kind, q.chosen, from, r);
    assert forall r: nat :: Takes(c, t, q, r, Pick(item, item)) <==> Gives(c, q.top, q.kind, q.chosen, r, item);
  }

  lemma OwnLeaf(c: Context, t: Tune, q: Query, from: nat, n: nat, p: Pick)
    requires Asks(c, q) && !q.leafMode && IsFirst(c, t, q, from, n, p)
    ensures p.leaf == p.item
  {
    hide Falls;
  }

  /* ---- all slots ---- */

  /** From slot `rep` on, each slot takes the first of its window, as long as there is room. */
  ghost predicate Fills(c: Context, t: Tune, q: Query, numrep: int, rep: nat, room: nat, parentR: nat, e: Query)
    requires Asks(c, q)
    decreases if numrep > rep then numrep - rep else 0
  {
    if rep >= numrep || room == 0 then e == q
    else
      var from, n := rep + parentR, Window(t.tries);
      || (exists p :: IsFirst(c, t, q, from, n, p) && Fills(c, t, With(q, p), numrep, rep + 1, room - 1, parentR, e))
      || ((forall p :: !IsFirst(c, t, q, from, n, p)) && Fills(c, t, q, numrep, rep + 1, room, parentR, e))
  }

  ghost function With(q: Query, p: Pick): Query {
    q.(chosen := q.chosen + [p.item], leaves := if q.leafMode then q.leaves + [p.leaf] else q.leaves)
  }

  lemma FillsDone(c: Context, t: Tune, q: Query, numrep: int, rep: nat, room: nat, parentR: nat, e: Query)
    requires Asks(c, q) && Fills(c, t, q, numrep, rep, room, parentR, e) && (rep >= numrep || room == 0)
    ensures e == q
  {
    hide IsFirst, Window;
  }

  lemma FillsOne(c: Context, t: Tune, q: Query, numrep: int, rep: nat, room: nat, parentR: nat, e: Query, p: Pick,
                 from: nat)
    requires Asks(c, q) && Fills(c, t, q, numrep, rep, room, parentR, e) && rep < numrep && room > 0
    requires from == rep + parentR && forall o :: IsFirst(c, t, q, from, Window(t.tries), o) <==> o == p
    ensures Asks(c, With(q, p)) && Fills(c, t, With(q, p), numrep, rep + 1, room - 1, parentR, e)
  {
    hide IsFirst, Window;
    assert IsFirst(c, t, q, from, Window(t.tries), p);
  }

  lemma FillsGap(c: Context, t: Tune, q: Query, numrep: int, rep: nat, room: nat, parentR: nat, e: Query,
                 from: nat)
    requires Asks(c, q) && Fills(c, t, q, numrep, rep, room, parentR, e) && rep < numrep && room > 0
    requires from == rep + parentR && forall o :: !IsFirst(c, t, q, from, Window(t.tries), o)
    ensures Fills(c, t, q, numrep, rep + 1, room, parentR, e)
  {
    hide IsFirst, Window;
  }

  /** `crush_choose_firstn` without retries in the bucket fills its slots that way, on every map. */
  lemma {:induction false} FirstnFills(c: Context, t: Tune, q: Query, numrep: int, rep: nat, count: nat, parentR: nat)
    requires Asks(c, q) && NoRetries(t)
    ensures Fills(c, t, q, numrep, rep, count, parentR, Collect(c, t, q, numrep, rep, count, parentR))
    decreases if numrep > rep then numrep - rep else 0
  {
    hide Search, IsFirst;
    if rep < numrep && count > 0 {
      SearchIsFirst(c, t, q, rep + parentR, 0);
      assert Left(t.tries, 0) == Window(t.tries);
      match Search(c, t, q, q.top, rep + parentR, 0, 0)
      case None =>
        var from := rep + parentR;
        forall p ensures !IsFirst(c, t, q, from, Window(t.tries), p) {
          assert Search(c, t, q, q.top, rep + parentR, 0, 0) != Some(p);
        }
        FirstnFills(c, t, q, numrep, rep + 1, count, parentR);
      case Some(p) =>
        assert IsFirst(c, t, q, rep + parentR, Window(t.tries), p);
        FirstnFills(c, t, With(q, p), numrep, rep + 1, count - 1, parentR);
    }
  }
}
