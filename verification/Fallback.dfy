/** The local retries of `crush_choose_firstn`, and its fallback search, which is exhaustive in a
    flat bucket. */
module Fallback {
  import opened CrushMaps
  import opened CrushTypes
  import opened Firstn

  /** Only devices of the map, and the query wants a device. */
  ghost predicate Flat(c: Context, q: Query) {
    && Asks(c, q) && q.kind == 0 && !q.leafMode
    && forall k :: k in q.top.items ==> 0 <= k < c.m.maxDevices
  }

  ghost predicate Acceptable(c: Context, q: Query, item: int) {
    item >= 0 && item !in q.chosen && !IsOut(c, item)
  }

  /** In a flat bucket a draw is taken exactly when it is acceptable. */
  lemma FlatJudge(c: Context, t: Tune, q: Query, r: nat, flocal: nat)
    requires Flat(c, q) && q.top.items != []
    ensures var item := Draw(c, t, q.top, r, flocal, |q.chosen|);
            Judge(c, t, q, q.top, r, flocal) ==
            if Acceptable(c, q, item) then Take(Pick(item, item)) else Miss(item in q.chosen)
  {
  }

  /** If the permutation offers an acceptable item at local failure count `v`, within the
      fallback's reach, the search succeeds at `v` or before. */
  lemma {:induction false} ReachesOffer(c: Context, t: Tune, q: Query, base: nat, ftotal: nat, flocal: nat, v: nat)
    requires Flat(c, q) && q.top.items != []
    requires t.fallback > 0 && |q.top.items| / 2 <= t.fallback + 1
    requires flocal <= v && t.fallback < v <= |q.top.items| + t.fallback
    requires Acceptable(c, q, Perm.PermItem(c.o, q.top, c.x, base + ftotal + (v - flocal)))
    ensures Search(c, t, q, q.top, base, ftotal, flocal).Some?
    decreases v - flocal
  {
    FlatJudge(c, t, q, base + ftotal, flocal);
    var item := Draw(c, t, q.top, base + ftotal, flocal, |q.chosen|);
    if !Acceptable(c, q, item) {
      assert flocal < v;
      assert base + (ftotal + 1) + (v - (flocal + 1)) == base + ftotal + (v - flocal);
      ReachesOffer(c, t, q, base, ftotal + 1, flocal + 1, v);
    }
  }

  /** If some device of the bucket is neither chosen already nor out, the slot is filled,
      whatever the hash values. */
  lemma SlotNeverSkipped(c: Context, t: Tune, q: Query, base: nat, item: int)
    requires Flat(c, q) && item in q.top.items && Acceptable(c, q, item)
    requires t.fallback > 0 && |q.top.items| / 2 <= t.fallback + 1
    ensures Search(c, t, q, q.top, base, 0, 0).Some?
  {
    var b := q.top;
    var slot :| 0 <= slot < |b.items| && b.items[slot] == item;
    Perm.PermVisitsEverySlotOnce(c.o, b, c.x, base + t.fallback + 1, slot);
    var r: nat :| base + t.fallback + 1 <= r < base + t.fallback + 1 + |b.items| &&
                  Perm.PermSlot(c.o, b, c.x, r) == slot;
    ReachesOffer(c, t, q, base, 0, 0, r - base);
  }

  /** So the loop over slots fills as many places as there are acceptable devices, up to
      the number asked for: it stops short only when it has run out of devices. */
  lemma {:induction false} FillsWhileDevicesRemain(c: Context, t: Tune, q: Query, numrep: int, rep: nat, count: nat,
                                                   parentR: nat)
    requires Flat(c, q)
    requires t.fallback > 0 && |q.top.items| / 2 <= t.fallback + 1
    ensures var e := Collect(c, t, q, numrep, rep, count, parentR);
            || |e.chosen| - |q.chosen| == count
            || |e.chosen| - |q.chosen| == (if numrep > rep then numrep - rep else 0)
            || forall k :: k in q.top.items ==> !Acceptable(c, e, k)
    decreases if numrep > rep then numrep - rep else 0
  {
    if rep < numrep && count > 0 {
      if k :| k in q.top.items && Acceptable(c, q, k) {
        SlotNeverSkipped(c, t, q, rep + parentR, k);
        var p := Search(c, t, q, q.top, rep + parentR, 0, 0).value;
        FillsWhileDevicesRemain(c, t, Extend(q, p), numrep, rep + 1, count - 1, parentR);
      } else {
        Exhausted(c, t, q, numrep, rep, count, parentR);
      }
    }
  }

  lemma {:induction false} Exhausted(c: Context, t: Tune, q: Query, numrep: int, rep: nat, count: nat, parentR: nat)
    requires Flat(c, q) && forall k :: k in q.top.items ==> !Acceptable(c, q, k)
    ensures var e := Collect(c, t, q, numrep, rep, count, parentR);
            forall k :: k in q.top.items ==> !Acceptable(c, e, k)
    decreases if numrep > rep then numrep - rep else 0
  {
    if rep < numrep && count > 0 {
      match Search(c, t, q, q.top, rep + parentR, 0, 0)
      case None => Exhausted(c, t, q, numrep, rep + 1, count, parentR);
      case Some(p) => Exhausted(c, t, Extend(q, p), numrep, rep + 1, count - 1, parentR);
    }
  }

  /* ---- the order of its draws ---- */

  /** The item offered after `v` local failures: the bucket's own draws first, then the items of
      its permutation, from rank to rank. */
  ghost function Offer(c: Context, t: Tune, q: Query, rank: nat, v: nat): int
    requires Flat(c, q) && q.top.items != []
  {
    if v <= t.fallback || v < |q.top.items| / 2 then BucketChoose(c, q.top, rank + v, |q.chosen|)
    else Perm.PermItem(c.o, q.top, c.x, rank + v)
  }

  ghost predicate NoneOffered(c: Context, t: Tune, q: Query, rank: nat, n: nat)
    requires Flat(c, q) && q.top.items != []
  {
    forall v :: 0 <= v < n ==> !Acceptable(c, q, Offer(c, t, q, rank, v))
  }

  lemma {:induction false} StaysForFallback(c: Context, t: Tune, q: Query, base: nat, ftotal: nat, k: nat)
    requires Flat(c, q) && q.top.items != [] && t.fallback > 0 && k <= |q.top.items| + t.fallback
    requires NoneOffered(c, t, q, base + ftotal, k)
    ensures Search(c, t, q, q.top, base, ftotal, 0) == Search(c, t, q, q.top, base, ftotal + k, k)
  {
    if k > 0 {
      StaysForFallback(c, t, q, base, ftotal, k - 1);
      FlatJudge(c, t, q, base + ftotal + (k - 1), k - 1);
      assert !Acceptable(c, q, Offer(c, t, q, base + ftotal, k - 1));
    }
  }

  /** The first acceptable offer is taken. */
  lemma FirstOfferTaken(c: Context, t: Tune, q: Query, base: nat, ftotal: nat, v: nat)
    requires Flat(c, q) && q.top.items != [] && t.fallback > 0 && v <= |q.top.items| + t.fallback
    requires NoneOffered(c, t, q, base + ftotal, v) && Acceptable(c, q, Offer(c, t, q, base + ftotal, v))
    ensures var item := Offer(c, t, q, base + ftotal, v);
            Search(c, t, q, q.top, base, ftotal, 0) == Some(Pick(item, item))
  {
    StaysForFallback(c, t, q, base, ftotal, v);
    FlatJudge(c, t, q, base + ftotal + v, v);
  }

  /** Without one, the search starts over after `|items| + fallback + 1` draws, or gives up. */
  lemma NoOfferStartsOver(c: Context, t: Tune, q: Query, base: nat, ftotal: nat)
    requires Flat(c, q) && q.top.items != [] && t.fallback > 0
    requires NoneOffered(c, t, q, base + ftotal, |q.top.items| + t.fallback + 1)
    requires t.localRetries <= |q.top.items| + t.fallback
    ensures var next := ftotal + |q.top.items| + t.fallback + 1;
            Search(c, t, q, q.top, base, ftotal, 0) ==
            if next < t.tries then Search(c, t, q, q.top, base, next, 0) else None
  {
    var k := |q.top.items| + t.fallback;
    StaysForFallback(c, t, q, base, ftotal, k);
    FlatJudge(c, t, q, base + ftotal + k, k);
    assert !Acceptable(c, q, Offer(c, t, q, base + ftotal, k));
  }

  /* ---- local retries, without the fallback ---- */

  /** The draw at this rank is of the wanted type and chosen already. */
  ghost predicate Collides(c: Context, q: Query, b: Bucket, r: nat)
    requires Asks(c, q) && InMap(c.m, b)
  {
    && b.items != [] && BucketChoose(c, b, r, |q.chosen|) in q.chosen
    && var item := BucketChoose(c, b, r, |q.chosen|);
       item < c.m.maxDevices && (item < 0 ==> Has(c.m, item)) && KindOf(c.m, item) == q.kind
  }

  ghost predicate CollideFrom(c: Context, q: Query, b: Bucket, r: nat, k: nat)
    requires Asks(c, q) && InMap(c.m, b)
  {
    forall i :: r <= i < r + k ==> Collides(c, q, b, i)
  }

  /** Collisions keep the search in the bucket, one rank further each time. */
  lemma {:induction false} StaysInBucket(c: Context, t: Tune, q: Query, b: Bucket, base: nat, ftotal: nat, k: nat)
    requires Asks(c, q) && InMap(c.m, b) && t.fallback == 0 && k <= t.localRetries
    requires CollideFrom(c, q, b, base + ftotal, k)
    ensures Search(c, t, q, b, base, ftotal, 0) == Search(c, t, q, b, base, ftotal + k, k)
  {
    if k > 0 {
      StaysInBucket(c, t, q, b, base, ftotal, k - 1);
      assert Collides(c, q, b, base + ftotal + k - 1);
    }
  }

  /** A bucket that offers only chosen items is drawn from at `localRetries + 1` successive
      ranks; then the search starts over from the top, or has used up its tries. */
  lemma LeavesBucketAfterRetries(c: Context, t: Tune, q: Query, b: Bucket, base: nat, ftotal: nat)
    requires Asks(c, q) && InMap(c.m, b) && t.fallback == 0
    requires CollideFrom(c, q, b, base + ftotal, t.localRetries + 1)
    ensures var next := ftotal + t.localRetries + 1;
            Search(c, t, q, b, base, ftotal, 0) ==
            if next < t.tries then Search(c, t, q, q.top, base, next, 0) else None
  {
    StaysInBucket(c, t, q, b, base, ftotal, t.localRetries);
    assert Collides(c, q, b, base + ftotal + t.localRetries);
  }

  lemma TakesFresh(c: Context, t: Tune, q: Query, b: Bucket, r: nat, flocal: nat)
    requires Asks(c, q) && InMap(c.m, b) && t.fallback == 0 && q.kind == 0 && b.items != []
    requires var item := BucketChoose(c, b, r, |q.chosen|); item < c.m.maxDevices && Acceptable(c, q, item)
    ensures var item := BucketChoose(c, b, r, |q.chosen|); Judge(c, t, q, b, r, flocal) == Take(Pick(item, item))
  {
    hide Search, BucketChoose, IsOut;
    assert Draw(c, t, b, r, flocal, |q.chosen|) == BucketChoose(c, b, r, |q.chosen|);
  }

  /** And a device that is neither chosen nor out is taken at any of them. */
  lemma TakenWithinRetries(c: Context, t: Tune, q: Query, b: Bucket, base: nat, ftotal: nat, k: nat)
    requires Asks(c, q) && InMap(c.m, b) && t.fallback == 0 && k <= t.localRetries && q.kind == 0
    requires CollideFrom(c, q, b, base + ftotal, k) && b.items != []
    requires var item := BucketChoose(c, b, base + ftotal + k, |q.chosen|);
             item < c.m.maxDevices && Acceptable(c, q, item)
    ensures var item := BucketChoose(c, b, base + ftotal + k, |q.chosen|);
            Search(c, t, q, b, base, ftotal, 0) == Some(Pick(item, item))
  {
    hide Judge, BucketChoose;
    StaysInBucket(c, t, q, b, base, ftotal, k);
    TakesFresh(c, t, q, b, base + ftotal + k, k);
  }
}
