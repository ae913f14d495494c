/** List buckets: prefix sums kept by the builder, and the chooser that walks them from
    the newest item down. */
module ListBuckets {
  import opened Basics
  import opened CrushTypes

  ghost predicate IsList(b: Bucket) {
    b.alg.List? && |b.alg.itemWeights| == |b.alg.sumWeights| == |b.items|
  }

  /** The documented invariant, in the inclusive form the code maintains. */
  ghost predicate ExactSums(b: Bucket)
    requires IsList(b)
  {
    forall i :: 0 <= i < |b.items| ==> b.alg.sumWeights[i] == Sum(b.alg.itemWeights[..i + 1])
  }

  /** 16 hash bits scaled into [0, sum of the items up to `i`). */
  function Scaled(o: Oracle, b: Bucket, x: int, r: int, i: nat): (w: nat)
    requires b.alg.List? && i < |b.items| && i < |b.alg.sumWeights|
  {
    ((o.h4(b.hash, x, b.items[i], r, b.id) % 0x10000) * b.alg.sumWeights[i]) / 0x10000
  }

  /** The slot found among the first `n`, newest first; `None` is the code's
      "bad list sums" exit. */
  ghost function ListSlot(o: Oracle, b: Bucket, x: int, r: int, n: nat): (s: Option<nat>)
    requires IsList(b) && n <= |b.items|
    ensures s.Some? ==> s.value < n
  {
    if n == 0 then None
    else if Scaled(o, b, x, r, n - 1) < b.alg.itemWeights[n - 1] then Some(n - 1)
    else ListSlot(o, b, x, r, n - 1)
  }

  ghost function ListItem(o: Oracle, b: Bucket, x: int, r: int): int
    requires IsList(b) && |b.items| > 0
  {
    var s := ListSlot(o, b, x, r, |b.items|);
    if s.Some? then b.items[s.value] else b.items[0]
  }

  /** `bucket_list_choose`. */
  method ListChoose(o: Oracle, b: Bucket, x: int, r: int) returns (item: int)
    requires IsList(b) && |b.items| > 0
    ensures item == ListItem(o, b, x, r)
  {
    var i := |b.items| - 1;
    while i >= 0
      invariant -1 <= i < |b.items|
      invariant ListSlot(o, b, x, r, i + 1) == ListSlot(o, b, x, r, |b.items|)
    {
      if Scaled(o, b, x, r, i) < b.alg.itemWeights[i] {
        return b.items[i];
      }
      i := i - 1;
    }
    return b.items[0];
  }

  /* ---- what a draw depends on ---- */

  /** A hash value draws a slot: its 16 bits, as a fraction of the sum, fall below the weight. */
  predicate Draws(h: int, sum: int, weight: int) {
    (h % 65536) * sum < 65536 * weight
  }

  /** The slot has weight, and no newer one takes it away whatever the hash: even the greatest
      hash value leaves each of them undrawn. */
  ghost predicate Reachable(b: Bucket, k: nat)
    requires IsList(b)
  {
    && k < |b.items| && b.alg.itemWeights[k] > 0
    && forall i :: k < i < |b.items| ==> !Draws(0xffff, b.alg.sumWeights[i], b.alg.itemWeights[i])
  }

  lemma ScaledIs(o: Oracle, b: Bucket, x: int, r: int, i: nat)
    requires IsList(b) && i < |b.items|
    ensures Scaled(o, b, x, r, i) < b.alg.itemWeights[i] <==>
            Draws(o.h4(b.hash, x, b.items[i], r, b.id), b.alg.sumWeights[i], b.alg.itemWeights[i])
  {
  }

  /** The newest slot that its hash value draws, and the items it depends on. */
  lemma {:induction false} SlotIsNewest(o: Oracle, b: Bucket, x: int, r: int, n: nat, k: nat)
    requires IsList(b) && n <= |b.items| && k < n
    ensures ListSlot(o, b, x, r, n) == Some(k) <==>
            && DrawsAt(o, b, x, r, k)
            && forall i :: k < i < n ==> !DrawsAt(o, b, x, r, i)
  {
    hide Scaled, Draws;
    ScaledIs(o, b, x, r, n - 1);
    assert DrawsAt(o, b, x, r, n - 1) <==> Scaled(o, b, x, r, n - 1) < b.alg.itemWeights[n - 1];
    if k < n - 1 {
      SlotIsNewest(o, b, x, r, n - 1, k);
    }
  }

  ghost predicate DrawsAt(o: Oracle, b: Bucket, x: int, r: int, i: nat)
    requires IsList(b) && i < |b.items|
  {
    Draws(o.h4(b.hash, x, b.items[i], r, b.id), b.alg.sumWeights[i], b.alg.itemWeights[i])
  }

  /** Whatever reachable slot is wanted for each hash kind, `x`, rank and bucket id, some hash draws
      it. */
  lemma EveryDraw(b: Bucket, f: (int, int, int, int) -> int) returns (o: Oracle)
    requires IsList(b) && Distinct(b.items)
    requires forall hash, x, r, id :: f(hash, x, r, id) >= 0 && Reachable(b, f(hash, x, r, id))
    ensures forall hash, x, r, id ::
              ListSlot(o, b.(hash := hash, id := id), x, r, |b.items|) == Some(f(hash, x, r, id))
  {
    o := Oracle((_, _) => 0, (_, _, _, _) => 0,
                (hash, x, item, r, id) =>
                  if 0 <= f(hash, x, r, id) < |b.items| && item == b.items[f(hash, x, r, id)] then 0 else 0xffff,
                _ => 0);
    forall hash, x, r, id
      ensures ListSlot(o, b.(hash := hash, id := id), x, r, |b.items|) == Some(f(hash, x, r, id))
    {
      var k, c := f(hash, x, r, id), b.(hash := hash, id := id);
      assert Reachable(b, k);
      SlotIsNewest(o, c, x, r, |b.items|, k);
      assert DrawsAt(o, c, x, r, k);
      forall i | k < i < |b.items| ensures !DrawsAt(o, c, x, r, i) {
        assert b.items[i] != b.items[k];
      }
    }
  }

  /** And no hash draws another. */
  lemma OnlyReachable(o: Oracle, b: Bucket, x: int, r: int)
    requires IsList(b)
    ensures var s := ListSlot(o, b, x, r, |b.items|); s.Some? ==> Reachable(b, s.value)
  {
    hide Draws, ListSlot;
    var s := ListSlot(o, b, x, r, |b.items|);
    if s.Some? {
      SlotIsNewest(o, b, x, r, |b.items|, s.value);
      forall i | s.value < i < |b.items| ensures !Draws(0xffff, b.alg.sumWeights[i], b.alg.itemWeights[i]) {
        assert !DrawsAt(o, b, x, r, i);
        GreatestHash(o.h4(b.hash, x, b.items[i], r, b.id), b.alg.sumWeights[i], b.alg.itemWeights[i]);
      }
      assert DrawsAt(o, b, x, r, s.value);
      GreatestHash(o.h4(b.hash, x, b.items[s.value], r, b.id), b.alg.sumWeights[s.value], b.alg.itemWeights[s.value]);
    }
  }

  /** What the greatest hash value draws, every one does, and without weight none does. */
  lemma GreatestHash(h: int, sum: nat, weight: nat)
    ensures Draws(0xffff, sum, weight) ==> Draws(h, sum, weight)
    ensures Draws(h, sum, weight) ==> weight > 0
  {
    assert 0xffff % 65536 == 0xffff;
    SmallerTimes(h % 65536, 0xffff, sum);
  }

  lemma SmallerTimes(k: nat, m: nat, sum: nat)
    requires k <= m
    ensures 0 <= k * sum <= m * sum
  {
    assert m * sum == k * sum + (m - k) * sum;
  }

  lemma ScaledBelowSum(o: Oracle, b: Bucket, x: int, r: int, i: nat)
    requires IsList(b) && i < |b.items|
    ensures b.alg.sumWeights[i] > 0 ==> Scaled(o, b, x, r, i) < b.alg.sumWeights[i]
  {
    var h, s := o.h4(b.hash, x, b.items[i], r, b.id) % 0x10000, b.alg.sumWeights[i];
    if s > 0 {
      assert h * s < 0x10000 * s;
    }
  }

  /** With exact sums the walk stops on an item that has weight, or every weight walked
      over is zero. */
  lemma {:induction false} ListSlotSound(o: Oracle, b: Bucket, x: int, r: int, n: nat)
    requires IsList(b) && ExactSums(b) && n <= |b.items|
    ensures var s := ListSlot(o, b, x, r, n);
            && (s.Some? <==> Sum(b.alg.itemWeights[..n]) > 0)
            && (s.Some? ==> b.alg.itemWeights[s.value] > 0)
  {
    var ws := b.alg.itemWeights;
    if n > 0 {
      assert ws[..n][..n - 1] == ws[..n - 1];
      SumNonNegative(ws[..n - 1]);
      ScaledBelowSum(o, b, x, r, n - 1);
      ListSlotSound(o, b, x, r, n - 1);
      assert Sum(ws[..n]) == b.alg.sumWeights[n - 1] == Sum(ws[..n - 1]) + ws[n - 1];
    }
  }

  /** The "bad list sums" exit is taken exactly by a bucket without weight. */
  lemma FallbackIffWeightless(o: Oracle, b: Bucket, x: int, r: int)
    requires IsList(b) && ExactSums(b)
    ensures ListSlot(o, b, x, r, |b.items|) == None <==> Sum(b.alg.itemWeights) == 0
    ensures Sum(b.alg.itemWeights) > 0 ==>
              b.alg.itemWeights[ListSlot(o, b, x, r, |b.items|).value] > 0
  {
    ListSlotSound(o, b, x, r, |b.items|);
    SumNonNegative(b.alg.itemWeights);
    assert b.alg.itemWeights[..|b.items|] == b.alg.itemWeights;
  }

  ghost function LastSum(b: Bucket): U32
    requires IsList(b)
  {
    if b.items == [] then 0 else b.alg.sumWeights[|b.items| - 1]
  }

  ghost function Appended(b: Bucket, item: int, w: U32): Bucket
    requires IsList(b) && !AdditionIsUnsafe(LastSum(b), w)
  {
    b.(items := b.items + [item], weight := Wrap32(b.weight + w),
       alg := List(b.alg.itemWeights + [w], b.alg.sumWeights + [LastSum(b) + w]))
  }

  lemma LastSumIsTotal(b: Bucket)
    requires IsList(b) && ExactSums(b)
    ensures LastSum(b) == Sum(b.alg.itemWeights)
  {
    assert b.alg.itemWeights[..|b.items|] == b.alg.itemWeights;
  }

  /** The sums are right modulo 2^32. */
  ghost predicate ModularSums(b: Bucket)
    requires IsList(b)
  {
    && b.weight == Wrap32(Sum(b.alg.itemWeights))
    && forall i :: 0 <= i < |b.items| ==> b.alg.sumWeights[i] == Wrap32(Sum(b.alg.itemWeights[..i + 1]))
  }

  lemma ExactIsModular(b: Bucket)
    requires IsList(b) && ExactSums(b) && Sum(b.alg.itemWeights) < TWO32
    ensures ModularSums(b) <==> b.weight == Sum(b.alg.itemWeights)
  {
    SumNonNegative(b.alg.itemWeights);
    forall i | 0 <= i < |b.items|
      ensures b.alg.sumWeights[i] == Wrap32(Sum(b.alg.itemWeights[..i + 1]))
    {
      PrefixBelowTotal(b.alg.itemWeights, i + 1);
    }
  }

  lemma AppendKeepsExact(b: Bucket, item: int, w: U32)
    requires IsList(b) && ExactSums(b) && !AdditionIsUnsafe(LastSum(b), w)
    ensures IsList(Appended(b, item, w)) && ExactSums(Appended(b, item, w))
    ensures Sum(Appended(b, item, w).alg.itemWeights) == Sum(b.alg.itemWeights) + w < TWO32
  {
    hide Sum;
    var c, n, ws := Appended(b, item, w), |b.items|, b.alg.itemWeights;
    SumAppend(ws, w);
    LastSumIsTotal(b);
    forall i | 0 <= i < |c.items| ensures c.alg.sumWeights[i] == Sum(c.alg.itemWeights[..i + 1]) {
      if i < n {
        assert c.alg.itemWeights[..i + 1] == ws[..i + 1];
      } else {
        assert c.alg.itemWeights[..i + 1] == ws + [w];
      }
    }
  }

  /** An accepted append keeps the sums right modulo 2^32, whatever has wrapped before. */
  lemma AppendKeepsModular(b: Bucket, item: int, w: U32)
    requires IsList(b) && ModularSums(b) && !AdditionIsUnsafe(LastSum(b), w)
    ensures IsList(Appended(b, item, w)) && ModularSums(Appended(b, item, w))
  {
    hide Sum;
    var c, n, ws := Appended(b, item, w), |b.items|, b.alg.itemWeights;
    SumAppend(ws, w);
    LastSumModular(b);
    WrapOfSum(Sum(ws), w);
    WrapFits(LastSum(b) + w);
    forall i | 0 <= i < |c.items| ensures c.alg.sumWeights[i] == Wrap32(Sum(c.alg.itemWeights[..i + 1])) {
      if i < n {
        assert c.alg.itemWeights[..i + 1] == ws[..i + 1];
      } else {
        assert c.alg.itemWeights[..i + 1] == ws + [w];
      }
    }
  }

  lemma LastSumModular(b: Bucket)
    requires IsList(b) && ModularSums(b)
    ensures LastSum(b) == Wrap32(Sum(b.alg.itemWeights))
  {
    assert b.alg.itemWeights[..|b.items|] == b.alg.itemWeights;
  }

  lemma {:induction false} SlotIgnoresNewerItems(o: Oracle, b: Bucket, item: int, w: U32, x: int, r: int, n: nat)
    requires IsList(b) && !AdditionIsUnsafe(LastSum(b), w) && n <= |b.items|
    ensures ListSlot(o, Appended(b, item, w), x, r, n) == ListSlot(o, b, x, r, n)
  {
    if n > 0 {
      SlotIgnoresNewerItems(o, b, item, w, x, r, n - 1);
    }
  }

  /** Appending an item moves `x` to the new item or not at all. */
  lemma AppendMovesOnlyToNew(o: Oracle, b: Bucket, item: int, w: U32, x: int, r: int)
    requires IsList(b) && !AdditionIsUnsafe(LastSum(b), w)
    ensures var c := Appended(b, item, w);
            var was, now := ListSlot(o, b, x, r, |b.items|), ListSlot(o, c, x, r, |c.items|);
            now == if Scaled(o, c, x, r, |b.items|) < w then Some(|b.items|) else was
  {
    SlotIgnoresNewerItems(o, b, item, w, x, r, |b.items|);
  }

  /** `struct crush_bucket_list`. */
  class ListBucket {
    var id: int
    const kind: int
    const hash: int
    var weight: U32
    var items: seq<int>
    var itemWeights: seq<U32>
    var sumWeights: seq<U32>

    ghost predicate Valid()
      reads this
    {
      |items| == |itemWeights| == |sumWeights| && ModularSums(Value())
    }

    ghost function Value(): (b: Bucket)
      reads this
    {
      Bucket(id, kind, hash, weight, items, List(itemWeights, sumWeights))
    }

    constructor (hash: int, kind: int)
      ensures Valid() && items == [] && itemWeights == []
      ensures this.hash == hash && this.kind == kind && id == 0
    {
      this.hash, this.kind, id, weight := hash, kind, 0, 0;
      items, itemWeights, sumWeights := [], [], [];
    }

    /** Sums that are right modulo 2^32 are exact precisely when the total fits. */
    lemma ExactIffTotalFits()
      requires Valid()
      ensures Sum(itemWeights) < TWO32 ==> ExactSums(Value()) && weight == Sum(itemWeights)
      ensures weight == Sum(itemWeights) ==> Sum(itemWeights) < TWO32
    {
      SumNonNegative(itemWeights);
      if Sum(itemWeights) < TWO32 {
        forall i | 0 <= i < |items| ensures sumWeights[i] == Sum(itemWeights[..i + 1]) {
          PrefixBelowTotal(itemWeights, i + 1);
        }
      }
    }

    /** `crush_make_list_bucket`: no bucket when the total leaves 32 bits. */
    static method Make(hash: int, kind: int, items: seq<int>, weights: seq<U32>)
      returns (b: ListBucket?)
      requires |items| == |weights|
      ensures b == null <==> Sum(weights) >= TWO32
      ensures b != null ==> fresh(b) && b.Valid() && b.items == items && b.itemWeights == weights
      ensures b != null ==> ExactSums(b.Value()) && b.weight == Sum(weights)
    {
      SumNonNegative(weights);
      var c := new ListBucket(hash, kind);
      var w := 0;
      for i := 0 to |items|
        invariant c.items == items[..i] && c.itemWeights == weights[..i] && |c.sumWeights| == i
        invariant w == Sum(weights[..i]) < TWO32 && w >= 0
        invariant forall k :: 0 <= k < i ==> c.sumWeights[k] == Sum(weights[..k + 1])
      {
        assert weights[..i + 1][..i] == weights[..i];
        PrefixBelowTotal(weights, i + 1);
        c.items := c.items + [items[i]];
        c.itemWeights := c.itemWeights + [weights[i]];
        if AdditionIsUnsafe(w, weights[i]) {
          return null;
        }
        w := w + weights[i];
        c.sumWeights := c.sumWeights + [w];
      }
      c.weight := w;
      assert weights[..|items|] == weights;
      ExactIsModular(c.Value());
      b := c;
    }

    /** `crush_add_list_bucket_item`: exact sums stay exact. */
    method Add(item: int, w: U32) returns (ret: int)
      requires Valid()
      modifies this
      ensures Valid() && (old(ExactSums(Value())) ==> ExactSums(Value()))
      ensures ret == if AdditionIsUnsafe(LastSum(old(Value())), w) then -ERANGE else 0
      ensures Value() == if ret == 0 then Appended(old(Value()), item, w) else old(Value())
    {
      ghost var was := Value();
      var sum := w;
      if |items| > 0 {
        if AdditionIsUnsafe(sumWeights[|items| - 1], w) {
          return -ERANGE;
        }
        sum := sumWeights[|items| - 1] + w;
      }
      items := items + [item];
      itemWeights := itemWeights + [w];
      sumWeights := sumWeights + [sum];
      weight := Wrap32(weight + w);
      assert Value() == Appended(was, item, w);
      AppendKeepsModular(was, item, w);
      if ExactSums(was) {
        AppendKeepsExact(was, item, w);
      }
      return 0;
    }

    /** `crush_adjust_list_bucket_item_weight`: there is no overflow check, so the sums
        stay exact just when the new total fits in 32 bits. */
    method Adjust(item: int, w: U32) returns (diff: int, ghost i: nat)
      requires Valid()
      modifies this
      ensures Valid() && items == old(items)
      ensures item !in items ==> diff == 0 && Value() == old(Value())
      ensures item in items ==>
                && i < |items| && items[i] == item && item !in items[..i]
                && diff == w - old(itemWeights)[i]
                && itemWeights == old(itemWeights)[i := w]
                && (weight == Sum(itemWeights) <==> Sum(old(itemWeights)) + diff < TWO32)
                && (Sum(old(itemWeights)) + diff < TWO32 ==> ExactSums(Value()))
    {
      var k := FirstIndexOf(items, item);
      i := k;
      if k == |items| {
        return 0, k;
      }
      ghost var was := Value();
      diff := w - itemWeights[k];
      itemWeights := itemWeights[k := w];
      weight := Wrap32(weight + diff);
      sumWeights := Shift(sumWeights, k, diff);
      AdjustKeepsModular(was, k, w, Value());
      ExactIffTotalFits();
    }
  }

  /** The loop that moves every sum from slot `k` on. */
  method Shift(sums: seq<U32>, k: nat, diff: int) returns (t: seq<U32>)
    requires k <= |sums|
    ensures |t| == |sums|
    ensures forall m :: 0 <= m < |t| ==> t[m] == if m < k then sums[m] else Wrap32(sums[m] + diff)
  {
    t := sums;
    for j := k to |sums|
      invariant |t| == |sums|
      invariant forall m :: 0 <= m < |t| ==> t[m] == if m < k || j <= m then sums[m] else Wrap32(sums[m] + diff)
    {
      t := t[j := Wrap32(t[j] + diff)];
    }
  }

  lemma AdjustKeepsModular(b: Bucket, k: nat, w: U32, c: Bucket)
    requires IsList(b) && IsList(c) && ModularSums(b) && k < |b.items| == |c.items|
    requires c.alg.itemWeights == b.alg.itemWeights[k := w]
    requires c.weight == Wrap32(b.weight + w - b.alg.itemWeights[k])
    requires forall m :: 0 <= m < |b.items| ==>
               c.alg.sumWeights[m] == if m < k then b.alg.sumWeights[m]
                                      else Wrap32(b.alg.sumWeights[m] + w - b.alg.itemWeights[k])
    ensures ModularSums(c) && Sum(c.alg.itemWeights) == Sum(b.alg.itemWeights) + w - b.alg.itemWeights[k]
  {
    var ws, diff := b.alg.itemWeights, w - b.alg.itemWeights[k];
    SumUpdate(ws, k, w);
    WrapOfSum(Sum(ws), diff);
    forall m | 0 <= m < |c.items|
      ensures c.alg.sumWeights[m] == Wrap32(Sum(c.alg.itemWeights[..m + 1]))
    {
      if m < k {
        assert c.alg.itemWeights[..m + 1] == ws[..m + 1];
      } else {
        SumUpdate(ws[..m + 1], k, w);
        assert c.alg.itemWeights[..m + 1] == ws[..m + 1][k := w];
        WrapOfSum(Sum(ws[..m + 1]), diff);
      }
    }
  }
}
