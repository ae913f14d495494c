/** Straw2 buckets: the builder's make, add, adjust and remove, the mapper's chooser,
    and how far a change of the bucket can move a placement. */
module Straw2Buckets {
  import opened Basics
  import opened CrushTypes

  const S64_MIN: int := -0x8000_0000_0000_0000
  const LN_TOP: int := 0x1_0000_0000_0000

  /** C division of a non-positive number by a positive one (toward zero). */
  function DivTowardZero(a: int, w: int): int
    requires a <= 0 < w
  {
    -((-a) / w)
  }

  /** The straw of one item: it depends on the item, its weight, `x` and `r` only. */
  function Straw(o: Oracle, hash: int, x: int, id: int, r: int, weight: U32): int {
    if weight != 0 then DivTowardZero(o.ln(o.h3(hash, x, id, r) % 0x10000) - LN_TOP, weight)
    else S64_MIN
  }

  function Straws(o: Oracle, hash: int, x: int, ids: seq<int>, r: int, weights: seq<U32>): (d: seq<int>)
    requires |ids| == |weights|
    ensures |d| == |ids|
  {
    seq(|ids|, i requires 0 <= i < |ids| => Straw(o, hash, x, ids[i], r, weights[i]))
  }

  /** `k` is the first position of the largest value. */
  ghost predicate IsFirstMax(d: seq<int>, k: nat) {
    && k < |d|
    && (forall i :: 0 <= i < k ==> d[i] < d[k])
    && (forall i :: k <= i < |d| ==> d[i] <= d[k])
  }

  lemma FirstMaxUnique(d: seq<int>, j: nat, k: nat)
    requires IsFirstMax(d, j) && IsFirstMax(d, k)
    ensures j == k
  {
    assert d[j] <= d[k] && d[k] <= d[j];
  }

  function FirstMax(d: seq<int>): (k: nat)
    requires d != []
    ensures IsFirstMax(d, k)
  {
    var n := |d| - 1;
    if n == 0 then 0
    else
      var h := FirstMax(d[..n]);
      if d[n] > d[h] then n else h
  }

  ghost predicate IsStraw2(b: Bucket) {
    b.alg.Straw2? && |b.alg.itemWeights| == |b.items|
  }

  /** The slot drawn from a straw2 bucket without replacement weights or ids. */
  function Straw2Slot(o: Oracle, b: Bucket, x: int, r: int): (k: nat)
    requires b.alg.Straw2? && |b.alg.itemWeights| == |b.items| > 0
    ensures k < |b.items|
  {
    FirstMax(Straws(o, b.hash, x, b.items, r, b.alg.itemWeights))
  }

  /** `bucket_straw2_choose`; `ids` and `weights` are those of the bucket or their
      replacements from `choose_args`. */
  method Straw2Choose(o: Oracle, hash: int, x: int, items: seq<int>, ids: seq<int>, weights: seq<U32>, r: int)
    returns (item: int)
    requires |items| == |ids| == |weights| > 0
    ensures item == items[FirstMax(Straws(o, hash, x, ids, r, weights))]
  {
    ghost var d := Straws(o, hash, x, ids, r, weights);
    var high, highDraw := 0, 0;
    for i := 0 to |items|
      invariant i > 0 ==> high < i && highDraw == d[high]
      invariant forall k :: 0 <= k < high < i ==> d[k] < highDraw
      invariant forall k :: high <= k < i ==> d[k] <= highDraw
    {
      var draw: int;
      if weights[i] != 0 {
        var u := o.h3(hash, x, ids[i], r) % 0x10000;
        var ln := o.ln(u) - LN_TOP;
        draw := DivTowardZero(ln, weights[i]);
      } else {
        draw := S64_MIN;
      }
      if i == 0 || draw > highDraw {
        high := i;
        highDraw := draw;
      }
    }
    FirstMaxUnique(d, high, FirstMax(d));
    item := items[high];
  }

  /* ---- what a draw depends on ---- */

  /** A weighted straw is the distance of the logarithm from its top, over the weight, rounded
      toward zero; a weightless one is the least 64-bit number. */
  lemma StrawIs(o: Oracle, hash: int, x: int, id: int, r: int, weight: U32)
    ensures var t := Straw(o, hash, x, id, r, weight);
            if weight == 0 then t == -0x8000_0000_0000_0000
            else
              var gap := 0x1_0000_0000_0000 - o.ln(o.h3(hash, x, id, r) % 0x1_0000);
              t <= 0 && weight * -t <= gap < weight * (1 - t)
  {
    if weight != 0 {
      var gap := 0x1_0000_0000_0000 - o.ln(o.h3(hash, x, id, r) % 0x1_0000);
      assert gap == weight * (gap / weight) + gap % weight;
    }
  }

  /** Hash and logarithm under which item `ids[f(hash, x, r)]` has the longest straw. */
  function Favour(ids: seq<int>, f: (int, int, int) -> int): Oracle {
    Oracle((_, _) => 0,
           (hash, x, id, r) => if 0 <= f(hash, x, r) < |ids| && id == ids[f(hash, x, r)] then 1 else 0,
           (_, _, _, _, _) => 0,
           u => if u == 1 then 0xffff_ffff_ffff else 0)
  }

  lemma FavouredStraw(o: Oracle, hash: int, x: int, id: int, r: int, weight: U32)
    ensures o.h3(hash, x, id, r) == 1 && o.ln(1) == 0xffff_ffff_ffff && weight > 0 ==>
              Straw(o, hash, x, id, r, weight) >= -1
    ensures o.h3(hash, x, id, r) == 0 && o.ln(0) == 0 ==> Straw(o, hash, x, id, r, weight) < -1
  {
    hide Straw;
    StrawIs(o, hash, x, id, r, weight);
    var t := Straw(o, hash, x, id, r, weight);
    if weight > 0 {
      ProductGrows(weight, 0xffff_ffff, if t >= -1 then 1 - t else 0);
      if t < -1 {
        MultipleIsFar(weight, -t - 1);
        assert weight * -t == weight * (-t - 1) + weight;
      }
    }
  }

  /** The draw depends on the hash kind, on `x`, on the rank and on the items' ids, and on each of
      them freely: whatever weighted slot is wanted for each of them, some hash draws it. */
  lemma EveryDraw(ids: seq<int>, weights: seq<U32>, f: (int, int, int) -> int) returns (o: Oracle)
    requires |ids| == |weights| && Distinct(ids)
    requires forall hash, x, r :: 0 <= f(hash, x, r) < |ids| && weights[f(hash, x, r)] > 0
    ensures forall hash, x, r :: FirstMax(Straws(o, hash, x, ids, r, weights)) == f(hash, x, r)
  {
    hide Straw;
    assert 0 <= f(0, 0, 0) < |ids|;
    o := Favour(ids, f);
    forall hash, x, r ensures FirstMax(Straws(o, hash, x, ids, r, weights)) == f(hash, x, r) {
      var d, k := Straws(o, hash, x, ids, r, weights), f(hash, x, r);
      forall i | 0 <= i < |ids| ensures if i == k then d[i] >= -1 else d[i] < -1 {
        FavouredStraw(o, hash, x, ids[i], r, weights[i]);
      }
      FirstMaxUnique(d, FirstMax(d), k);
    }
  }

  /** In particular, any two slots can be drawn at two ranks, and for two values of `x`. */
  lemma RanksDrawFreely(b: Bucket, x: int, r: int, y: int, s: int, k: nat, j: nat) returns (o: Oracle)
    requires IsStraw2(b) && Distinct(b.items) && k < |b.items| && j < |b.items|
    requires b.alg.itemWeights[k] > 0 && b.alg.itemWeights[j] > 0 && (x != y || r != s)
    ensures Straw2Slot(o, b, x, r) == k && Straw2Slot(o, b, y, s) == j
  {
    o := EveryDraw(b.items, b.alg.itemWeights, (_, v, q) => if v == x && q == r then k else j);
  }

  /** Only the low 16 bits of the hash count. */
  lemma LowBitsDraw(o: Oracle, p: Oracle, hash: int, x: int, ids: seq<int>, r: int, weights: seq<U32>)
    requires |ids| == |weights| > 0 && o.ln == p.ln
    requires forall i :: 0 <= i < |ids| ==> o.h3(hash, x, ids[i], r) % 0x1_0000 == p.h3(hash, x, ids[i], r) % 0x1_0000
    ensures FirstMax(Straws(o, hash, x, ids, r, weights)) == FirstMax(Straws(p, hash, x, ids, r, weights))
  {
    assert Straws(o, hash, x, ids, r, weights) == Straws(p, hash, x, ids, r, weights);
  }

  /* ---- what a change of the bucket can move ---- */

  function Appended(b: Bucket, item: int, weight: U32): Bucket
    requires b.alg.Straw2?
  {
    b.(items := b.items + [item],
       weight := Wrap32(b.weight + weight),
       alg := Straw2(b.alg.itemWeights + [weight]))
  }

  function Reweighted(b: Bucket, i: nat, weight: U32): Bucket
    requires b.alg.Straw2? && |b.alg.itemWeights| == |b.items| && i < |b.items|
  {
    b.(weight := Wrap32(b.weight + weight - b.alg.itemWeights[i]),
       alg := Straw2(b.alg.itemWeights[i := weight]))
  }

  function Removed(b: Bucket, i: nat): Bucket
    requires b.alg.Straw2? && |b.alg.itemWeights| == |b.items| && i < |b.items|
  {
    b.(items := DropAt(b.items, i),
       weight := if b.alg.itemWeights[i] < b.weight then b.weight - b.alg.itemWeights[i] else 0,
       alg := Straw2(DropAt(b.alg.itemWeights, i)))
  }

  lemma DivMonotone(a: int, v: int, w: int)
    requires a <= 0 < v <= w
    ensures DivTowardZero(a, v) <= DivTowardZero(a, w)
  {
    QuotientShrinks(-a, v, w);
  }

  lemma QuotientShrinks(n: nat, v: nat, w: nat)
    requires 0 < v <= w
    ensures n / w <= n / v
  {
    var p, q := n / v, n / w;
    assert n == w * q + n % w && n == v * p + n % v;
    ProductGrows(v, w, q);
    assert v * (q - p) == v * q - v * p;
    MultipleIsFar(v, q - p);
  }

  lemma ProductGrows(v: nat, w: nat, q: nat)
    requires v <= w
    ensures v * q <= w * q
  {
    assert w * q == v * q + (w - v) * q;
  }

  lemma StrawGrowsWithWeight(o: Oracle, hash: int, x: int, id: int, r: int, v: U32, w: U32)
    requires v <= w
    ensures Straw(o, hash, x, id, r, v) <= Straw(o, hash, x, id, r, w)
    ensures v == 0 < w ==> Straw(o, hash, x, id, r, v) < Straw(o, hash, x, id, r, w)
  {
    var a := o.ln(o.h3(hash, x, id, r) % 0x10000) - LN_TOP;
    if w > 0 {
      DivMonotone(a, 1, w);
      if v > 0 {
        DivMonotone(a, v, w);
      }
    }
  }

  /** Adding an item moves `x` to that item or not at all; and it moves exactly when
      the new straw is longer than every old one. */
  lemma AppendMovesOnlyToNew(o: Oracle, b: Bucket, item: int, weight: U32, x: int, r: int)
    requires IsStraw2(b) && |b.items| > 0
    ensures var was, now := Straw2Slot(o, b, x, r), Straw2Slot(o, Appended(b, item, weight), x, r);
            var newStraw := Straw(o, b.hash, x, item, r, weight);
            var best := Straw(o, b.hash, x, b.items[was], r, b.alg.itemWeights[was]);
            now == if newStraw > best then |b.items| else was
  {
    var c := Appended(b, item, weight);
    var d := Straws(o, b.hash, x, b.items, r, b.alg.itemWeights);
    var e := Straws(o, c.hash, x, c.items, r, c.alg.itemWeights);
    assert e[..|d|] == d;
  }

  /** Raising one weight moves `x` to that item or not at all. */
  lemma RaiseMovesOnlyToRaised(o: Oracle, b: Bucket, i: nat, weight: U32, x: int, r: int)
    requires IsStraw2(b) && i < |b.items| && b.alg.itemWeights[i] <= weight
    ensures var was, now := Straw2Slot(o, b, x, r), Straw2Slot(o, Reweighted(b, i, weight), x, r);
            now == was || now == i
  {
    var c := Reweighted(b, i, weight);
    var d := Straws(o, b.hash, x, b.items, r, b.alg.itemWeights);
    var e := Straws(o, c.hash, x, c.items, r, c.alg.itemWeights);
    StrawGrowsWithWeight(o, b.hash, x, b.items[i], r, b.alg.itemWeights[i], weight);
    assert e == d[i := e[i]] && d[i] <= e[i];
    var was, now := FirstMax(d), FirstMax(e);
    assert d[now] <= d[was] <= e[was] <= e[now];
  }

  /** Lowering the weight of an item that was not chosen moves nothing. */
  lemma LowerOtherMovesNothing(o: Oracle, b: Bucket, i: nat, weight: U32, x: int, r: int)
    requires IsStraw2(b) && i < |b.items| && weight <= b.alg.itemWeights[i]
    requires Straw2Slot(o, b, x, r) != i
    ensures Straw2Slot(o, Reweighted(b, i, weight), x, r) == Straw2Slot(o, b, x, r)
  {
    var c := Reweighted(b, i, weight);
    var d := Straws(o, b.hash, x, b.items, r, b.alg.itemWeights);
    var e := Straws(o, c.hash, x, c.items, r, c.alg.itemWeights);
    StrawGrowsWithWeight(o, b.hash, x, b.items[i], r, weight, b.alg.itemWeights[i]);
    assert e == d[i := e[i]] && e[i] <= d[i];
    FirstMaxUnique(e, FirstMax(e), FirstMax(d));
  }

  lemma FirstMaxSurvivesDrop(d: seq<int>, i: nat, k: nat)
    requires i < |d| && i != k && IsFirstMax(d, k)
    ensures FirstMax(DropAt(d, i)) == if k < i then k else k - 1
  {
    var e, k' := DropAt(d, i), if k < i then k else k - 1;
    assert forall j :: 0 <= j < |e| ==> e[j] == d[if j < i then j else j + 1];
    FirstMaxUnique(e, FirstMax(e), k');
  }

  /** Removing an item that was not chosen moves nothing. */
  lemma RemoveOtherMovesNothing(o: Oracle, b: Bucket, i: nat, x: int, r: int)
    requires IsStraw2(b) && i < |b.items|
    requires Straw2Slot(o, b, x, r) != i
    ensures var c := Removed(b, i);
            c.items != [] && c.items[Straw2Slot(o, c, x, r)] == b.items[Straw2Slot(o, b, x, r)]
  {
    var c := Removed(b, i);
    var d := Straws(o, b.hash, x, b.items, r, b.alg.itemWeights);
    assert Straws(o, c.hash, x, c.items, r, c.alg.itemWeights) == DropAt(d, i);
    FirstMaxSurvivesDrop(d, i, FirstMax(d));
  }

  /** A weightless item is not chosen while some other item has weight. */
  lemma WeightlessNeverChosen(o: Oracle, b: Bucket, i: nat, x: int, r: int)
    requires IsStraw2(b) && i < |b.items| && b.alg.itemWeights[i] > 0
    ensures b.alg.itemWeights[Straw2Slot(o, b, x, r)] > 0
  {
    var d := Straws(o, b.hash, x, b.items, r, b.alg.itemWeights);
    StrawGrowsWithWeight(o, b.hash, x, b.items[i], r, 0, b.alg.itemWeights[i]);
    var k := FirstMax(d);
    assert d[i] <= d[k];
  }

  /* ---- the builder ---- */

  /** `struct crush_bucket_straw2`. */
  class Straw2Bucket {
    var id: int
    const kind: int
    const hash: int
    var weight: U32
    var items: seq<int>
    var itemWeights: seq<U32>

    /** One weight per item. */
    ghost predicate Valid()
      reads this
    {
      |items| == |itemWeights|
    }

    /** `weight` is "the cumulative weight of all its children". */
    ghost predicate Weighed()
      reads this
    {
      weight == Sum(itemWeights)
    }

    function Value(): (b: Bucket)
      reads this
      ensures b.alg.Straw2?
    {
      Bucket(id, kind, hash, weight, items, Straw2(itemWeights))
    }

    /** `crush_make_straw2_bucket`: the total is accumulated without an overflow check. */
    constructor (hash: int, kind: int, items: seq<int>, weights: seq<U32>)
      requires |items| == |weights|
      ensures Valid() && this.items == items && itemWeights == weights
      ensures this.kind == kind && this.hash == hash && id == 0
      ensures weight == Wrap32(Sum(weights))
      ensures Weighed() <==> Sum(weights) < TWO32
    {
      this.hash, this.kind, id, weight := hash, kind, 0, 0;
      this.items, itemWeights := [], [];
      new;
      for i := 0 to |items|
        invariant this.items == items[..i] && itemWeights == weights[..i]
        invariant weight == Wrap32(Sum(weights[..i]))
        invariant id == 0
      {
        assert weights[..i + 1][..i] == weights[..i];
        WrapOfSum(Sum(weights[..i]), weights[i]);
        this.items := this.items + [items[i]];
        weight := Wrap32(weight + weights[i]);
        itemWeights := itemWeights + [weights[i]];
      }
      assert weights[..|items|] == weights;
      SumNonNegative(weights);
      WrapFits(Sum(weights));
    }

    /** `crush_add_straw2_bucket_item`. */
    method Add(item: int, w: U32) returns (ret: int)
      requires Valid()
      modifies this
      ensures Valid()
      ensures ret == if AdditionIsUnsafe(old(weight), w) then -ERANGE else 0
      ensures Value() == if ret == 0 then Appended(old(Value()), item, w) else old(Value())
      ensures old(Weighed()) ==> Weighed()
      ensures old(Weighed()) ==> (ret == 0 <==> Sum(old(itemWeights)) + w < TWO32)
    {
      SumAppend(itemWeights, w);
      if AdditionIsUnsafe(weight, w) {
        return -ERANGE;
      }
      items := items + [item];
      itemWeights := itemWeights + [w];
      weight := weight + w;
      return 0;
    }

    /** `crush_adjust_straw2_bucket_item_weight`: the total stays exact just when the
        new sum fits in 32 bits. */
    method Adjust(item: int, w: U32) returns (diff: int, ghost i: nat)
      requires Valid()
      modifies this
      ensures Valid()
      ensures item !in old(items) ==> diff == 0 && Value() == old(Value())
      ensures item in old(items) ==>
                && i < |old(items)| && old(items)[i] == item && item !in old(items)[..i]
                && diff == w - old(itemWeights)[i]
                && Value() == Reweighted(old(Value()), i, w)
                && (old(Weighed()) ==> (Weighed() <==> Sum(old(itemWeights)) + diff < TWO32))
    {
      var idx := FirstIndexOf(items, item);
      i := idx;
      if idx == |items| {
        return 0, idx;
      }
      SumUpdate(itemWeights, idx, w);
      diff := w - itemWeights[idx];
      itemWeights := itemWeights[idx := w];
      SumNonNegative(itemWeights);
      WrapFits(Sum(itemWeights));
      weight := Wrap32(weight + diff);
    }

    /** `crush_remove_straw2_bucket_item`.  The item goes whenever it is present, but the
        code also reports "no entry" when the removed item was the last one. */
    method Remove(item: int) returns (ret: int, ghost i: nat)
      requires Valid()
      modifies this
      ensures Valid()
      ensures item !in old(items) ==> ret == -ENOENT && Value() == old(Value())
      ensures item in old(items) ==>
                && i < |old(items)| && old(items)[i] == item && item !in old(items)[..i]
                && Value() == Removed(old(Value()), i)
                && (ret == if i == |old(items)| - 1 then -ENOENT else 0)
                && (old(Weighed()) ==> Weighed())
    {
      var k := FirstIndexOf(items, item);
      i := k;
      if k == |items| {
        return -ENOENT, i;
      }
      SumUpdate(itemWeights, k, 0);
      SumDrop(itemWeights, k);
      SumNonNegative(itemWeights);
      var w := itemWeights[k];
      weight := if w < weight then weight - w else 0;
      ret := if k == |items| - 1 then -ENOENT else 0;
      items := CloseGap(items, k);
      itemWeights := CloseGap(itemWeights, k);
    }
  }

  /** The loop that shifts the tail of an array down by one slot, and the `realloc`. */
  method CloseGap<T>(s: seq<T>, k: nat) returns (t: seq<T>)
    requires k < |s|
    ensures t == DropAt(s, k)
  {
    t := s;
    for j := k to |s| - 1
      invariant |t| == |s|
      invariant forall i :: 0 <= i < k ==> t[i] == s[i]
      invariant forall i :: k <= i < j ==> t[i] == s[i + 1]
      invariant forall i :: j <= i < |s| ==> t[i] == s[i]
    {
      assert t[j + 1] == s[j + 1];
      t := t[j := t[j + 1]];
    }
    t := t[..|s| - 1];
    assert forall i :: 0 <= i < |t| ==> t[i] == DropAt(s, k)[i];
  }

  lemma {:induction false} SumDrop(ws: seq<int>, i: nat)
    requires i < |ws|
    ensures Sum(DropAt(ws, i)) == Sum(ws) - ws[i]
  {
    var n := |ws| - 1;
    if i == n {
      assert DropAt(ws, i) == ws[..n];
    } else {
      SumDrop(ws[..n], i);
      assert DropAt(ws, i)[..n - 1] == DropAt(ws[..n], i);
    }
  }
}
