/** `crush_choose_firstn`: its retry search as a function, and what that search guarantees. */
module Firstn {
  import opened Basics
  import opened CrushTypes
  import opened CrushMaps

  /** The tunables of one call. */
  datatype Tune = Tune(tries: nat, recurseTries: nat, localRetries: nat, fallback: nat, varyR: nat, stable: bool)

  /** What the caller asks for: a start bucket, a type, and whether to go on to a leaf. */
  datatype Query = Query(top: Bucket, kind: int, leafMode: bool, chosen: seq<int>, leaves: seq<int>)

  /** A replica slot's result; `leaf` is meaningful in leaf mode. */
  datatype Pick = Pick(item: int, leaf: int)

  /** The verdict on one draw. */
  datatype Verdict = Bad | Descend(id: int) | Take(pick: Pick) | Miss(collide: bool)

  ghost predicate Asks(c: Context, q: Query) {
    Ok(c) && InMap(c.m, q.top)
  }

  function Slack(limit: nat, used: nat): nat {
    if used < limit then limit - used else 0
  }

  /** No local retry happens past this many local failures. */
  ghost function LocalLimit(c: Context, t: Tune): nat {
    var n := MaxSize(c.m.buckets) + t.fallback;
    if t.localRetries > n then t.localRetries else n
  }

  ghost function Draw(c: Context, t: Tune, b: Bucket, r: nat, flocal: nat, position: nat): (item: int)
    requires Ok(c) && InMap(c.m, b) && b.items != []
    ensures Drawn(c.m, b, item)
  {
    DrawnFrom(c.m, b);
    if t.fallback > 0 && flocal >= |b.items| / 2 && flocal > t.fallback then Perm.PermItem(c.o, b, c.x, r)
    else BucketChoose(c, b, r, position)
  }

  /** `r >> n`. */
  function ShiftRight(r: nat, n: nat): nat {
    if n == 0 then r else ShiftRight(r / 2, n - 1)
  }

  /** The rank handed to the leaf search: `r >> (vary_r - 1)`, or 0. */
  function SubRank(t: Tune, r: nat): nat {
    if t.varyR > 0 then ShiftRight(r, t.varyR - 1) else 0
  }

  function LeafBase(t: Tune, r: nat, outpos: nat): nat {
    (if t.stable then 0 else outpos) + SubRank(t, r)
  }

  function LeafTune(t: Tune): Tune {
    t.(tries := t.recurseTries, recurseTries := 0)
  }

  /** The device found below `item`, if any: one leaf-level search in the same bucket tree. */
  ghost function LeafOf(c: Context, t: Tune, q: Query, item: int, r: nat): Option<int>
    requires Asks(c, q) && q.leafMode && (item < 0 ==> Has(c.m, item))
    decreases 1, 0, 0, 0, 0
  {
    if item >= 0 then Some(item)
    else
      var b := Get(c.m, item);
      var p := Search(c, LeafTune(t), Query(b, 0, false, q.leaves, []), b, LeafBase(t, r, |q.chosen|), 0, 0);
      if p.Some? then Some(p.value.item) else None
  }

  ghost function Judge(c: Context, t: Tune, q: Query, b: Bucket, r: nat, flocal: nat): (v: Verdict)
    requires Asks(c, q) && InMap(c.m, b)
    ensures v.Descend? ==> v.id < 0 && Drawn(c.m, b, v.id)
    decreases if q.leafMode then 1 else 0, 0, 0, 0, 1
  {
    if b.items == [] then Miss(false)
    else
      var item := Draw(c, t, b, r, flocal, |q.chosen|);
      if item >= c.m.maxDevices then Bad
      else if KindOf(c.m, item) != q.kind then
        if item >= 0 then Bad else Descend(item)
      else if item in q.chosen then Miss(true)
      else
        var leaf := if q.leafMode then LeafOf(c, t, q, item, r) else Some(item);
        if leaf == None || (KindOf(c.m, item) == 0 && item >= 0 && IsOut(c, item)) then Miss(false)
        else Take(Pick(item, leaf.value))
  }

  /** The search for one replica slot.  The decreases clause is the termination measure of
      the nested retry loops: descents left, local retries left, depth left. */
  ghost function Search(c: Context, t: Tune, q: Query, b: Bucket, base: nat, ftotal: nat, flocal: nat): Option<Pick>
    requires Asks(c, q) && InMap(c.m, b)
    decreases if q.leafMode then 1 else 0, 1 + Slack(t.tries, ftotal), Slack(LocalLimit(c, t), flocal), Rank(c.m, b), 1
  {
    match Judge(c, t, q, b, base + ftotal, flocal)
    case Bad => None
    case Take(p) => Some(p)
    case Descend(id) => Search(c, t, q, Get(c.m, id), base, ftotal, flocal)
    case Miss(collide) =>
      if RetryHere(t, b, collide, flocal + 1) then Search(c, t, q, b, base, ftotal + 1, flocal + 1)
      else if ftotal + 1 < t.tries then Search(c, t, q, q.top, base, ftotal + 1, 0)
      else None
  }

  /** Stay in the bucket: a collision within the local retries, or the fallback search. */
  predicate RetryHere(t: Tune, b: Bucket, collide: bool, flocal: nat) {
    (collide && flocal <= t.localRetries) || (t.fallback > 0 && flocal <= |b.items| + t.fallback)
  }

  /** `q` with the result of one slot added. */
  function Extend(q: Query, p: Pick): Query {
    q.(chosen := q.chosen + [p.item], leaves := if q.leafMode then q.leaves + [p.leaf] else q.leaves)
  }

  /** The loop over replica slots, from slot `rep` on with `count` places left. */
  ghost function Collect(c: Context, t: Tune, q: Query, numrep: int, rep: nat, count: nat, parentR: nat): (e: Query)
    requires Asks(c, q)
    ensures e.top == q.top && e.kind == q.kind && e.leafMode == q.leafMode
    ensures |q.chosen| <= |e.chosen| <= |q.chosen| + count
    ensures numrep >= rep ==> |e.chosen| - |q.chosen| <= numrep - rep
    ensures numrep <= rep ==> e == q
    ensures q.leafMode ==> |e.leaves| - |q.leaves| == |e.chosen| - |q.chosen|
    decreases if numrep > rep then numrep - rep else 0
  {
    if rep >= numrep || count == 0 then q
    else
      match Search(c, t, q, q.top, rep + parentR, 0, 0)
      case None => Collect(c, t, q, numrep, rep + 1, count, parentR)
      case Some(p) => Collect(c, t, Extend(q, p), numrep, rep + 1, count - 1, parentR)
  }

  /* ---- what the search guarantees ---- */

  ghost predicate Reaches(c: Context, top: Bucket, b: Bucket)
    requires WellFormed(c.m) && InMap(c.m, top) && InMap(c.m, b)
  {
    b == top || (b.id < 0 && Under(c.m, top, b.id))
  }

  /** A leaf belongs to its item: it is the item itself or a device below it. */
  ghost predicate LeafBelongs(c: Context, item: int, leaf: int)
    requires WellFormed(c.m)
  {
    if item >= 0 then leaf == item
    else Has(c.m, item) && InMap(c.m, Get(c.m, item)) && Under(c.m, Get(c.m, item), leaf)
  }

  ghost predicate GoodPick(c: Context, q: Query, p: Pick)
    requires Asks(c, q)
  {
    && p.item !in q.chosen && p.item < c.m.maxDevices
    && (p.item < 0 ==> Has(c.m, p.item)) && KindOf(c.m, p.item) == q.kind
    && Under(c.m, q.top, p.item)
    && (p.item >= 0 ==> !IsOut(c, p.item))
    && (q.leafMode ==>
          && 0 <= p.leaf < c.m.maxDevices && !IsOut(c, p.leaf)
          && LeafBelongs(c, p.item, p.leaf)
          && (p.item < 0 ==> p.leaf !in q.leaves))
  }

  lemma DrawIsUnderTop(c: Context, t: Tune, q: Query, b: Bucket, r: nat, flocal: nat)
    requires Asks(c, q) && InMap(c.m, b) && Reaches(c, q.top, b) && b.items != []
    ensures var item := Draw(c, t, b, r, flocal, |q.chosen|);
            Under(c.m, q.top, item) && (item < 0 ==> Has(c.m, item) && InMap(c.m, Get(c.m, item)))
  {
    var item := Draw(c, t, b, r, flocal, |q.chosen|);
    assert Under(c.m, b, item);
    if b != q.top {
      UnderIsTransitive(c.m, q.top, b.id, item);
    }
  }

  /** Every result of the search is new, of the requested type, below the start bucket and
      not out; in leaf mode so is its leaf. */
  lemma {:induction false} SearchSound(c: Context, t: Tune, q: Query, b: Bucket, base: nat, ftotal: nat, flocal: nat)
    requires Asks(c, q) && InMap(c.m, b) && Reaches(c, q.top, b)
    ensures var p := Search(c, t, q, b, base, ftotal, flocal); p.Some? ==> GoodPick(c, q, p.value)
    decreases if q.leafMode then 1 else 0, 1 + Slack(t.tries, ftotal), Slack(LocalLimit(c, t), flocal), Rank(c.m, b)
  {
    hide Draw;
    var r := base + ftotal;
    if b.items != [] {
      DrawIsUnderTop(c, t, q, b, r, flocal);
    }
    match Judge(c, t, q, b, r, flocal)
    case Bad =>
    case Descend(id) =>
      SearchSound(c, t, q, Get(c.m, id), base, ftotal, flocal);
    case Take(p) =>
      if q.leafMode {
        assert LeafOf(c, t, q, p.item, r) == Some(p.leaf);
        if p.item < 0 {
          LeafSound(c, t, q, p.item, r);
        }
      }
    case Miss(collide) =>
      if RetryHere(t, b, collide, flocal + 1) {
        SearchSound(c, t, q, b, base, ftotal + 1, flocal + 1);
      } else if ftotal + 1 < t.tries {
        SearchSound(c, t, q, q.top, base, ftotal + 1, 0);
      }
  }

  lemma {:induction false} LeafSound(c: Context, t: Tune, q: Query, item: int, r: nat)
    requires Asks(c, q) && q.leafMode && item < 0 && Has(c.m, item)
    ensures var l := LeafOf(c, t, q, item, r);
            l.Some? ==> 0 <= l.value < c.m.maxDevices && !IsOut(c, l.value) && l.value !in q.leaves &&
                        LeafBelongs(c, item, l.value)
    decreases 1, 0
  {
    var b := Get(c.m, item);
    SearchSound(c, LeafTune(t), Query(b, 0, false, q.leaves, []), b, LeafBase(t, r, |q.chosen|), 0, 0);
  }

  /** What `crush_choose_firstn` promises about its output vectors. */
  ghost predicate GoodOutput(c: Context, q: Query)
    requires Asks(c, q)
  {
    && Distinct(q.chosen)
    && (forall i :: 0 <= i < |q.chosen| ==>
          && q.chosen[i] < c.m.maxDevices
          && (q.chosen[i] < 0 ==> Has(c.m, q.chosen[i])) && KindOf(c.m, q.chosen[i]) == q.kind
          && Under(c.m, q.top, q.chosen[i])
          && (q.chosen[i] >= 0 ==> !IsOut(c, q.chosen[i])))
    && (q.leafMode ==>
          && |q.leaves| == |q.chosen| && Distinct(q.leaves)
          && forall i :: 0 <= i < |q.leaves| ==>
               && 0 <= q.leaves[i] < c.m.maxDevices && !IsOut(c, q.leaves[i])
               && LeafBelongs(c, q.chosen[i], q.leaves[i]))
  }

  lemma ExtendKeepsGood(c: Context, q: Query, p: Pick)
    requires Asks(c, q) && GoodOutput(c, q) && GoodPick(c, q, p)
    ensures GoodOutput(c, Extend(q, p))
  {
    var e := Extend(q, p);
    if q.leafMode && p.item >= 0 {
      // a type-0 query: every chosen item is its own leaf
      forall i | 0 <= i < |q.leaves| ensures q.leaves[i] != p.leaf {
        assert LeafBelongs(c, q.chosen[i], q.leaves[i]);
      }
    }
    assert q.leafMode ==> Distinct(e.leaves);
  }

  /** Over all replica slots: at most `count` results, pairwise distinct, of the requested
      type; in leaf mode the leaves are pairwise distinct devices that are not out, even
      when two items share a device. */
  lemma {:induction false} CollectSound(c: Context, t: Tune, q: Query, numrep: int, rep: nat, count: nat, parentR: nat)
    requires Asks(c, q) && GoodOutput(c, q)
    ensures GoodOutput(c, Collect(c, t, q, numrep, rep, count, parentR))
    decreases if numrep > rep then numrep - rep else 0
  {
    if rep < numrep && count > 0 {
      SearchSound(c, t, q, q.top, rep + parentR, 0, 0);
      match Search(c, t, q, q.top, rep + parentR, 0, 0)
      case None => CollectSound(c, t, q, numrep, rep + 1, count, parentR);
      case Some(p) =>
        ExtendKeepsGood(c, q, p);
        CollectSound(c, t, Extend(q, p), numrep, rep + 1, count - 1, parentR);
    }
  }

  /** `crush_choose_firstn` started at position 0. */
  lemma FirstnSound(c: Context, t: Tune, top: Bucket, kind: int, leafMode: bool, numrep: int, outSize: nat)
    requires Ok(c) && InMap(c.m, top)
    ensures var e := Collect(c, t, Query(top, kind, leafMode, [], []), numrep, 0, outSize, 0);
            GoodOutput(c, e) && |e.chosen| <= outSize && (numrep >= 0 ==> |e.chosen| <= numrep)
  {
    CollectSound(c, t, Query(top, kind, leafMode, [], []), numrep, 0, outSize, 0);
  }
}
