/** The loops of `crush_choose_firstn`, with their shared permutation workspace, proved to
    compute the functions of module Firstn. */
module FirstnCode {
  import opened CrushTypes
  import opened CrushMaps
  import opened Firstn

  /** The collision scan over the results so far. */
  method Collides(out: seq<int>, item: int) returns (collide: bool)
    ensures collide <==> item in out
  {
    for i := 0 to |out|
      invariant item !in out[..i]
    {
      if out[i] == item {
        return true;
      }
    }
    return false;
  }

  /** The body of the innermost loop: draw an item and judge it. */
  method JudgeDraw(c: Context, t: Tune, ws: Workspace, q: Query, b: Bucket, r: nat, flocal: nat)
    returns (v: Verdict)
    requires Asks(c, q) && InMap(c.m, b) && ws.Valid(c)
    modifies ws.Repr
    ensures ws.Valid(c)
    ensures v == Judge(c, t, q, b, r, flocal)
    decreases q.leafMode, 0
  {
    if b.items == [] {
      return Miss(false);
    }
    var item;
    if t.fallback > 0 && flocal >= |b.items| / 2 && flocal > t.fallback {
      item := PermChooseIn(c, ws, b, r);
    } else {
      item := ChooseFrom(c, ws, b, r, |q.chosen|);
    }
    assert item == Draw(c, t, b, r, flocal, |q.chosen|);
    if item >= c.m.maxDevices {
      return Bad;
    }
    var itemKind := KindOf(c.m, item);
    if itemKind != q.kind {
      return if item >= 0 then Bad else Descend(item);
    }
    var collide := Collides(q.chosen, item);
    if collide {
      return Miss(true);
    }
    var leaf := item;
    if q.leafMode && item < 0 {
      var found := ChooseLeaf(c, t, ws, q, item, r);
      if found.None? {
        return Miss(false);
      }
      leaf := found.value;
    }
    if itemKind == 0 && item >= 0 && IsOut(c, item) {
      return Miss(false);
    }
    v := Take(Pick(item, leaf));
  }

  /** The recursive call that looks for one device below an item. */
  method ChooseLeaf(c: Context, t: Tune, ws: Workspace, q: Query, item: int, r: nat) returns (leaf: Option<int>)
    requires Asks(c, q) && ws.Valid(c) && q.leafMode && item < 0 && Has(c.m, item)
    modifies ws.Repr
    ensures ws.Valid(c)
    ensures leaf == LeafOf(c, t, q, item, r)
    decreases false, 3
  {
    var outpos := |q.chosen|;
    var lq := Query(Get(c.m, item), 0, false, q.leaves, []);
    OneSlot(c, LeafTune(t), lq, if t.stable then 0 else outpos, 1, SubRank(t, r));
    var e := ChooseFirstn(c, LeafTune(t), ws, lq, if t.stable then 1 else outpos + 1, outpos, 1, SubRank(t, r));
    leaf := if |e.chosen| <= |q.leaves| then None else Some(e.chosen[|q.leaves|]);
  }

  /** A search for a single slot. */
  lemma OneSlot(c: Context, t: Tune, q: Query, rep: nat, count: nat, parentR: nat)
    requires Asks(c, q) && count > 0
    ensures var p := Search(c, t, q, q.top, rep + parentR, 0, 0);
            Collect(c, t, q, rep + 1, rep, count, parentR) == if p.Some? then Extend(q, p.value) else q
  {
  }

  /** The search after a failed draw: the same bucket, the top again, or nothing. */
  lemma SearchAfterMiss(c: Context, t: Tune, q: Query, b: Bucket, base: nat, ftotal: nat, flocal: nat, collide: bool)
    requires Asks(c, q) && InMap(c.m, b)
    requires Judge(c, t, q, b, base + ftotal, flocal) == Miss(collide)
    ensures var s := Search(c, t, q, b, base, ftotal, flocal);
            if RetryHere(t, b, collide, flocal + 1) then
              && s == Search(c, t, q, b, base, ftotal + 1, flocal + 1)
              && Slack(LocalLimit(c, t), flocal + 1) < Slack(LocalLimit(c, t), flocal)
            else s == if ftotal + 1 < t.tries then Search(c, t, q, q.top, base, ftotal + 1, 0) else None
  {
  }

  lemma SearchAfterDescent(c: Context, t: Tune, q: Query, b: Bucket, base: nat, ftotal: nat, flocal: nat, id: int)
    requires Asks(c, q) && InMap(c.m, b)
    requires Judge(c, t, q, b, base + ftotal, flocal) == Descend(id)
    ensures Has(c.m, id) && InMap(c.m, Get(c.m, id)) && Rank(c.m, Get(c.m, id)) < Rank(c.m, b)
    ensures Search(c, t, q, b, base, ftotal, flocal) == Search(c, t, q, Get(c.m, id), base, ftotal, flocal)
  {
  }

  lemma SearchStops(c: Context, t: Tune, q: Query, b: Bucket, base: nat, ftotal: nat, flocal: nat)
    requires Asks(c, q) && InMap(c.m, b)
    ensures var v := Judge(c, t, q, b, base + ftotal, flocal);
            && (v.Bad? ==> Search(c, t, q, b, base, ftotal, flocal) == None)
            && (v.Take? ==> Search(c, t, q, b, base, ftotal, flocal) == Some(v.pick))
  {
  }

  /** The loop over one descent, with its local retries. */
  method DescendOnce(c: Context, t: Tune, ws: Workspace, q: Query, base: nat, f0: nat)
    returns (retryDescent: bool, got: Option<Pick>, ftotal: nat)
    requires Asks(c, q) && ws.Valid(c)
    modifies ws.Repr
    ensures ws.Valid(c)
    ensures retryDescent ==> f0 < ftotal < t.tries
    ensures Search(c, t, q, q.top, base, f0, 0) ==
            if retryDescent then Search(c, t, q, q.top, base, ftotal, 0) else got
    decreases q.leafMode, 1
  {
    hide Search, Judge;
    ghost var goal := Search(c, t, q, q.top, base, f0, 0);
    retryDescent, got, ftotal := false, None, f0;
    var b := q.top;
    var flocal := 0;
    var retryBucket := true;
    while retryBucket
      invariant ws.Valid(c) && InMap(c.m, b)
      invariant f0 <= ftotal
      invariant retryBucket ==> !retryDescent && got == None && Search(c, t, q, b, base, ftotal, flocal) == goal
      invariant retryDescent ==> f0 < ftotal < t.tries && Search(c, t, q, q.top, base, ftotal, 0) == goal
      invariant !retryBucket && !retryDescent ==> got == goal
      decreases retryBucket, Slack(LocalLimit(c, t), flocal), Rank(c.m, b)
    {
      retryBucket := false;
      var v := JudgeDraw(c, t, ws, q, b, base + ftotal, flocal);
      SearchStops(c, t, q, b, base, ftotal, flocal);
      match v
      case Bad =>
      case Take(p) => got := Some(p);
      case Descend(id) =>
        SearchAfterDescent(c, t, q, b, base, ftotal, flocal, id);
        b := Get(c.m, id);
        retryBucket := true;
      case Miss(collide) =>
        SearchAfterMiss(c, t, q, b, base, ftotal, flocal, collide);
        ftotal, flocal := ftotal + 1, flocal + 1;
        if collide && flocal <= t.localRetries {
          retryBucket := true;
        } else if t.fallback > 0 && flocal <= |b.items| + t.fallback {
          retryBucket := true;
        } else if ftotal < t.tries {
          retryDescent := true;
        }
    }
  }

  /** `crush_choose_firstn`: the vectors of `q0`, extended by at most `outSize` results,
      exactly those of the reference search. */
  method ChooseFirstn(c: Context, t: Tune, ws: Workspace, q0: Query, numrep: int, outpos0: nat, outSize: nat,
                      parentR: nat) returns (q: Query)
    requires Asks(c, q0) && ws.Valid(c)
    modifies ws.Repr
    ensures ws.Valid(c)
    ensures q == Collect(c, t, q0, numrep, if t.stable then 0 else outpos0, outSize, parentR)
    decreases q0.leafMode, 2
  {
    hide Search;
    q := q0;
    ghost var goal := Collect(c, t, q0, numrep, if t.stable then 0 else outpos0, outSize, parentR);
    var count := outSize;
    var rep := if t.stable then 0 else outpos0;
    while rep < numrep && count > 0
      invariant ws.Valid(c) && Asks(c, q) && q.leafMode == q0.leafMode
      invariant Collect(c, t, q, numrep, rep, count, parentR) == goal
      decreases numrep - rep
    {
      var ftotal, retryDescent := 0, true;
      var got := None;
      while retryDescent
        invariant ws.Valid(c)
        invariant Search(c, t, q, q.top, rep + parentR, 0, 0) ==
                  if retryDescent then Search(c, t, q, q.top, rep + parentR, ftotal, 0) else got
        decreases retryDescent, Slack(t.tries, ftotal)
      {
        retryDescent, got, ftotal := DescendOnce(c, t, ws, q, rep + parentR, ftotal);
      }
      if got.Some? {
        q := Extend(q, got.value);
        count := count - 1;
      }
      rep := rep + 1;
    }
  }
}
