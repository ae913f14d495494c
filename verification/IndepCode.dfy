/** The loops of `crush_choose_indep`, with their shared permutation workspace, proved to
    compute the functions of module Indep. */
module IndepCode {
  import opened CrushTypes
  import opened CrushMaps
  import opened Firstn
  import opened Indep
  import FirstnCode

  /** The `for (;;)` descent for one slot. */
  method PlaceOne(c: Context, j: Job, ws: Workspace, out: seq<int>, rep: nat, ftotal: nat) returns (o: Outcome)
    requires JobOk(c, j) && ws.Valid(c)
    modifies ws.Repr
    ensures ws.Valid(c)
    ensures o == Place(c, j, out, j.top, rep, ftotal)
    decreases j.leafMode, 2
  {
    ghost var goal := Place(c, j, out, j.top, rep, ftotal);
    var b := j.top;
    var done := None;
    while done.None?
      invariant ws.Valid(c) && InMap(c.m, b)
      invariant goal == if done.Some? then done.value else Place(c, j, out, b, rep, ftotal)
      decreases done.None?, Rank(c.m, b)
    {
      done, b := PlaceStep(c, j, ws, out, b, rep, ftotal);
    }
    o := done.value;
  }

  /** One level of the descent: an outcome, or the bucket to go on with. */
  method PlaceStep(c: Context, j: Job, ws: Workspace, out: seq<int>, b: Bucket, rep: nat, ftotal: nat)
    returns (done: Option<Outcome>, next: Bucket)
    requires JobOk(c, j) && ws.Valid(c) && InMap(c.m, b)
    modifies ws.Repr
    ensures ws.Valid(c) && InMap(c.m, next)
    ensures done.None? ==> Rank(c.m, next) < Rank(c.m, b)
    ensures Place(c, j, out, b, rep, ftotal) ==
            if done.Some? then done.value else Place(c, j, out, next, rep, ftotal)
    decreases j.leafMode, 1
  {
    next := b;
    if b.items == [] {
      return Some(Fail(None)), b;
    }
    var r := DrawRank(j, b, rep, ftotal);
    var item := ChooseFrom(c, ws, b, r, j.outpos);
    if item >= c.m.maxDevices {
      return Some(Nothing), b;
    }
    if KindOf(c.m, item) != j.kind {
      if item >= 0 {
        return Some(Nothing), b;
      }
      return None, Get(c.m, item);
    }
    var o := Accept(c, j, ws, out, item, rep, r);
    done := Some(o);
  }

  /** The checks on an item of the right type. */
  method Accept(c: Context, j: Job, ws: Workspace, out: seq<int>, item: int, rep: nat, r: nat) returns (o: Outcome)
    requires JobOk(c, j) && ws.Valid(c) && (item < 0 ==> Has(c.m, item))
    modifies ws.Repr
    ensures ws.Valid(c)
    ensures o == Accepted(c, j, out, item, rep, r)
    decreases j.leafMode, 0
  {
    var collide := FirstnCode.Collides(out, item);
    if collide {
      return Fail(None);
    }
    var leaf := item;
    if j.leafMode && item < 0 {
      var s := ChooseIndep(c, LeafJob(j, Get(c.m, item), rep, r), ws, 1);
      leaf := s.out[0];
    }
    if leaf == ITEM_NONE {
      return Fail(Some(ITEM_NONE));
    }
    if item >= 0 && IsOut(c, item) {
      return Fail(if j.leafMode then Some(leaf) else None);
    }
    o := Put(item, leaf);
  }

  /** `crush_choose_indep` for `n` slots. */
  method ChooseIndep(c: Context, j: Job, ws: Workspace, n: nat) returns (s: Slots)
    requires JobOk(c, j) && ws.Valid(c)
    modifies ws.Repr
    ensures ws.Valid(c)
    ensures s == Run(c, j, n)
    decreases j.leafMode, 3
  {
    hide Place;
    s := Blank(n);
    var ftotal := 0;
    while s.left > 0 && ftotal < j.tries
      invariant ws.Valid(c) && |s.out| == |s.out2| == n
      invariant Rounds(c, j, s, ftotal) == Rounds(c, j, Blank(n), 0)
      decreases Slack(j.tries, ftotal)
    {
      ghost var s0 := s;
      for i := 0 to n
        invariant ws.Valid(c) && |s.out| == |s.out2| == n
        invariant Round(c, j, s, ftotal, i) == Round(c, j, s0, ftotal, 0)
      {
        if s.out[i] == ITEM_UNDEF {
          var o := PlaceOne(c, j, ws, s.out, j.outpos + i, ftotal);
          s := Apply(j, s, i, o);
        }
      }
      ftotal := ftotal + 1;
    }
    var out := SettleAll(s.out);
    var out2 := SettleAll(s.out2);
    s := Slots(out, out2, s.left);
  }

  /** The final loop: undefined slots become absent. */
  method SettleAll(s: seq<int>) returns (t: seq<int>)
    ensures t == Settle(s)
  {
    t := s;
    for i := 0 to |s|
      invariant |t| == |s|
      invariant forall k :: 0 <= k < i ==> t[k] == Settle(s)[k]
      invariant forall k :: i <= k < |s| ==> t[k] == s[k]
    {
      if t[i] == ITEM_UNDEF {
        t := t[i := ITEM_NONE];
      }
    }
  }
}
