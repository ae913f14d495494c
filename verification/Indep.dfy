/** `crush_choose_indep`: breadth-first, positionally stable placement.  The window of
    output slots starts at absolute position `outpos`. */
module Indep {
  import opened CrushTypes
  import opened CrushMaps
  import opened Firstn

  datatype Job = Job(top: Bucket, kind: int, leafMode: bool, numrep: int, outpos: nat,
                     tries: nat, recurseTries: nat, parentR: nat)

  /** The output windows and the count of slots still undefined. */
  datatype Slots = Slots(out: seq<int>, out2: seq<int>, left: int)

  /** The result of one descent for one slot; `mark` is what a failed attempt leaves in `out2`. */
  datatype Outcome = Fail(mark: Option<int>) | Nothing | Put(item: int, leaf: int)

  ghost predicate JobOk(c: Context, j: Job) {
    Ok(c) && InMap(c.m, j.top) && j.numrep > 0 && c.m.maxDevices <= ITEM_UNDEF
  }

  /** The rank drawn at; uniform buckets whose size `numrep` divides step differently. */
  function DrawRank(j: Job, b: Bucket, rep: nat, ftotal: nat): nat
    requires j.numrep > 0
  {
    rep + j.parentR +
    (if b.alg.Uniform? && |b.items| % j.numrep == 0 then (j.numrep + 1) * ftotal else j.numrep * ftotal)
  }

  function LeafJob(j: Job, b: Bucket, rep: nat, r: nat): Job {
    Job(b, 0, false, j.numrep, rep, j.recurseTries, 0, r)
  }

  /** One slot's descent through the intervening buckets. */
  ghost function Place(c: Context, j: Job, out: seq<int>, b: Bucket, rep: nat, ftotal: nat): (o: Outcome)
    requires JobOk(c, j) && InMap(c.m, b)
    decreases j.leafMode, 1, Rank(c.m, b)
  {
    if b.items == [] then Fail(None)
    else
      var r := DrawRank(j, b, rep, ftotal);
      var item := BucketChoose(c, b, r, j.outpos);
      if item >= c.m.maxDevices then Nothing
      else if KindOf(c.m, item) != j.kind then
        if item >= 0 then Nothing else Place(c, j, out, Get(c.m, item), rep, ftotal)
      else Accepted(c, j, out, item, rep, r)
  }

  /** The checks on an item of the right type: collision, leaf, out. */
  ghost function Accepted(c: Context, j: Job, out: seq<int>, item: int, rep: nat, r: nat): (o: Outcome)
    requires JobOk(c, j) && (item < 0 ==> Has(c.m, item))
    decreases j.leafMode, 0
  {
    if item in out then Fail(None)
    else
      var leaf := if !j.leafMode || item >= 0 then item else Run(c, LeafJob(j, Get(c.m, item), rep, r), 1).out[0];
      if leaf == ITEM_NONE then Fail(Some(ITEM_NONE))
      else if item >= 0 && IsOut(c, item) then Fail(if j.leafMode then Some(leaf) else None)
      else Put(item, leaf)
  }

  function Apply(j: Job, s: Slots, i: nat, o: Outcome): (n: Slots)
    requires i < |s.out| == |s.out2|
    ensures |n.out| == |n.out2| == |s.out|
  {
    match o
    case Fail(mark) => if mark.Some? then s.(out2 := s.out2[i := mark.value]) else s
    case Nothing =>
      Slots(s.out[i := ITEM_NONE], if j.leafMode then s.out2[i := ITEM_NONE] else s.out2, s.left - 1)
    case Put(item, leaf) =>
      Slots(s.out[i := item], if j.leafMode then s.out2[i := leaf] else s.out2, s.left - 1)
  }

  /** One pass over the window, from slot `i` on. */
  ghost function Round(c: Context, j: Job, s: Slots, ftotal: nat, i: nat): (n: Slots)
    requires JobOk(c, j) && i <= |s.out| == |s.out2|
    ensures |n.out| == |n.out2| == |s.out|
    decreases j.leafMode, 2, |s.out| - i
  {
    if i == |s.out| then s
    else if s.out[i] != ITEM_UNDEF then Round(c, j, s, ftotal, i + 1)
    else Round(c, j, Apply(j, s, i, Place(c, j, s.out, j.top, j.outpos + i, ftotal)), ftotal, i + 1)
  }

  ghost function Rounds(c: Context, j: Job, s: Slots, ftotal: nat): (n: Slots)
    requires JobOk(c, j) && |s.out| == |s.out2|
    ensures |n.out| == |n.out2| == |s.out|
    decreases j.leafMode, 3, Slack(j.tries, ftotal)
  {
    if s.left > 0 && ftotal < j.tries then Rounds(c, j, Round(c, j, s, ftotal, 0), ftotal + 1) else s
  }

  function Blank(n: nat): Slots {
    Slots(seq(n, _ => ITEM_UNDEF), seq(n, _ => ITEM_UNDEF), n)
  }

  function Settle(s: seq<int>): (t: seq<int>)
    ensures |t| == |s|
    ensures forall i :: 0 <= i < |s| ==> t[i] == if s[i] == ITEM_UNDEF then ITEM_NONE else s[i]
  {
    seq(|s|, i requires 0 <= i < |s| => if s[i] == ITEM_UNDEF then ITEM_NONE else s[i])
  }

  /** The whole call, for `n` slots. */
  ghost function Run(c: Context, j: Job, n: nat): (s: Slots)
    requires JobOk(c, j)
    ensures |s.out| == |s.out2| == n
    decreases j.leafMode, 4
  {
    var s := Rounds(c, j, Blank(n), 0);
    Slots(Settle(s.out), Settle(s.out2), s.left)
  }

  /* ---- what it guarantees ---- */

  function Undefined(out: seq<int>): nat {
    if out == [] then 0 else (if out[|out| - 1] == ITEM_UNDEF then 1 else 0) + Undefined(out[..|out| - 1])
  }

  lemma {:induction false} UndefinedUpdate(out: seq<int>, i: nat, v: int)
    requires i < |out| && out[i] == ITEM_UNDEF && v != ITEM_UNDEF
    ensures Undefined(out[i := v]) == Undefined(out) - 1
  {
    var n := |out| - 1;
    if i < n {
      UndefinedUpdate(out[..n], i, v);
      assert out[i := v][..n] == out[..n][i := v];
    } else {
      assert out[i := v][..n] == out[..n];
    }
  }

  lemma {:induction false} UndefinedBlank(n: nat)
    ensures Undefined(seq(n, _ => ITEM_UNDEF)) == n
  {
    if n > 0 {
      UndefinedBlank(n - 1);
      assert seq(n, _ => ITEM_UNDEF)[..n - 1] == seq(n - 1, _ => ITEM_UNDEF);
    }
  }

  predicate Placed(v: int) {
    v != ITEM_UNDEF && v != ITEM_NONE
  }

  ghost predicate GoodItem(c: Context, j: Job, item: int)
    requires JobOk(c, j)
  {
    && item < c.m.maxDevices && (item < 0 ==> Has(c.m, item)) && KindOf(c.m, item) == j.kind
    && Under(c.m, j.top, item)
    && (item >= 0 ==> !IsOut(c, item))
  }

  ghost predicate GoodLeaf(c: Context, item: int, leaf: int)
    requires WellFormed(c.m)
  {
    0 <= leaf < c.m.maxDevices && !IsOut(c, leaf) && LeafBelongs(c, item, leaf)
  }

  /** A device below the top bucket that was turned down because it is out. */
  ghost predicate Rejected(c: Context, j: Job, leaf: int)
    requires JobOk(c, j)
  {
    0 <= leaf < c.m.maxDevices && Under(c.m, j.top, leaf) && IsOut(c, leaf)
  }

  /** What a failed attempt leaves in `out2`: a search for devices leaves the device it turned
      down, a search for buckets leaves nothing. */
  ghost predicate MarkOk(c: Context, j: Job, mark: int)
    requires JobOk(c, j)
  {
    if j.kind == 0 then Rejected(c, j, mark) else mark == ITEM_NONE
  }

  /** The leaf of a slot follows its item. */
  ghost predicate LeafFollows(c: Context, j: Job, item: int, leaf: int)
    requires JobOk(c, j)
  {
    if item == ITEM_UNDEF then leaf == ITEM_UNDEF || MarkOk(c, j, leaf)
    else if item == ITEM_NONE then leaf == ITEM_NONE
    else GoodLeaf(c, item, leaf)
  }

  /** The invariant of the rounds. */
  ghost predicate Good(c: Context, j: Job, s: Slots)
    requires JobOk(c, j)
  {
    && |s.out| == |s.out2|
    && s.left == Undefined(s.out)
    && (forall i :: 0 <= i < |s.out| && Placed(s.out[i]) ==> GoodItem(c, j, s.out[i]))
    && (forall i, k :: 0 <= i < k < |s.out| && Placed(s.out[i]) ==> s.out[i] != s.out[k])
    && (j.leafMode ==> forall i :: 0 <= i < |s.out| ==> LeafFollows(c, j, s.out[i], s.out2[i]))
  }

  ghost predicate GoodOutcome(c: Context, j: Job, out: seq<int>, o: Outcome)
    requires JobOk(c, j)
  {
    match o
    case Fail(mark) =>
      mark.Some? && j.leafMode ==> MarkOk(c, j, mark.value)
    case Nothing => true
    case Put(item, leaf) =>
      && GoodItem(c, j, item) && item !in out
      && (j.leafMode ==> GoodLeaf(c, item, leaf))
  }

  lemma {:induction false} PlaceSound(c: Context, j: Job, out: seq<int>, b: Bucket, rep: nat, ftotal: nat)
    requires JobOk(c, j) && InMap(c.m, b) && Reaches(c, j.top, b)
    ensures GoodOutcome(c, j, out, Place(c, j, out, b, rep, ftotal))
    decreases j.leafMode, 0, Rank(c.m, b)
  {
    if b.items != [] {
      var r := DrawRank(j, b, rep, ftotal);
      var item := BucketChoose(c, b, r, j.outpos);
      ItemReached(c, j, b, item);
      if item < c.m.maxDevices {
        if KindOf(c.m, item) != j.kind {
          if item < 0 {
            PlaceSound(c, j, out, Get(c.m, item), rep, ftotal);
          }
        } else if j.leafMode && item < 0 {
          LeafRunSound(c, j, item, rep, r);
        }
      }
    }
  }

  lemma ItemReached(c: Context, j: Job, b: Bucket, item: int)
    requires JobOk(c, j) && InMap(c.m, b) && Reaches(c, j.top, b) && item in b.items
    ensures Under(c.m, j.top, item) && (item < 0 ==> Has(c.m, item) && InMap(c.m, Get(c.m, item)))
  {
    if item < 0 {
      ChildInMap(c.m, b, item);
    }
    assert Under(c.m, b, item);
    if b != j.top {
      UnderIsTransitive(c.m, j.top, b.id, item);
    }
  }

  lemma {:induction false} LeafRunSound(c: Context, j: Job, item: int, rep: nat, r: nat)
    requires JobOk(c, j) && j.leafMode && item < 0 && Has(c.m, item)
    ensures var leaf := Run(c, LeafJob(j, Get(c.m, item), rep, r), 1).out[0];
            leaf == ITEM_NONE || GoodLeaf(c, item, leaf)
    decreases true, 0, 0
  {
    RunSound(c, LeafJob(j, Get(c.m, item), rep, r), 1);
  }

  lemma MarkKeepsGood(c: Context, j: Job, s: Slots, i: nat, mark: int)
    requires JobOk(c, j) && Good(c, j, s) && i < |s.out| && s.out[i] == ITEM_UNDEF
    requires GoodOutcome(c, j, s.out, Fail(Some(mark)))
    ensures Good(c, j, s.(out2 := s.out2[i := mark]))
  {
    var n := s.(out2 := s.out2[i := mark]);
    if j.leafMode {
      assert forall k :: 0 <= k < |n.out| && k != i ==> LeafFollows(c, j, s.out[k], s.out2[k]);
    }
  }

  lemma DecideKeepsGood(c: Context, j: Job, s: Slots, i: nat, item: int, leaf: int)
    requires JobOk(c, j) && Good(c, j, s) && i < |s.out| && s.out[i] == ITEM_UNDEF
    requires item == leaf == ITEM_NONE || GoodOutcome(c, j, s.out, Put(item, leaf))
    ensures Good(c, j, Slots(s.out[i := item], if j.leafMode then s.out2[i := leaf] else s.out2, s.left - 1))
  {
    UndefinedUpdate(s.out, i, item);
    if j.leafMode {
      assert forall k :: 0 <= k < |s.out| && k != i ==> LeafFollows(c, j, s.out[k], s.out2[k]);
    }
  }

  lemma ApplyKeepsGood(c: Context, j: Job, s: Slots, i: nat, o: Outcome)
    requires JobOk(c, j) && Good(c, j, s) && i < |s.out| && s.out[i] == ITEM_UNDEF
    requires GoodOutcome(c, j, s.out, o)
    ensures Good(c, j, Apply(j, s, i, o))
  {
    match o
    case Fail(mark) =>
      if mark.Some? {
        MarkKeepsGood(c, j, s, i, mark.value);
      }
    case Nothing => DecideKeepsGood(c, j, s, i, ITEM_NONE, ITEM_NONE);
    case Put(item, leaf) => DecideKeepsGood(c, j, s, i, item, leaf);
  }

  lemma {:induction false} RoundSound(c: Context, j: Job, s: Slots, ftotal: nat, i: nat)
    requires JobOk(c, j) && Good(c, j, s) && i <= |s.out|
    ensures Good(c, j, Round(c, j, s, ftotal, i))
    decreases j.leafMode, 2, |s.out| - i
  {
    if i < |s.out| {
      if s.out[i] != ITEM_UNDEF {
        RoundSound(c, j, s, ftotal, i + 1);
      } else {
        var o := Place(c, j, s.out, j.top, j.outpos + i, ftotal);
        PlaceSound(c, j, s.out, j.top, j.outpos + i, ftotal);
        ApplyKeepsGood(c, j, s, i, o);
        RoundSound(c, j, Apply(j, s, i, o), ftotal, i + 1);
      }
    }
  }

  lemma {:induction false} RoundsSound(c: Context, j: Job, s: Slots, ftotal: nat)
    requires JobOk(c, j) && Good(c, j, s)
    ensures Good(c, j, Rounds(c, j, s, ftotal))
    decreases j.leafMode, 3, Slack(j.tries, ftotal)
  {
    if s.left > 0 && ftotal < j.tries {
      RoundSound(c, j, s, ftotal, 0);
      RoundsSound(c, j, Round(c, j, s, ftotal, 0), ftotal + 1);
    }
  }

  /** What `crush_choose_indep` promises of a whole call. */
  ghost predicate GoodResult(c: Context, j: Job, s: Slots)
    requires JobOk(c, j)
  {
    && |s.out| == |s.out2|
    && (forall i :: 0 <= i < |s.out| ==> s.out[i] != ITEM_UNDEF)
    && (forall i :: 0 <= i < |s.out| && s.out[i] != ITEM_NONE ==> GoodItem(c, j, s.out[i]))
    && (forall i, k :: 0 <= i < k < |s.out| && s.out[i] != ITEM_NONE ==> s.out[i] != s.out[k])
    && (j.leafMode ==> forall i :: 0 <= i < |s.out| ==>
          if s.out[i] != ITEM_NONE then s.out2[i] != ITEM_NONE && GoodLeaf(c, s.out[i], s.out2[i])
          else s.out2[i] == ITEM_NONE || (j.kind == 0 && Rejected(c, j, s.out2[i])))
  }

  /** The call ends with no undefined slot, all placed items distinct and of the requested
      type; with chooseleaf every placed item has a leaf, a device below it (or the item itself)
      that is not out, and an empty slot has none, except that a search for devices may leave
      behind one that is out.  `left` counts the slots that were never decided. */
  lemma {:induction false} RunSound(c: Context, j: Job, n: nat)
    requires JobOk(c, j)
    ensures GoodResult(c, j, Run(c, j, n))
    ensures Run(c, j, n).left == Undefined(Rounds(c, j, Blank(n), 0).out)
    decreases j.leafMode, 4
  {
    UndefinedBlank(n);
    RoundsSound(c, j, Blank(n), 0);
  }

  /** Leaves are not compared with each other, so they are distinct when no device lies
      below two placed items. */
  lemma LeavesDistinctIfDisjoint(c: Context, j: Job, n: nat, i: nat, k: nat)
    requires JobOk(c, j) && j.leafMode && j.kind != 0 && i < k < n
    requires var s := Run(c, j, n);
             && s.out[i] < 0 && s.out[k] < 0 && Has(c.m, s.out[i]) && Has(c.m, s.out[k])
             && forall d :: d >= 0 ==> !(Under(c.m, Get(c.m, s.out[i]), d) && Under(c.m, Get(c.m, s.out[k]), d))
    ensures Run(c, j, n).out2[i] != Run(c, j, n).out2[k]
  {
    RunSound(c, j, n);
    var s := Run(c, j, n);
    assert GoodLeaf(c, s.out[i], s.out2[i]) && GoodLeaf(c, s.out[k], s.out2[k]);
  }

  /** Items and leaves are absent together. */
  ghost predicate Paired(s: Slots) {
    |s.out| == |s.out2| && forall i :: 0 <= i < |s.out| ==> (s.out[i] == ITEM_NONE <==> s.out2[i] == ITEM_NONE)
  }

  /** They are for every type but 0, and for type 0 when no device below the top bucket is out;
      a slot that breaks the pairing names such a device. */
  lemma PairedUnlessRejected(c: Context, j: Job, n: nat)
    requires JobOk(c, j) && j.leafMode
    ensures j.kind != 0 ==> Paired(Run(c, j, n))
    ensures (forall d :: 0 <= d < c.m.maxDevices && Under(c.m, j.top, d) ==> !IsOut(c, d)) ==> Paired(Run(c, j, n))
    ensures !Paired(Run(c, j, n)) ==> exists i :: 0 <= i < n && Run(c, j, n).out[i] == ITEM_NONE
                                                  && Rejected(c, j, Run(c, j, n).out2[i])
    ensures j.kind == 0 ==>
              forall i :: 0 <= i < n && Run(c, j, n).out[i] != ITEM_NONE ==> Run(c, j, n).out2[i] == Run(c, j, n).out[i]
  {
    hide Run;
    RunSound(c, j, n);
    var s := Run(c, j, n);
    forall i | 0 <= i < n && s.out[i] != ITEM_NONE && j.kind == 0 ensures s.out2[i] == s.out[i] {
      assert GoodItem(c, j, s.out[i]) && GoodLeaf(c, s.out[i], s.out2[i]);
    }
  }

  /** With type 0 the pairing of `out` and `out2` fails: a device that is rejected as out is
      still left behind in `out2`. */
  lemma TypeZeroLeavesRejectedLeaf() returns (c: Context, j: Job)
    ensures JobOk(c, j) && j.leafMode && j.kind == 0
    ensures Run(c, j, 1).out[0] == ITEM_NONE && Run(c, j, 1).out2[0] != ITEM_NONE
  {
    var o := Oracle((_, _) => 0, (_, _, _, _) => 0, (_, _, _, _, _) => 0, _ => 0);
    var b := Bucket(-1, 1, 0, 0x10000, [0], Straw2([0x10000]));
    var m := CrushMap([Some(b)], 1);
    c := Context(o, m, [0], 0, None);
    j := Job(b, 0, true, 1, 0, 1, 0, 0);
    RankIsEnough(m, [0]);
    var s0 := Blank(1);
    assert Place(c, j, s0.out, b, 0, 0) == Fail(Some(0));
    var s1 := Apply(j, s0, 0, Fail(Some(0)));
    assert Round(c, j, s0, 0, 0) == Round(c, j, s1, 0, 1) == s1;
    assert Rounds(c, j, s0, 0) == Rounds(c, j, s1, 1) == s1;
  }
}
