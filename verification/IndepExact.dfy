/** Exactly what `crush_choose_indep` puts into its slots: pass after pass, each slot without a
    result takes what its own rank of the pass falls on, unless that is in a slot already. */
module IndepExact {
  import opened CrushTypes
  import opened CrushMaps
  import opened Indep

  /** Where a slot's way down ends in one pass; `r` is the rank of the last draw. */
  datatype Sink = On(item: int, r: nat) | Empty | Astray

  /** Slot `rep` draws in pass `f` at its number plus `f` strides; the stride is the number of
      slots, and one more in a uniform bucket that they divide. */
  ghost function Sinks(c: Context, j: Job, b: Bucket, rep: nat, f: nat): (s: Sink)
    requires JobOk(c, j) && InMap(c.m, b)
    ensures s.On? ==> s.item < c.m.maxDevices && (s.item < 0 ==> Has(c.m, s.item))
    decreases Rank(c.m, b)
  {
    if b.items == [] then Empty
    else
      var stride := if b.alg.Uniform? && |b.items| % j.numrep == 0 then j.numrep + 1 else j.numrep;
      var r := rep + j.parentR + Times(stride, f);
      var item := BucketChoose(c, b, r, j.outpos);
      if item >= c.m.maxDevices then Astray
      else if item >= 0 then if j.kind == 0 then On(item, r) else Astray
      else if Get(c.m, item).kind == j.kind then On(item, r)
      else Sinks(c, j, Get(c.m, item), rep, f)
  }

  function Times(stride: nat, f: nat): nat {
    stride * f
  }

  ghost function SlotSinks(c: Context, j: Job, i: nat, f: nat): (s: Sink)
    requires JobOk(c, j)
    ensures s.On? ==> s.item < c.m.maxDevices && (s.item < 0 ==> Has(c.m, s.item))
  {
    Sinks(c, j, j.top, j.outpos + i, f)
  }

  /** The device for an item: the item itself, or the one slot of a search below it. */
  ghost function LeafFor(c: Context, j: Job, i: nat, item: int, r: nat): int
    requires JobOk(c, j) && (item < 0 ==> Has(c.m, item))
  {
    if !j.leafMode || item >= 0 then item
    else Run(c, Job(Get(c.m, item), 0, false, j.numrep, j.outpos + i, j.recurseTries, 0, r), 1).out[0]
  }

  /** The item may be taken as far as its devices go. */
  ghost predicate Usable(c: Context, j: Job, i: nat, item: int, r: nat)
    requires JobOk(c, j) && (item < 0 ==> Has(c.m, item))
  {
    LeafFor(c, j, i, item, r) != ITEM_NONE && (item >= 0 ==> !IsOut(c, item))
  }

  /** Pass `f` comes to slot `k` before it comes, in pass `g`, to slot `i`. */
  predicate Earlier(f: nat, k: nat, g: nat, i: nat) {
    f < g || (f == g && k < i)
  }

  /** No slot that was decided earlier has the item. */
  ghost predicate Free(out: seq<int>, when: seq<nat>, i: nat, f: nat, item: int)
    requires |when| == |out|
  {
    forall k :: 0 <= k < |out| && out[k] == item ==> !Earlier(when[k], k, f, i)
  }

  /** Pass `f` leaves slot `i` undecided. */
  ghost predicate Misses(c: Context, j: Job, out: seq<int>, when: seq<nat>, i: nat, f: nat)
    requires JobOk(c, j) && |when| == |out|
  {
    match SlotSinks(c, j, i, f)
    case Empty => true
    case Astray => false
    case On(item, r) => !(Free(out, when, i, f, item) && Usable(c, j, i, item, r))
  }

  /** Pass `f` finds a new item for slot `i` and turns it down for its devices. */
  ghost predicate Refuses(c: Context, j: Job, out: seq<int>, when: seq<nat>, i: nat, f: nat)
    requires JobOk(c, j) && |when| == |out|
  {
    match SlotSinks(c, j, i, f)
    case On(item, r) => Free(out, when, i, f, item) && !Usable(c, j, i, item, r)
    case _ => false
  }

  /** The device of the last item that the first `n` passes turned down. */
  ghost function LastRefused(c: Context, j: Job, out: seq<int>, when: seq<nat>, i: nat, n: nat, none: int): int
    requires JobOk(c, j) && |when| == |out|
  {
    if n == 0 then none
    else if Refuses(c, j, out, when, i, n - 1) then
      var s := SlotSinks(c, j, i, n - 1);
      LeafFor(c, j, i, s.item, s.r)
    else LastRefused(c, j, out, when, i, n - 1, none)
  }

  /** Pass `when[i]` decides slot `i`: it takes the item, or is given up. */
  ghost predicate Decided(c: Context, j: Job, out: seq<int>, out2: seq<int>, when: seq<nat>, i: nat)
    requires JobOk(c, j) && i < |when| == |out| == |out2|
  {
    match SlotSinks(c, j, i, when[i])
    case Empty => false
    case Astray => out[i] == ITEM_NONE && (j.leafMode ==> out2[i] == ITEM_NONE)
    case On(item, r) =>
      && Free(out, when, i, when[i], item) && Usable(c, j, i, item, r)
      && out[i] == item && (j.leafMode ==> out2[i] == LeafFor(c, j, i, item, r))
  }

  /** Slot `i` is missed by all passes before `when[i]`, and decided by that one if it is one of
      the passes; otherwise it is empty, and its leaf is what was last turned down for it. */
  ghost predicate SlotFits(c: Context, j: Job, out: seq<int>, out2: seq<int>, when: seq<nat>, i: nat)
    requires JobOk(c, j) && i < |when| == |out| == |out2|
  {
    && when[i] <= j.tries && (forall f :: 0 <= f < when[i] ==> Misses(c, j, out, when, i, f))
    && if when[i] < j.tries then Decided(c, j, out, out2, when, i)
       else out[i] == ITEM_NONE && (j.leafMode ==> out2[i] == LastRefused(c, j, out, when, i, j.tries, ITEM_NONE))
  }

  ghost predicate Schedule(c: Context, j: Job, out: seq<int>, out2: seq<int>, when: seq<nat>)
    requires JobOk(c, j)
  {
    |when| == |out| == |out2| && forall i :: 0 <= i < |out| ==> SlotFits(c, j, out, out2, when, i)
  }

  /* ---- a schedule determines the slots ---- */

  /** What has been decided before slot `i` of pass `f` is the same in both. */
  ghost predicate Agree(out: seq<int>, when: seq<nat>, out': seq<int>, when': seq<nat>, f: nat, i: nat)
    requires |when| == |out| == |when'| == |out'|
  {
    forall k :: 0 <= k < |out| && (Earlier(when[k], k, f, i) || Earlier(when'[k], k, f, i)) ==>
      when[k] == when'[k] && out[k] == out'[k]
  }

  lemma AgreeNext(c: Context, j: Job, out: seq<int>, out2: seq<int>, when: seq<nat>,
                  out': seq<int>, out2': seq<int>, when': seq<nat>, f: nat, i: nat)
    requires JobOk(c, j) && Schedule(c, j, out, out2, when) && Schedule(c, j, out', out2', when')
    requires i < |out| == |out'| && f < j.tries && Agree(out, when, out', when', f, i)
    ensures Agree(out, when, out', when', f, i + 1)
  {
    hide SlotSinks, Usable;
    assert SlotFits(c, j, out, out2, when, i) && SlotFits(c, j, out', out2', when', i);
    forall item ensures Free(out, when, i, f, item) <==> Free(out', when', i, f, item) {
    }
    assert Misses(c, j, out, when, i, f) <==> Misses(c, j, out', when', i, f);
  }

  lemma {:induction false} AgreeUpTo(c: Context, j: Job, out: seq<int>, out2: seq<int>, when: seq<nat>,
                                     out': seq<int>, out2': seq<int>, when': seq<nat>, f: nat, i: nat)
    requires JobOk(c, j) && Schedule(c, j, out, out2, when) && Schedule(c, j, out', out2', when')
    requires i <= |out| == |out'| && f <= j.tries && (f == j.tries ==> i == 0)
    ensures Agree(out, when, out', when', f, i)
    decreases f, i
  {
    hide Schedule;
    ScheduleSizes(c, j, out, out2, when);
    ScheduleSizes(c, j, out', out2', when');
    if i > 0 {
      AgreeUpTo(c, j, out, out2, when, out', out2', when', f, i - 1);
      AgreeNext(c, j, out, out2, when, out', out2', when', f, i - 1);
    } else if f > 0 {
      AgreeUpTo(c, j, out, out2, when, out', out2', when', f - 1, |out|);
    }
  }

  lemma ScheduleSizes(c: Context, j: Job, out: seq<int>, out2: seq<int>, when: seq<nat>)
    requires JobOk(c, j) && Schedule(c, j, out, out2, when)
    ensures |when| == |out| == |out2|
  {
  }

  /** There is only one outcome that has a schedule. */
  lemma ScheduleUnique(c: Context, j: Job, out: seq<int>, out2: seq<int>, when: seq<nat>,
                       out': seq<int>, out2': seq<int>, when': seq<nat>)
    requires JobOk(c, j) && Schedule(c, j, out, out2, when) && Schedule(c, j, out', out2', when') && |out| == |out'|
    ensures out == out' && (j.leafMode ==> out2 == out2')
  {
    hide Misses, LastRefused, SlotSinks, Usable, Free;
    AgreeUpTo(c, j, out, out2, when, out', out2', when', j.tries, 0);
    forall i | 0 <= i < |out| ensures when[i] == when'[i] && out[i] == out'[i] {
      assert SlotFits(c, j, out, out2, when, i) && SlotFits(c, j, out', out2', when', i);
    }
    assert when == when' && out == out';
    forall i | 0 <= i < |out| ensures j.leafMode ==> out2[i] == out2'[i] {
      assert SlotFits(c, j, out, out2, when, i) && SlotFits(c, j, out', out2', when', i);
    }
  }

  /* ---- the search follows one ---- */

  /** One way down. */
  lemma {:induction false} PlaceIsSink(c: Context, j: Job, out: seq<int>, b: Bucket, rep: nat, f: nat)
    requires JobOk(c, j) && InMap(c.m, b)
    ensures Place(c, j, out, b, rep, f) ==
            match Sinks(c, j, b, rep, f)
            case Empty => Fail(None)
            case Astray => Nothing
            case On(item, r) => Accepted(c, j, out, item, rep, r)
    decreases Rank(c.m, b)
  {
    hide Accepted;
    if b.items != [] {
      var r := DrawRank(j, b, rep, f);
      var item := BucketChoose(c, b, r, j.outpos);
      if item < 0 && item < c.m.maxDevices && Get(c.m, item).kind != j.kind {
        PlaceIsSink(c, j, out, Get(c.m, item), rep, f);
      }
    }
  }

  /** Passes up to slot `i` of pass `f` are done; an undecided slot has `tries` for its pass. */
  function PassesDone(f: nat, i: nat, k: nat): nat {
    if k < i then f + 1 else f
  }

  ghost predicate SoFar(c: Context, j: Job, s: Slots, when: seq<nat>, f: nat, i: nat, k: nat)
    requires JobOk(c, j) && k < |when| == |s.out| == |s.out2|
  {
    if s.out[k] == ITEM_UNDEF then
      && when[k] == j.tries && (forall g: nat :: Earlier(g, k, f, i) ==> Misses(c, j, s.out, when, k, g))
      && (j.leafMode ==> s.out2[k] == LastRefused(c, j, s.out, when, k, PassesDone(f, i, k), ITEM_UNDEF))
    else
      && Earlier(when[k], k, f, i) && when[k] < j.tries && Decided(c, j, s.out, s.out2, when, k)
      && forall g :: 0 <= g < when[k] ==> Misses(c, j, s.out, when, k, g)
  }

  ghost predicate Going(c: Context, j: Job, s: Slots, when: seq<nat>, f: nat, i: nat)
    requires JobOk(c, j)
  {
    |when| == |s.out| == |s.out2| && forall k :: 0 <= k < |s.out| ==> SoFar(c, j, s, when, f, i, k)
  }

  /** What comes later does not matter. */
  lemma LaterSlot(out: seq<int>, when: seq<nat>, i: nat, f: nat, v: int, tries: nat, k: nat, g: nat, item: int)
    requires i < |when| == |out| && out[i] == ITEM_UNDEF && when[i] == tries && f < tries && item < ITEM_UNDEF
    requires Earlier(g, k, f, i) || (g == f && k == i)
    ensures Free(out[i := v], when[i := f], k, g, item) <==> Free(out, when, k, g, item)
  {
    var o, w := out[i := v], when[i := f];
    forall m | 0 <= m < |out| && m != i ensures o[m] == out[m] && w[m] == when[m] {
    }
    assert !Earlier(f, i, g, k);
  }

  lemma MissesStay(c: Context, j: Job, out: seq<int>, when: seq<nat>, i: nat, f: nat, v: int, k: nat, g: nat)
    requires JobOk(c, j) && i < |when| == |out| && out[i] == ITEM_UNDEF && when[i] == j.tries && f < j.tries
    requires Earlier(g, k, f, i) || (g == f && k == i)
    ensures Misses(c, j, out[i := v], when[i := f], k, g) <==> Misses(c, j, out, when, k, g)
  {
    hide SlotSinks, Usable, Free;
    var s := SlotSinks(c, j, k, g);
    if s.On? {
      LaterSlot(out, when, i, f, v, j.tries, k, g, s.item);
    }
  }

  lemma RefusesStay(c: Context, j: Job, out: seq<int>, when: seq<nat>, i: nat, f: nat, v: int, k: nat, g: nat)
    requires JobOk(c, j) && i < |when| == |out| && out[i] == ITEM_UNDEF && when[i] == j.tries && f < j.tries
    requires Earlier(g, k, f, i)
    ensures Refuses(c, j, out[i := v], when[i := f], k, g) <==> Refuses(c, j, out, when, k, g)
  {
    hide SlotSinks, Usable, Free;
    var s := SlotSinks(c, j, k, g);
    if s.On? {
      LaterSlot(out, when, i, f, v, j.tries, k, g, s.item);
    }
  }

  lemma {:induction false} LastRefusedStays(c: Context, j: Job, out: seq<int>, when: seq<nat>, i: nat, f: nat, v: int,
                                            k: nat, n: nat)
    requires JobOk(c, j) && i < |when| == |out| && out[i] == ITEM_UNDEF && when[i] == j.tries && f < j.tries
    requires k != i && n <= PassesDone(f, i, k)
    ensures LastRefused(c, j, out[i := v], when[i := f], k, n, ITEM_UNDEF) ==
            LastRefused(c, j, out, when, k, n, ITEM_UNDEF)
  {
    hide Refuses, LeafFor;
    if n > 0 {
      RefusesStay(c, j, out, when, i, f, v, k, n - 1);
      LastRefusedStays(c, j, out, when, i, f, v, k, n - 1);
    }
  }

  /** A collision is an item that an earlier decision put into a slot. */
  lemma CollidesIff(c: Context, j: Job, s: Slots, when: seq<nat>, f: nat, i: nat, item: int)
    requires JobOk(c, j) && Going(c, j, s, when, f, i) && item < ITEM_UNDEF && f < j.tries
    ensures item in s.out <==> !Free(s.out, when, i, f, item)
  {
    hide Misses, Decided;
    if item in s.out {
      var k :| 0 <= k < |s.out| && s.out[k] == item;
      assert SoFar(c, j, s, when, f, i, k);
    }
  }

  /** One slot of a pass. */
  lemma SlotStep(c: Context, j: Job, s: Slots, when: seq<nat>, f: nat, i: nat) returns (w: seq<nat>)
    requires JobOk(c, j) && Going(c, j, s, when, f, i) && i < |s.out| && f < j.tries && s.out[i] == ITEM_UNDEF
    ensures Going(c, j, Apply(j, s, i, Place(c, j, s.out, j.top, j.outpos + i, f)), w, f, i + 1)
  {
    hide Sinks, Run, Place;
    PlaceIsSink(c, j, s.out, j.top, j.outpos + i, f);
    var o := Place(c, j, s.out, j.top, j.outpos + i, f);
    var n := Apply(j, s, i, o);
    assert SoFar(c, j, s, when, f, i, i);
    var sink := SlotSinks(c, j, i, f);
    if sink.On? {
      CollidesIff(c, j, s, when, f, i, sink.item);
    }
    if o.Fail? {
      w := when;
      FailedStep(c, j, s, n, when, f, i);
    } else {
      w := when[i := f];
      if sink.On? {
        LaterSlot(s.out, when, i, f, n.out[i], j.tries, i, f, sink.item);
      }
      DecidedStep(c, j, s, n, when, f, i);
    }
  }

  lemma FailedStep(c: Context, j: Job, s: Slots, n: Slots, when: seq<nat>, f: nat, i: nat)
    requires JobOk(c, j) && Going(c, j, s, when, f, i) && i < |s.out| && s.out[i] == ITEM_UNDEF
    requires n.out == s.out && |n.out2| == |s.out2| && forall k :: 0 <= k < |s.out| && k != i ==> n.out2[k] == s.out2[k]
    requires Misses(c, j, s.out, when, i, f)
    requires j.leafMode ==>
               n.out2[i] == if !Refuses(c, j, s.out, when, i, f) then s.out2[i]
                            else LeafFor(c, j, i, SlotSinks(c, j, i, f).item, SlotSinks(c, j, i, f).r)
    ensures Going(c, j, n, when, f, i + 1)
  {
    hide SlotSinks, Usable, Free, Misses, Refuses, LeafFor;
    var next := i + 1;
    forall k | 0 <= k < |s.out| ensures SoFar(c, j, n, when, f, next, k) {
      assert SoFar(c, j, s, when, f, i, k);
    }
  }

  lemma DecidedStep(c: Context, j: Job, s: Slots, n: Slots, when: seq<nat>, f: nat, i: nat)
    requires JobOk(c, j) && Going(c, j, s, when, f, i) && i < |s.out| && s.out[i] == ITEM_UNDEF && f < j.tries
    requires |n.out| == |s.out| == |n.out2| && n.out == s.out[i := n.out[i]] && n.out[i] != ITEM_UNDEF
    requires forall k :: 0 <= k < |s.out| && k != i ==> n.out2[k] == s.out2[k]
    requires Decided(c, j, n.out, n.out2, when[i := f], i)
    ensures Going(c, j, n, when[i := f], f, i + 1)
  {
    hide SlotSinks, Usable, Free, Misses, LastRefused;
    var w := when[i := f];
    assert SoFar(c, j, s, when, f, i, i);
    forall k: nat, g: nat | k < |s.out| && (Earlier(g, k, f, i) || (g == f && k == i))
      ensures Misses(c, j, n.out, w, k, g) <==> Misses(c, j, s.out, when, k, g)
    {
      MissesStay(c, j, s.out, when, i, f, n.out[i], k, g);
    }
    var next := i + 1;
    forall k | 0 <= k < |s.out| ensures SoFar(c, j, n, w, f, next, k) {
      assert SoFar(c, j, s, when, f, i, k);
      if k != i && s.out[k] != ITEM_UNDEF {
        DecidedStays(c, j, s, n, when, f, i, k);
      } else if k != i {
        LastRefusedStays(c, j, s.out, when, i, f, n.out[i], k, PassesDone(f, i, k));
      }
    }
  }

  lemma DecidedStays(c: Context, j: Job, s: Slots, n: Slots, when: seq<nat>, f: nat, i: nat, k: nat)
    requires JobOk(c, j) && i < |s.out| == |s.out2| == |when|
    requires s.out[i] == ITEM_UNDEF && when[i] == j.tries && f < j.tries
    requires |n.out| == |s.out| == |n.out2| && n.out == s.out[i := n.out[i]]
    requires k < |s.out| && k != i && n.out2[k] == s.out2[k]
    requires Earlier(when[k], k, f, i) && Decided(c, j, s.out, s.out2, when, k)
    ensures Decided(c, j, n.out, n.out2, when[i := f], k)
  {
    hide SlotSinks, Usable, Free;
    var sink := SlotSinks(c, j, k, when[k]);
    if sink.On? {
      LaterSlot(s.out, when, i, f, n.out[i], j.tries, k, when[k], sink.item);
    }
  }

  /** A slot that is decided already is passed over. */
  lemma SkipStep(c: Context, j: Job, s: Slots, when: seq<nat>, f: nat, i: nat)
    requires JobOk(c, j) && Going(c, j, s, when, f, i) && i < |s.out| && s.out[i] != ITEM_UNDEF
    ensures Going(c, j, s, when, f, i + 1)
  {
    hide Misses, Decided, LastRefused;
    var next := i + 1;
    forall k | 0 <= k < |s.out| ensures SoFar(c, j, s, when, f, next, k) {
      assert SoFar(c, j, s, when, f, i, k);
    }
  }

  lemma {:induction false} RoundStep(c: Context, j: Job, s: Slots, when: seq<nat>, f: nat, i: nat) returns (w: seq<nat>)
    requires JobOk(c, j) && Going(c, j, s, when, f, i) && i <= |s.out| && f < j.tries
    ensures Going(c, j, Round(c, j, s, f, i), w, f + 1, 0)
    decreases |s.out| - i
  {
    hide Place, Going;
    GoingSizes(c, j, s, when, f, i);
    if i == |s.out| {
      w := when;
      NextPass(c, j, s, when, f);
    } else if s.out[i] != ITEM_UNDEF {
      SkipStep(c, j, s, when, f, i);
      w := RoundStep(c, j, s, when, f, i + 1);
    } else {
      w := SlotStep(c, j, s, when, f, i);
      w := RoundStep(c, j, Apply(j, s, i, Place(c, j, s.out, j.top, j.outpos + i, f)), w, f, i + 1);
    }
  }

  lemma GoingSizes(c: Context, j: Job, s: Slots, when: seq<nat>, f: nat, i: nat)
    requires JobOk(c, j) && Going(c, j, s, when, f, i)
    ensures |when| == |s.out| == |s.out2|
  {
  }

  lemma NextPass(c: Context, j: Job, s: Slots, when: seq<nat>, f: nat)
    requires JobOk(c, j) && Going(c, j, s, when, f, |s.out|)
    ensures Going(c, j, s, when, f + 1, 0)
  {
    hide Misses, Decided, LastRefused;
    var next := f + 1;
    forall k | 0 <= k < |s.out| ensures SoFar(c, j, s, when, next, 0, k) {
      assert SoFar(c, j, s, when, f, |s.out|, k);
    }
  }

  lemma {:induction false} RoundsStep(c: Context, j: Job, s: Slots, when: seq<nat>, f: nat)
    returns (w: seq<nat>, g: nat)
    requires JobOk(c, j) && Good(c, j, s) && Going(c, j, s, when, f, 0) && f <= j.tries
    ensures var e := Rounds(c, j, s, f);
            Good(c, j, e) && Going(c, j, e, w, g, 0) && g <= j.tries && (e.left > 0 ==> g == j.tries)
    decreases j.tries - f
  {
    hide Round, Going, Good;
    if s.left > 0 && f < j.tries {
      GoingSizes(c, j, s, when, f, 0);
      var n := RoundStep(c, j, s, when, f, 0);
      RoundSound(c, j, s, f, 0);
      w, g := RoundsStep(c, j, Round(c, j, s, f, 0), n, f + 1);
    } else {
      w, g := when, f;
    }
  }

  lemma {:induction false} NoneUndefined(out: seq<int>, k: nat)
    requires Undefined(out) == 0 && k < |out|
    ensures out[k] != ITEM_UNDEF
  {
    if k < |out| - 1 {
      NoneUndefined(out[..|out| - 1], k);
    }
  }

  /** Emptying the undecided slots frees no item and takes none. */
  lemma SettleMisses(c: Context, j: Job, out: seq<int>, when: seq<nat>, k: nat, f: nat)
    requires JobOk(c, j) && |when| == |out|
    ensures Misses(c, j, Settle(out), when, k, f) <==> Misses(c, j, out, when, k, f)
  {
    hide SlotSinks, Usable;
    var s := SlotSinks(c, j, k, f);
    if s.On? {
      assert Free(Settle(out), when, k, f, s.item) <==> Free(out, when, k, f, s.item);
    }
  }

  /** What is turned down is a device or nothing. */
  lemma LeafDefined(c: Context, j: Job, i: nat, item: int, r: nat)
    requires JobOk(c, j) && item < c.m.maxDevices && (item < 0 ==> Has(c.m, item))
    ensures LeafFor(c, j, i, item, r) != ITEM_UNDEF
  {
    hide Run;
    if j.leafMode && item < 0 {
      RunSound(c, Job(Get(c.m, item), 0, false, j.numrep, j.outpos + i, j.recurseTries, 0, r), 1);
    }
  }

  lemma SettleRefuses(c: Context, j: Job, out: seq<int>, when: seq<nat>, k: nat, f: nat)
    requires JobOk(c, j) && |when| == |out|
    ensures Refuses(c, j, Settle(out), when, k, f) <==> Refuses(c, j, out, when, k, f)
  {
    hide SlotSinks, Usable;
    var s := SlotSinks(c, j, k, f);
    if s.On? {
      assert Free(Settle(out), when, k, f, s.item) <==> Free(out, when, k, f, s.item);
    }
  }

  lemma {:induction false} SettleRefused(c: Context, j: Job, out: seq<int>, when: seq<nat>, k: nat, n: nat)
    requires JobOk(c, j) && |when| == |out|
    ensures var m := LastRefused(c, j, out, when, k, n, ITEM_UNDEF);
            LastRefused(c, j, Settle(out), when, k, n, ITEM_NONE) == if m == ITEM_UNDEF then ITEM_NONE else m
  {
    hide LeafFor, SlotSinks, Settle;
    if n > 0 {
      SettleRefuses(c, j, out, when, k, n - 1);
      SettleRefused(c, j, out, when, k, n - 1);
      var s := SlotSinks(c, j, k, n - 1);
      if s.On? {
        LeafDefined(c, j, k, s.item, s.r);
      }
    }
  }

  lemma SettleDecided(c: Context, j: Job, s: Slots, when: seq<nat>, k: nat)
    requires JobOk(c, j) && k < |when| == |s.out| == |s.out2| && Decided(c, j, s.out, s.out2, when, k)
    requires j.leafMode ==> s.out2[k] != ITEM_UNDEF
    ensures Decided(c, j, Settle(s.out), Settle(s.out2), when, k)
  {
    hide SlotSinks, Usable;
    var t := SlotSinks(c, j, k, when[k]);
    if t.On? {
      assert Free(Settle(s.out), when, k, when[k], t.item) <==> Free(s.out, when, k, when[k], t.item);
    }
  }

  lemma SlotSettles(c: Context, j: Job, s: Slots, when: seq<nat>, g: nat, k: nat)
    requires JobOk(c, j) && Good(c, j, s) && Going(c, j, s, when, g, 0) && k < |s.out|
    requires g <= j.tries && (s.left > 0 ==> g == j.tries)
    ensures SlotFits(c, j, Settle(s.out), Settle(s.out2), when, k)
  {
    hide Misses, Decided, LastRefused;
    assert SoFar(c, j, s, when, g, 0, k);
    forall f: nat ensures Misses(c, j, Settle(s.out), when, k, f) <==> Misses(c, j, s.out, when, k, f) {
      SettleMisses(c, j, s.out, when, k, f);
    }
    if s.out[k] != ITEM_UNDEF {
      SettleDecided(c, j, s, when, k);
    } else if s.left == 0 {
      NoneUndefined(s.out, k);
    } else {
      SettleRefused(c, j, s.out, when, k, j.tries);
    }
  }

  /** The slots of every call follow a schedule, and by `ScheduleUnique` no others do. */
  lemma RunFollowsSchedule(c: Context, j: Job, n: nat) returns (when: seq<nat>)
    requires JobOk(c, j)
    ensures var s := Run(c, j, n); |s.out| == n && Schedule(c, j, s.out, s.out2, when)
  {
    hide Rounds, SlotFits;
    UndefinedBlank(n);
    var b := Blank(n);
    var g;
    when, g := RoundsStep(c, j, b, seq(n, _ => j.tries), 0);
    var s := Rounds(c, j, b, 0);
    forall k | 0 <= k < n ensures SlotFits(c, j, Settle(s.out), Settle(s.out2), when, k) {
      SlotSettles(c, j, s, when, g, k);
    }
  }

  /** Items and leaves are missing in the same slots if and only if no slot that all passes missed
      had a device turned down last. */
  lemma PairedIff(c: Context, j: Job, n: nat) returns (when: seq<nat>)
    requires JobOk(c, j) && j.leafMode
    ensures var s := Run(c, j, n); |s.out| == n && Schedule(c, j, s.out, s.out2, when)
    ensures var s := Run(c, j, n);
            Paired(s) <==> forall i :: 0 <= i < n && when[i] == j.tries ==>
                             LastRefused(c, j, s.out, when, i, j.tries, ITEM_NONE) == ITEM_NONE
  {
    hide Misses, LastRefused, SlotSinks, Free, Run;
    when := RunFollowsSchedule(c, j, n);
    var s := Run(c, j, n);
    forall i | 0 <= i < n
      ensures when[i] <= j.tries
      ensures when[i] < j.tries ==> (s.out[i] == ITEM_NONE <==> s.out2[i] == ITEM_NONE)
      ensures when[i] == j.tries ==>
                s.out[i] == ITEM_NONE && s.out2[i] == LastRefused(c, j, s.out, when, i, j.tries, ITEM_NONE)
    {
      assert SlotFits(c, j, s.out, s.out2, when, i);
    }
  }
}
