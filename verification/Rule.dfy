/** `crush_do_rule`: the interpreter of placement rules. */
module Rule {
  import opened Basics
  import opened CrushTypes
  import opened CrushMaps
  import opened Firstn
  import opened Indep
  import opened FirstnCode
  import opened IndepCode

  datatype Step =
    | TakeStep(arg: int)
    | SetChooseTries(arg: int)
    | SetLeafTries(arg: int)
    | SetLocalTries(arg: int)
    | SetLocalFallbackTries(arg: int)
    | SetVaryR(arg: int)
    | SetStable(arg: int)
    | Choose(firstn: bool, leaf: bool, num: int, kind: int)
    | Emit
    | Noop

  /** The tunables stored in the map. */
  datatype Tunables = Tunables(totalTries: nat, localTries: nat, localFallbackTries: nat,
                               descendOnce: bool, varyR: nat, stable: bool)

  /** The interpreter's variables: the working vector, the result, and the current tunables. */
  datatype Machine = Machine(w: seq<int>, result: seq<int>, chooseTries: nat, leafTries: nat,
                             localRetries: nat, fallback: nat, varyR: nat, stable: bool)

  function Start(t: Tunables): Machine {
    Machine([], [], t.totalTries + 1, 0, t.localTries, t.localFallbackTries, t.varyR, t.stable)
  }

  function FirstnTune(t: Tunables, s: Machine): Tune {
    Tune(s.chooseTries,
         if s.leafTries > 0 then s.leafTries else if t.descendOnce then 1 else s.chooseTries,
         s.localRetries, s.fallback, s.varyR, s.stable)
  }

  function IndepJob(s: Machine, b: Bucket, kind: int, leaf: bool, numrep: int): Job {
    Job(b, kind, leaf, numrep, 0, s.chooseTries, if s.leafTries > 0 then s.leafTries else 1, 0)
  }

  /** Values a working vector may hold: devices, the absent marker, existing buckets. */
  ghost predicate Known(m: CrushMap, w: seq<int>) {
    forall i :: 0 <= i < |w| ==> w[i] >= 0 || Has(m, w[i])
  }

  ghost predicate RuleOk(c: Context, resultMax: nat) {
    Ok(c) && c.m.maxDevices <= ITEM_UNDEF && resultMax >= 1
  }

  ghost predicate Sane(c: Context, resultMax: nat, s: Machine) {
    |s.w| <= resultMax && |s.result| <= resultMax && Known(c.m, s.w) && Known(c.m, s.result)
  }

  function Replicas(num: int, resultMax: nat): int {
    if num <= 0 then num + resultMax else num
  }

  /** What one element of the working vector contributes to a choose step. */
  ghost function Part(c: Context, t: Tunables, s: Machine, step: Step, resultMax: nat, v: int, room: nat): (p: seq<int>)
    requires RuleOk(c, resultMax) && step.Choose? && (v >= 0 || Has(c.m, v))
    ensures |p| <= room
  {
    var numrep := Replicas(step.num, resultMax);
    if numrep <= 0 || v >= 0 then []
    else if step.firstn then
      var e := Collect(c, FirstnTune(t, s), Query(Get(c.m, v), step.kind, step.leaf, [], []), numrep, 0, room, 0);
      if step.leaf then e.leaves else e.chosen
    else
      var r := Run(c, IndepJob(s, Get(c.m, v), step.kind, step.leaf, numrep), if numrep < room then numrep else room);
      if step.leaf then r.out2 else r.out
  }

  /** The loop over the first `n` elements of the working vector. */
  ghost function Parts(c: Context, t: Tunables, s: Machine, step: Step, resultMax: nat, n: nat): (o: seq<int>)
    requires RuleOk(c, resultMax) && step.Choose? && Known(c.m, s.w) && n <= |s.w|
    ensures |o| <= resultMax
  {
    if n == 0 then []
    else
      var o := Parts(c, t, s, step, resultMax, n - 1);
      o + Part(c, t, s, step, resultMax, s.w[n - 1], resultMax - |o|)
  }

  function Emitted(s: Machine, resultMax: nat): Machine
    requires |s.result| <= resultMax
  {
    var n := if |s.w| < resultMax - |s.result| then |s.w| else resultMax - |s.result|;
    s.(result := s.result + s.w[..n], w := [])
  }

  ghost function Perform(c: Context, t: Tunables, s: Machine, step: Step, resultMax: nat): (n: Machine)
    requires RuleOk(c, resultMax) && Sane(c, resultMax, s)
  {
    match step
    case TakeStep(arg) => if 0 <= arg < c.m.maxDevices || Has(c.m, arg) then s.(w := [arg]) else s
    case SetChooseTries(arg) => if arg > 0 then s.(chooseTries := arg) else s
    case SetLeafTries(arg) => if arg > 0 then s.(leafTries := arg) else s
    case SetLocalTries(arg) => if arg >= 0 then s.(localRetries := arg) else s
    case SetLocalFallbackTries(arg) => if arg >= 0 then s.(fallback := arg) else s
    case SetVaryR(arg) => if arg >= 0 then s.(varyR := arg) else s
    case SetStable(arg) => if arg >= 0 then s.(stable := arg != 0) else s
    case Choose(_, _, _, _) =>
      if s.w == [] then s else s.(w := Parts(c, t, s, step, resultMax, |s.w|))
    case Emit => Emitted(s, resultMax)
    case Noop => s
  }

  /** A chooseleaf step that pairs items with leaves. */
  predicate LeafStep(step: Step) {
    step.Choose? && step.leaf && (step.firstn || step.kind != 0)
  }

  /** One part is made of known values. */
  lemma PartKnown(c: Context, t: Tunables, s: Machine, step: Step, resultMax: nat, v: int, room: nat)
    requires RuleOk(c, resultMax) && step.Choose? && (v >= 0 || Has(c.m, v))
    ensures Known(c.m, Part(c, t, s, step, resultMax, v, room))
    ensures LeafStep(step) ==> LiveDevices(c, Part(c, t, s, step, resultMax, v, room))
  {
    hide Collect, Run;
    var numrep := Replicas(step.num, resultMax);
    if numrep > 0 && v < 0 {
      if step.firstn {
        FirstnSound(c, FirstnTune(t, s), Get(c.m, v), step.kind, step.leaf, numrep, room);
      } else {
        RunSound(c, IndepJob(s, Get(c.m, v), step.kind, step.leaf, numrep), if numrep < room then numrep else room);
      }
    }
  }

  lemma Joined(c: Context, o: seq<int>, p: seq<int>)
    ensures Known(c.m, o) && Known(c.m, p) ==> Known(c.m, o + p)
    ensures LiveDevices(c, o) && LiveDevices(c, p) ==> LiveDevices(c, o + p)
  {
  }

  lemma {:induction false} PartsKnown(c: Context, t: Tunables, s: Machine, step: Step, resultMax: nat, n: nat)
    requires RuleOk(c, resultMax) && step.Choose? && Known(c.m, s.w) && n <= |s.w|
    ensures Known(c.m, Parts(c, t, s, step, resultMax, n))
    ensures LeafStep(step) ==> LiveDevices(c, Parts(c, t, s, step, resultMax, n))
  {
    hide Part;
    if n > 0 {
      var o := Parts(c, t, s, step, resultMax, n - 1);
      PartsKnown(c, t, s, step, resultMax, n - 1);
      PartKnown(c, t, s, step, resultMax, s.w[n - 1], resultMax - |o|);
      Joined(c, o, Part(c, t, s, step, resultMax, s.w[n - 1], resultMax - |o|));
    }
  }

  /** Devices that are not out, or the absent marker. */
  ghost predicate LiveDevices(c: Context, w: seq<int>) {
    forall i :: 0 <= i < |w| ==> w[i] >= 0 && (w[i] != ITEM_NONE ==> w[i] < c.m.maxDevices && !IsOut(c, w[i]))
  }

  /** Every step keeps both vectors within `result_max` and free of unknown buckets, so the
      next step never follows a null bucket pointer. */
  lemma PerformSane(c: Context, t: Tunables, s: Machine, step: Step, resultMax: nat)
    requires RuleOk(c, resultMax) && Sane(c, resultMax, s)
    ensures Sane(c, resultMax, Perform(c, t, s, step, resultMax))
  {
    if step.Choose? {
      PartsKnown(c, t, s, step, resultMax, |s.w|);
    }
  }

  /** A whole rule. */
  ghost function Execute(c: Context, t: Tunables, s: Machine, steps: seq<Step>, resultMax: nat): (n: Machine)
    requires RuleOk(c, resultMax) && Sane(c, resultMax, s)
    ensures Sane(c, resultMax, n)
    decreases |steps|
  {
    if steps == [] then s
    else
      PerformSane(c, t, s, steps[0], resultMax);
      Execute(c, t, Perform(c, t, s, steps[0], resultMax), steps[1..], resultMax)
  }

  /** Chooseleaf steps followed by emits put only devices that are not out, or absent
      markers, into the result, whatever the rest of the rule did to the tunables. */
  ghost predicate EmitsLeaves(steps: seq<Step>, leafy: bool)
    decreases |steps|
  {
    if steps == [] then true
    else match steps[0]
      case TakeStep(_) => EmitsLeaves(steps[1..], false)
      case Choose(_, _, _, _) => EmitsLeaves(steps[1..], LeafStep(steps[0]))
      case Emit => leafy && EmitsLeaves(steps[1..], true)
      case _ => EmitsLeaves(steps[1..], leafy)
  }

  lemma {:induction false} LeafRulesEmitLiveDevices(c: Context, t: Tunables, s: Machine, steps: seq<Step>,
                                                    resultMax: nat, leafy: bool)
    requires RuleOk(c, resultMax) && Sane(c, resultMax, s) && EmitsLeaves(steps, leafy)
    requires LiveDevices(c, s.result) && (leafy ==> LiveDevices(c, s.w))
    ensures LiveDevices(c, Execute(c, t, s, steps, resultMax).result)
    decreases |steps|
  {
    hide Parts;
    if steps != [] {
      var n := Perform(c, t, s, steps[0], resultMax);
      PerformSane(c, t, s, steps[0], resultMax);
      match steps[0]
      case TakeStep(_) => LeafRulesEmitLiveDevices(c, t, n, steps[1..], resultMax, false);
      case Choose(_, _, _, _) =>
        PartsKnown(c, t, s, steps[0], resultMax, |s.w|);
        LeafRulesEmitLiveDevices(c, t, n, steps[1..], resultMax, LeafStep(steps[0]));
      case Emit => LeafRulesEmitLiveDevices(c, t, n, steps[1..], resultMax, true);
      case _ => LeafRulesEmitLiveDevices(c, t, n, steps[1..], resultMax, leafy);
    }
  }

  /* ---- what a rule computes ---- */

  /** An emit keeps the result so far, adds the working vector in order as far as there is room,
      and clears it. */
  lemma EmitAppends(c: Context, t: Tunables, s: Machine, resultMax: nat)
    requires RuleOk(c, resultMax) && Sane(c, resultMax, s)
    ensures var n := Perform(c, t, s, Emit, resultMax);
            && s.result <= n.result && n.w == []
            && |n.result| == (if |s.result| + |s.w| <= resultMax then |s.result| + |s.w| else resultMax)
            && forall i :: 0 <= i < |n.result| - |s.result| ==> n.result[|s.result| + i] == s.w[i]
  {
  }

  /** A choose step puts the parts of the elements one after the other: the part of an element
      follows those of the elements before it, in the room they leave. */
  lemma {:induction false} ChooseInOrder(c: Context, t: Tunables, s: Machine, step: Step, resultMax: nat, m: nat,
                                         n: nat)
    requires RuleOk(c, resultMax) && step.Choose? && Known(c.m, s.w) && m < n <= |s.w|
    ensures var o := Parts(c, t, s, step, resultMax, m);
            o + Part(c, t, s, step, resultMax, s.w[m], resultMax - |o|) <= Parts(c, t, s, step, resultMax, n)
    ensures m + 1 == n ==>
              var o := Parts(c, t, s, step, resultMax, m);
              Parts(c, t, s, step, resultMax, n) == o + Part(c, t, s, step, resultMax, s.w[m], resultMax - |o|)
  {
    hide Part;
    if m + 1 < n {
      ChooseInOrder(c, t, s, step, resultMax, m, n - 1);
    }
  }

  /** The value a setter leaves: its argument, if that is not below the least it accepts. */
  function Set(arg: int, least: int, was: nat): nat
    requires least >= 0
  {
    if arg >= least then arg else was
  }

  /** What the search from one bucket yields for given tunables. */
  ghost function Yield(c: Context, u: Tune, leafTries: nat, b: Bucket, firstn: bool, leaf: bool, numrep: int, kind: int,
                       room: nat): seq<int>
    requires RuleOk(c, room) && InMap(c.m, b)
  {
    if numrep <= 0 then []
    else if firstn then
      var e := Collect(c, u, Query(b, kind, leaf, [], []), numrep, 0, room, 0);
      if leaf then e.leaves else e.chosen
    else
      var j := Job(b, kind, leaf, numrep, 0, u.tries, leafTries, 0);
      var e := Run(c, j, if numrep < room then numrep else room);
      if leaf then e.out2 else e.out
  }

  /** In any state of the interpreter, an element that is a bucket of the map contributes what the
      search from it yields with the tunables set so far, and a device nothing. */
  lemma PartIs(c: Context, t: Tunables, s: Machine, firstn: bool, leaf: bool, num: int, kind: int, resultMax: nat,
               v: int, room: nat)
    requires RuleOk(c, resultMax) && (v >= 0 || Has(c.m, v)) && 1 <= room
    ensures var u := Tune(s.chooseTries,
                          if s.leafTries > 0 then s.leafTries else if t.descendOnce then 1 else s.chooseTries,
                          s.localRetries, s.fallback, s.varyR, s.stable);
            Part(c, t, s, Choose(firstn, leaf, num, kind), resultMax, v, room) ==
            if v >= 0 then []
            else Yield(c, u, if s.leafTries == 0 then 1 else s.leafTries, Get(c.m, v), firstn, leaf,
                       if num > 0 then num else num + resultMax, kind, room)
  {
    hide Collect, Run;
  }

  /** A rule that sets the tunables, takes a bucket, chooses and emits returns what the search
      from that bucket yields with the tunables it set; a count of zero or less is taken from the
      number of results asked for. */
  lemma TunedRule(c: Context, t: Tunables, a: seq<int>, root: int, firstn: bool, leaf: bool, num: int, kind: int,
                  resultMax: nat)
    requires RuleOk(c, resultMax) && root < 0 && Has(c.m, root) && |a| == 6
    ensures var steps := [SetChooseTries(a[0]), SetLeafTries(a[1]), SetLocalTries(a[2]), SetLocalFallbackTries(a[3]),
                          SetVaryR(a[4]), SetStable(a[5]), TakeStep(root), Choose(firstn, leaf, num, kind), Emit];
            var tries := Set(a[0], 1, t.totalTries + 1);
            var u := Tune(tries, if a[1] > 0 then a[1] else if t.descendOnce then 1 else tries,
                          Set(a[2], 0, t.localTries), Set(a[3], 0, t.localFallbackTries), Set(a[4], 0, t.varyR),
                          if a[5] >= 0 then a[5] != 0 else t.stable);
            Execute(c, t, Start(t), steps, resultMax).result ==
            Yield(c, u, if a[1] > 0 then a[1] else 1, Get(c.m, root), firstn, leaf,
                  if num > 0 then num else num + resultMax, kind, resultMax)
  {
    hide Collect, Run;
    var steps := [SetChooseTries(a[0]), SetLeafTries(a[1]), SetLocalTries(a[2]), SetLocalFallbackTries(a[3]),
                  SetVaryR(a[4]), SetStable(a[5]), TakeStep(root), Choose(firstn, leaf, num, kind), Emit];
    var s := ExecuteSetters(c, t, a, steps, resultMax);
    TakeChooseEmit(c, t, s, root, firstn, leaf, num, kind, resultMax);
    assert steps[6..] == [TakeStep(root), Choose(firstn, leaf, num, kind), Emit];
  }

  lemma ExecuteSetters(c: Context, t: Tunables, a: seq<int>, steps: seq<Step>, resultMax: nat) returns (s: Machine)
    requires RuleOk(c, resultMax) && |a| == 6 && |steps| == 9
    requires steps[..6] == [SetChooseTries(a[0]), SetLeafTries(a[1]), SetLocalTries(a[2]), SetLocalFallbackTries(a[3]),
                            SetVaryR(a[4]), SetStable(a[5])]
    ensures s == Machine([], [], Set(a[0], 1, t.totalTries + 1), Set(a[1], 1, 0), Set(a[2], 0, t.localTries),
                         Set(a[3], 0, t.localFallbackTries), Set(a[4], 0, t.varyR),
                         if a[5] >= 0 then a[5] != 0 else t.stable)
    ensures Sane(c, resultMax, s)
    ensures Execute(c, t, Start(t), steps, resultMax) == Execute(c, t, s, steps[6..], resultMax)
  {
    hide Execute, Sane, Perform, RuleOk;
    s := Start(t);
    assert steps[0..] == steps && forall i :: 0 <= i < 6 ==> steps[i] == steps[..6][i];
    StartIsSane(c, t, resultMax);
    s := ExecuteSetter(c, t, s, steps, 0, resultMax);
    s := ExecuteSetter(c, t, s, steps, 1, resultMax);
    s := ExecuteSetter(c, t, s, steps, 2, resultMax);
    s := ExecuteSetter(c, t, s, steps, 3, resultMax);
    s := ExecuteSetter(c, t, s, steps, 4, resultMax);
    s := ExecuteSetter(c, t, s, steps, 5, resultMax);
  }

  lemma StartIsSane(c: Context, t: Tunables, resultMax: nat)
    requires RuleOk(c, resultMax)
    ensures Sane(c, resultMax, Start(t))
  {
  }

  /** Each setter sets its own tunable and nothing else. */
  lemma ExecuteSetter(c: Context, t: Tunables, s: Machine, steps: seq<Step>, i: nat, resultMax: nat)
    returns (n: Machine)
    requires RuleOk(c, resultMax) && Sane(c, resultMax, s) && i < |steps|
    ensures Sane(c, resultMax, n)
    ensures Execute(c, t, s, steps[i..], resultMax) == Execute(c, t, n, steps[i + 1..], resultMax)
    ensures match steps[i]
            case SetChooseTries(v) => n == s.(chooseTries := Set(v, 1, s.chooseTries))
            case SetLeafTries(v) => n == s.(leafTries := Set(v, 1, s.leafTries))
            case SetLocalTries(v) => n == s.(localRetries := Set(v, 0, s.localRetries))
            case SetLocalFallbackTries(v) => n == s.(fallback := Set(v, 0, s.fallback))
            case SetVaryR(v) => n == s.(varyR := Set(v, 0, s.varyR))
            case SetStable(v) => n == s.(stable := if v >= 0 then v != 0 else s.stable)
            case _ => true
  {
    hide Execute, Sane, Parts, Emitted;
    n := ExecuteFirst(c, t, s, steps, i, resultMax);
  }

  lemma ExecuteFirst(c: Context, t: Tunables, s: Machine, steps: seq<Step>, i: nat, resultMax: nat) returns (n: Machine)
    requires RuleOk(c, resultMax) && Sane(c, resultMax, s) && i < |steps|
    ensures n == Perform(c, t, s, steps[i], resultMax) && Sane(c, resultMax, n)
    ensures Execute(c, t, s, steps[i..], resultMax) == Execute(c, t, n, steps[i + 1..], resultMax)
  {
    hide Perform;
    n := Perform(c, t, s, steps[i], resultMax);
    PerformSane(c, t, s, steps[i], resultMax);
    assert steps[i..][1..] == steps[i + 1..];
  }

  lemma TakeChooseEmit(c: Context, t: Tunables, s: Machine, root: int, firstn: bool, leaf: bool, num: int, kind: int,
                       resultMax: nat)
    requires RuleOk(c, resultMax) && Sane(c, resultMax, s) && s.result == [] && root < 0 && Has(c.m, root)
    ensures Execute(c, t, s, [TakeStep(root), Choose(firstn, leaf, num, kind), Emit], resultMax).result ==
            Yield(c, Tune(s.chooseTries,
                          if s.leafTries > 0 then s.leafTries else if t.descendOnce then 1 else s.chooseTries,
                          s.localRetries, s.fallback, s.varyR, s.stable),
                  if s.leafTries > 0 then s.leafTries else 1, Get(c.m, root), firstn, leaf,
                  if num > 0 then num else num + resultMax, kind, resultMax)
  {
    hide Collect, Run, Execute;
    var steps := [TakeStep(root), Choose(firstn, leaf, num, kind), Emit];
    assert steps[0..] == steps;
    var s1 := ExecuteFirst(c, t, s, steps, 0, resultMax);
    var s2 := ExecuteFirst(c, t, s1, steps, 1, resultMax);
    var s3 := ExecuteFirst(c, t, s2, steps, 2, resultMax);
    ExecuteNone(c, t, s3, steps[3..], resultMax);
    assert Parts(c, t, s1, steps[1], resultMax, 0) == [];
    assert s2.w == [] + Part(c, t, s1, steps[1], resultMax, root, resultMax);
    EmitAppends(c, t, s2, resultMax);
    assert s3.result == s2.w;
  }

  lemma ExecuteNone(c: Context, t: Tunables, s: Machine, steps: seq<Step>, resultMax: nat)
    requires RuleOk(c, resultMax) && Sane(c, resultMax, s) && steps == []
    ensures Execute(c, t, s, steps, resultMax) == s
  {
  }

  /** The rule HDCS uses, take one bucket, chooseleaf, emit, returns the leaves of the search, in
      order; so they are distinct devices that are not out. */
  lemma SingleChooseleafRule(c: Context, t: Tunables, root: int, kind: int, resultMax: nat)
    requires RuleOk(c, resultMax) && root < 0 && Has(c.m, root)
    ensures var r := Execute(c, t, Start(t), [TakeStep(root), Choose(true, true, 0, kind), Emit], resultMax).result;
            var u := Tune(t.totalTries + 1, if t.descendOnce then 1 else t.totalTries + 1, t.localTries,
                          t.localFallbackTries, t.varyR, t.stable);
            && r == Collect(c, u, Query(Get(c.m, root), kind, true, [], []), resultMax, 0, resultMax, 0).leaves
            && |r| <= resultMax && Distinct(r)
            && forall i :: 0 <= i < |r| ==> 0 <= r[i] < c.m.maxDevices && !IsOut(c, r[i])
  {
    hide Collect, Execute;
    TakeChooseEmit(c, t, Start(t), root, true, true, 0, kind, resultMax);
    FirstnSound(c, FirstnTune(t, Start(t)), Get(c.m, root), kind, true, resultMax, resultMax);
  }

  /* ---- the code ---- */

  /** The loop of a choose step over the working vector. */
  method ChooseAll(c: Context, t: Tunables, ws: Workspace, s: Machine, step: Step, resultMax: nat) returns (o: seq<int>)
    requires RuleOk(c, resultMax) && step.Choose? && Known(c.m, s.w) && ws.Valid(c)
    modifies ws.Repr
    ensures ws.Valid(c)
    ensures o == Parts(c, t, s, step, resultMax, |s.w|)
  {
    hide Part;
    o := [];
    for i := 0 to |s.w|
      invariant ws.Valid(c)
      invariant o == Parts(c, t, s, step, resultMax, i)
    {
      var p := ChoosePart(c, t, ws, s, step, resultMax, s.w[i], resultMax - |o|);
      o := o + p;
    }
  }

  method ChoosePart(c: Context, t: Tunables, ws: Workspace, s: Machine, step: Step, resultMax: nat, v: int, room: nat)
    returns (p: seq<int>)
    requires RuleOk(c, resultMax) && step.Choose? && (v >= 0 || Has(c.m, v)) && ws.Valid(c)
    modifies ws.Repr
    ensures ws.Valid(c)
    ensures p == Part(c, t, s, step, resultMax, v, room)
  {
    var numrep := step.num;
    if numrep <= 0 {
      numrep := numrep + resultMax;
      if numrep <= 0 {
        return [];
      }
    }
    var bno := -1 - v;
    if bno < 0 || bno >= |c.m.buckets| {
      return [];
    }
    var b := Get(c.m, v);
    if step.firstn {
      var e := ChooseFirstn(c, FirstnTune(t, s), ws, Query(b, step.kind, step.leaf, [], []), numrep, 0, room, 0);
      p := if step.leaf then e.leaves else e.chosen;
    } else {
      var outSize := if numrep < room then numrep else room;
      var r := ChooseIndep(c, IndepJob(s, b, step.kind, step.leaf, numrep), ws, outSize);
      p := if step.leaf then r.out2 else r.out;
    }
  }

  /** `crush_do_rule`: an unknown rule number yields nothing; otherwise the result is that of
      the reference interpreter, and the workspace stays usable for the next call. */
  method DoRule(c: Context, t: Tunables, rules: seq<seq<Step>>, ruleno: int, resultMax: nat, ws: Workspace)
    returns (result: seq<int>)
    requires RuleOk(c, resultMax) && ws.Valid(c)
    modifies ws.Repr
    ensures ws.Valid(c)
    ensures |result| <= resultMax
    ensures result == if 0 <= ruleno < |rules| then Execute(c, t, Start(t), rules[ruleno], resultMax).result else []
  {
    if ruleno < 0 || ruleno >= |rules| {
      return [];
    }
    var steps := rules[ruleno];
    var s := Start(t);
    for i := 0 to |steps|
      invariant ws.Valid(c) && Sane(c, resultMax, s)
      invariant Execute(c, t, s, steps[i..], resultMax) == Execute(c, t, Start(t), steps, resultMax)
    {
      assert steps[i..][0] == steps[i] && steps[i..][1..] == steps[i + 1..];
      PerformSane(c, t, s, steps[i], resultMax);
      s := PerformStep(c, t, ws, s, steps[i], resultMax);
    }
    assert steps[|steps|..] == [];
    result := s.result;
  }

  method PerformStep(c: Context, t: Tunables, ws: Workspace, s0: Machine, step: Step, resultMax: nat)
    returns (s: Machine)
    requires RuleOk(c, resultMax) && Sane(c, resultMax, s0) && ws.Valid(c)
    modifies ws.Repr
    ensures ws.Valid(c)
    ensures s == Perform(c, t, s0, step, resultMax)
  {
    hide Parts;
    s := s0;
    match step
    case TakeStep(arg) =>
      if 0 <= arg < c.m.maxDevices || Has(c.m, arg) { s := s.(w := [arg]); }
    case SetChooseTries(arg) => if arg > 0 { s := s.(chooseTries := arg); }
    case SetLeafTries(arg) => if arg > 0 { s := s.(leafTries := arg); }
    case SetLocalTries(arg) => if arg >= 0 { s := s.(localRetries := arg); }
    case SetLocalFallbackTries(arg) => if arg >= 0 { s := s.(fallback := arg); }
    case SetVaryR(arg) => if arg >= 0 { s := s.(varyR := arg); }
    case SetStable(arg) => if arg >= 0 { s := s.(stable := arg != 0); }
    case Choose(_, _, _, _) =>
      if s.w != [] {
        var o := ChooseAll(c, t, ws, s, step, resultMax);
        s := s.(w := o);
      }
    case Emit =>
      var i := 0;
      var w := s.w;
      while i < |w| && |s.result| < resultMax
        invariant i <= |w| && s == s0.(result := s0.result + w[..i]) && |s.result| <= resultMax
      {
        s := s.(result := s.result + [w[i]]);
        i := i + 1;
      }
      s := s.(w := []);
    case Noop =>
  }
}
