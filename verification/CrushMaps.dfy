/** Crush maps as the mapper sees them: well-formedness, acyclicity, and the choice of one
    item from one bucket. */
module CrushMaps {
  import opened Basics
  import opened CrushTypes
  import Perm
  import S2 = Straw2Buckets
  import LB = ListBuckets
  import TB = TreeBuckets

  /** Replacement ids and weights for one straw2 bucket (`struct crush_choose_arg`). */
  datatype ChooseArg = ChooseArg(ids: Option<seq<int>>, weightSet: seq<seq<U32>>)

  datatype CrushMap = CrushMap(buckets: seq<Option<Bucket>>, maxDevices: int)

  /** Everything a placement is a function of. */
  datatype Context = Context(o: Oracle, m: CrushMap, weight: seq<U32>, x: int, args: Option<seq<ChooseArg>>)

  predicate Has(m: CrushMap, id: int) {
    0 <= -1 - id < |m.buckets| && m.buckets[-1 - id].Some?
  }

  function Get(m: CrushMap, id: int): Bucket
    requires Has(m, id)
  {
    m.buckets[-1 - id].value
  }

  /** The arrays of a bucket match its size, and its chooser stays inside them. */
  ghost predicate BucketOk(b: Bucket) {
    match b.alg
    case Uniform(_) => true
    case List(_, _) => LB.IsList(b)
    case Tree(nodeWeights) =>
      TB.IsTree(b) && TB.Total(b) < TWO32 && (b.weight > 0 || 2 * |b.items| == |nodeWeights|)
    case Straw(straws) => |straws| == |b.items|
    case Straw2(_) => S2.IsStraw2(b)
    case Unknown => true
  }

  /** Bucket `id` holds bucket `k`. */
  ghost predicate Edge(m: CrushMap, id: int, k: int) {
    Has(m, id) && k in Get(m, id).items && k < 0
  }

  /** Every bucket that is held by a bucket is in the map. */
  ghost predicate Closed(m: CrushMap) {
    forall id, k :: Edge(m, id, k) ==> Has(m, k)
  }

  ghost predicate StepAt(m: CrushMap, p: seq<int>, i: nat) {
    i + 1 < |p| && Edge(m, p[i], p[i + 1])
  }

  /** Each bucket holds the next. */
  ghost predicate Steps(m: CrushMap, p: seq<int>) {
    forall i :: 0 <= i < |p| - 1 ==> StepAt(m, p, i)
  }

  /** A way down from bucket to bucket. */
  ghost predicate Path(m: CrushMap, p: seq<int>) {
    |p| >= 2 && Steps(m, p)
  }

  /** No way down leads from a bucket back to itself. */
  ghost predicate Acyclic(m: CrushMap) {
    forall p {:trigger Path(m, p)} :: Path(m, p) ==> p[0] != p[|p| - 1]
  }

  ghost predicate WellFormed(m: CrushMap) {
    && (forall id :: Has(m, id) ==>
          Get(m, id).id == id && Get(m, id).kind > 0 && BucketOk(Get(m, id)))
    && Closed(m) && Acyclic(m)
  }

  /** A rank that falls along every edge. */
  ghost predicate RanksFall(m: CrushMap, rank: seq<nat>) {
    && |rank| == |m.buckets|
    && forall id, k :: Edge(m, id, k) ==> Has(m, k) && rank[-1 - k] < rank[-1 - id]
  }

  ghost function Ids(m: CrushMap): (s: set<int>)
    ensures forall id :: id in s <==> Has(m, id)
  {
    set i | 0 <= i < |m.buckets| && m.buckets[i].Some? :: -1 - i
  }

  /** Distinct elements of a set are no more than the set has. */
  lemma {:induction false} DistinctFits(p: seq<int>, s: set<int>)
    requires Distinct(p) && forall i :: 0 <= i < |p| ==> p[i] in s
    ensures |p| <= |s|
  {
    if p != [] {
      var n := |p| - 1;
      DistinctFits(p[..n], s - {p[n]});
    }
  }

  /** A way down that stays in a set of buckets and is longer than the set meets itself. */
  lemma LongPathIsCyclic(m: CrushMap, p: seq<int>, s: set<int>)
    requires |p| > |s| && (forall i :: 0 <= i < |p| ==> p[i] in s)
    requires Steps(m, p)
    ensures !Acyclic(m)
  {
    hide Edge;
    if Distinct(p) {
      DistinctFits(p, s);
    }
    var i, j :| 0 <= i < j < |p| && p[i] == p[j];
    PartOfPath(m, p, i, j);
  }

  lemma PartOfPath(m: CrushMap, p: seq<int>, i: nat, j: nat)
    requires Steps(m, p) && i < j < |p|
    ensures Path(m, p[i..j + 1])
  {
    hide Edge;
    var q := p[i..j + 1];
    forall k | 0 <= k < |q| - 1 ensures StepAt(m, q, k) {
      assert StepAt(m, p, i + k);
      assert q[k] == p[i + k] && q[k + 1] == p[i + k + 1];
    }
  }

  lemma LongerPath(m: CrushMap, p: seq<int>, k: int)
    requires p != [] && Steps(m, p) && Edge(m, p[|p| - 1], k)
    ensures Steps(m, p + [k])
  {
    hide Edge;
    forall i | 0 <= i < |p| ensures StepAt(m, p + [k], i) {
      if i < |p| - 1 {
        assert StepAt(m, p, i);
      }
    }
  }

  /** Some bucket of a set holds none of the set. */
  lemma Lowest(m: CrushMap, s: set<int>) returns (id: int)
    requires Acyclic(m) && s != {} && s <= Ids(m)
    ensures id in s && forall k :: Edge(m, id, k) ==> k !in s
  {
    id :| id in s;
    var p := [id];
    while true
      invariant 0 < |p| <= |s| && p[|p| - 1] == id && forall i :: 0 <= i < |p| ==> p[i] in s
      invariant Steps(m, p)
      decreases |s| - |p|
    {
      if k :| Edge(m, id, k) && k in s {
        LongerPath(m, p, k);
        if |p| == |s| {
          LongPathIsCyclic(m, p + [k], s);
        }
        p, id := p + [k], k;
      } else {
        return;
      }
    }
  }

  /** An acyclic map has a rank: buckets are numbered as they become lowest. */
  lemma RankExists(m: CrushMap) returns (rank: seq<nat>)
    requires Closed(m) && Acyclic(m)
    ensures RanksFall(m, rank)
  {
    rank := seq(|m.buckets|, _ => 0);
    var todo, t := Ids(m), 0;
    while todo != {}
      invariant |rank| == |m.buckets| && todo <= Ids(m) && 0 <= t
      invariant forall id :: Has(m, id) && id !in todo ==> rank[-1 - id] <= t
      invariant forall id, k :: Edge(m, id, k) && id !in todo ==> k !in todo && rank[-1 - k] < rank[-1 - id]
      decreases |todo|
    {
      var id := Lowest(m, todo);
      t := t + 1;
      rank := rank[-1 - id := t];
      todo := todo - {id};
    }
  }

  /** And a map with a rank is acyclic. */
  lemma RankIsEnough(m: CrushMap, rank: seq<nat>)
    requires RanksFall(m, rank)
    ensures Closed(m) && Acyclic(m)
  {
    forall p | Path(m, p) ensures p[0] != p[|p| - 1] {
      RankFallsAlong(m, rank, p, |p| - 1);
    }
  }

  lemma {:induction false} RankFallsAlong(m: CrushMap, rank: seq<nat>, p: seq<int>, n: nat)
    requires RanksFall(m, rank) && Path(m, p) && 0 < n < |p|
    ensures Has(m, p[0]) && Has(m, p[n]) && rank[-1 - p[n]] < rank[-1 - p[0]]
  {
    assert StepAt(m, p, n - 1);
    if n > 1 {
      RankFallsAlong(m, rank, p, n - 1);
    }
  }

  ghost function Ranks(m: CrushMap): (rank: seq<nat>)
    requires WellFormed(m)
    ensures RanksFall(m, rank)
  {
    HasRank(m);
    var rank :| RanksFall(m, rank);
    rank
  }

  lemma HasRank(m: CrushMap)
    requires WellFormed(m)
    ensures exists rank :: RanksFall(m, rank)
  {
    var rank := RankExists(m);
  }

  ghost function Rank(m: CrushMap, b: Bucket): nat
    requires WellFormed(m) && InMap(m, b)
  {
    Ranks(m)[-1 - b.id]
  }

  ghost predicate InMap(m: CrushMap, b: Bucket) {
    Has(m, b.id) && Get(m, b.id) == b
  }

  lemma ChildInMap(m: CrushMap, b: Bucket, k: int)
    requires WellFormed(m) && InMap(m, b) && k in b.items && k < 0
    ensures Has(m, k) && InMap(m, Get(m, k)) && Rank(m, Get(m, k)) < Rank(m, b)
  {
    assert Edge(m, b.id, k);
  }

  /** `item` is in `b`; if it is a bucket, it is one of the map and lies lower. */
  ghost predicate Drawn(m: CrushMap, b: Bucket, item: int)
    requires WellFormed(m) && InMap(m, b)
  {
    && item in b.items
    && (item < 0 ==> Has(m, item) && InMap(m, Get(m, item)) && Rank(m, Get(m, item)) < Rank(m, b))
  }

  lemma DrawnFrom(m: CrushMap, b: Bucket)
    requires WellFormed(m) && InMap(m, b)
    ensures forall item :: item in b.items ==> Drawn(m, b, item)
  {
    forall item | item in b.items
      ensures Drawn(m, b, item)
    {
      if item < 0 {
        ChildInMap(m, b, item);
      }
    }
  }

  /** The type of an item: 0 for devices. */
  function KindOf(m: CrushMap, item: int): int
    requires item < 0 ==> Has(m, item)
  {
    if item < 0 then Get(m, item).kind else 0
  }

  /** `item` can be reached from `b` by going down. */
  ghost predicate Under(m: CrushMap, b: Bucket, item: int)
    requires WellFormed(m) && InMap(m, b)
    decreases Rank(m, b)
  {
    item in b.items ||
    exists k :: k in b.items && k < 0 && Has(m, k) && InMap(m, Get(m, k)) &&
                Rank(m, Get(m, k)) < Rank(m, b) && Under(m, Get(m, k), item)
  }

  lemma {:induction false} UnderIsTransitive(m: CrushMap, b: Bucket, mid: int, item: int)
    requires WellFormed(m) && InMap(m, b) && Has(m, mid) && mid < 0
    requires Under(m, b, mid) && Under(m, Get(m, mid), item)
    ensures Under(m, b, item)
    decreases Rank(m, b)
  {
    if mid in b.items {
      ChildInMap(m, b, mid);
    } else {
      var k :| k in b.items && k < 0 && Has(m, k) && InMap(m, Get(m, k)) &&
               Rank(m, Get(m, k)) < Rank(m, b) && Under(m, Get(m, k), mid);
      UnderIsTransitive(m, Get(m, k), mid, item);
    }
  }

  /** An upper bound on the sizes of the buckets. */
  ghost function MaxSize(bs: seq<Option<Bucket>>): (n: nat)
    ensures forall i :: 0 <= i < |bs| && bs[i].Some? ==> |bs[i].value.items| <= n
  {
    if bs == [] then 0
    else
      var n := MaxSize(bs[..|bs| - 1]);
      var last := bs[|bs| - 1];
      if last.Some? && |last.value.items| > n then |last.value.items| else n
  }

  /** `is_out`: a device without weight is out; a partial weight is drawn for. */
  predicate IsOut(c: Context, item: int)
    requires item >= 0
  {
    if item >= |c.weight| then true
    else if c.weight[item] >= 0x10000 then false
    else if c.weight[item] == 0 then true
    else !(c.o.h2(c.x, item) % 0x10000 < c.weight[item])
  }

  ghost predicate ArgFits(b: Bucket, a: ChooseArg) {
    && (a.ids.Some? ==> |a.ids.value| == |b.items|)
    && forall i :: 0 <= i < |a.weightSet| ==> |a.weightSet[i]| == |b.items|
  }

  ghost predicate Ok(c: Context) {
    && WellFormed(c.m)
    && Perm.IsInt32(c.x)
    && (c.args.Some? ==>
          && |c.args.value| == |c.m.buckets|
          && forall id :: Has(c.m, id) ==> ArgFits(Get(c.m, id), c.args.value[-1 - id]))
  }

  /** `get_choose_arg_ids` and `get_choose_arg_weights`. */
  function ArgIds(c: Context, b: Bucket): seq<int>
    requires c.args.Some? ==> 0 <= -1 - b.id < |c.args.value|
  {
    if c.args.Some? && c.args.value[-1 - b.id].ids.Some? then c.args.value[-1 - b.id].ids.value
    else b.items
  }

  function ArgWeights(c: Context, b: Bucket, position: nat): seq<U32>
    requires c.args.Some? ==> 0 <= -1 - b.id < |c.args.value|
    requires b.alg.Straw2?
  {
    if c.args.Some? && c.args.value[-1 - b.id].weightSet != [] then
      var ws := c.args.value[-1 - b.id].weightSet;
      ws[if position >= |ws| then |ws| - 1 else position]
    else b.alg.itemWeights
  }

  function StrawDraws(o: Oracle, b: Bucket, x: int, r: int): (d: seq<int>)
    requires b.alg.Straw? && |b.alg.straws| == |b.items|
    ensures |d| == |b.items|
  {
    seq(|b.items|, i requires 0 <= i < |b.items| =>
      (o.h3(b.hash, x, b.items[i], r) % 0x10000) as int * b.alg.straws[i])
  }

  /** The item that `crush_bucket_choose` takes: a function of the bucket alone, whatever
      the state of the permutation cache. */
  ghost function BucketChoose(c: Context, b: Bucket, r: nat, position: nat): (item: int)
    requires Ok(c) && InMap(c.m, b) && b.items != []
    ensures Drawn(c.m, b, item)
  {
    DrawnFrom(c.m, b);
    match b.alg
    case Uniform(_) => Perm.PermItem(c.o, b, c.x, r)
    case List(_, _) => LB.ListItem(c.o, b, c.x, r)
    case Tree(_) =>
      TB.TreeSlotInBounds(c.o, b, c.x, r);
      b.items[TB.TreeSlot(c.o, b, c.x, r)]
    case Straw(_) => b.items[S2.FirstMax(StrawDraws(c.o, b, c.x, r))]
    case Straw2(_) =>
      b.items[S2.FirstMax(S2.Straws(c.o, b.hash, c.x, ArgIds(c, b), r, ArgWeights(c, b, position)))]
    case Unknown => b.items[0]
  }

  /** A straw bucket, too, can draw whatever slot with a straw is wanted for each hash kind, `x` and
      rank. */
  lemma EveryStrawDraw(b: Bucket, f: (int, int, int) -> int) returns (o: Oracle)
    requires b.alg.Straw? && |b.alg.straws| == |b.items| && Distinct(b.items)
    requires forall hash, x, r :: 0 <= f(hash, x, r) < |b.items| && b.alg.straws[f(hash, x, r)] > 0
    ensures forall hash, x, r :: S2.FirstMax(StrawDraws(o, b.(hash := hash), x, r)) == f(hash, x, r)
  {
    assert 0 <= f(0, 0, 0) < |b.items|;
    o := S2.Favour(b.items, f);
    forall hash, x, r ensures S2.FirstMax(StrawDraws(o, b.(hash := hash), x, r)) == f(hash, x, r) {
      var d, k := StrawDraws(o, b.(hash := hash), x, r), f(hash, x, r);
      forall i | 0 <= i < |d| ensures d[i] == if i == k then b.alg.straws[k] else 0 {
        assert i != k ==> b.items[i] != b.items[k];
      }
      S2.FirstMaxUnique(d, S2.FirstMax(d), k);
    }
  }

  /** A device is out for want of weight, and with a partial weight for the hash values of `x` and
      the device whose 16 bits are not below it, which can fall either way. */
  lemma EveryOutcome(f: (int, int) -> bool) returns (o: Oracle)
    ensures forall c: Context, item :: c.o == o && 0 <= item < |c.weight| && 0 < c.weight[item] < 0x1_0000 ==>
              (IsOut(c, item) <==> f(c.x, item))
    ensures forall c: Context, item :: c.o == o && item >= 0 && (item < |c.weight| ==> c.weight[item] == 0) ==>
              IsOut(c, item)
    ensures forall c: Context, item :: c.o == o && 0 <= item < |c.weight| && c.weight[item] >= 0x1_0000 ==>
              !IsOut(c, item)
  {
    o := Oracle((x, item) => if f(x, item) then 0xffff else 0, (_, _, _, _) => 0, (_, _, _, _, _) => 0, _ => 0);
  }

  /** Arguments given with a query replace a straw2 bucket's ids and weights: it is drawn as a bucket
      with these, at the weights of the position or the last ones there are, and no item without weight
      there is drawn while another has some. */
  lemma ArgsReplace(c: Context, b: Bucket, r: nat, position: nat, ids: seq<int>, ws: seq<U32>)
    requires Ok(c) && InMap(c.m, b) && b.items != [] && b.alg.Straw2? && c.args.Some? && |ids| == |ws| == |b.items|
    requires var a := c.args.value[-1 - b.id];
             && ids == (if a.ids == None then b.items else a.ids.value)
             && ws == (if |a.weightSet| == 0 then b.alg.itemWeights
                       else if position < |a.weightSet| then a.weightSet[position]
                       else a.weightSet[|a.weightSet| - 1])
    ensures var given := b.(items := ids, alg := Straw2(ws));
            && BucketChoose(c, b, r, position) == b.items[S2.Straw2Slot(c.o, given, c.x, r)]
            && forall i :: 0 <= i < |ws| && ws[i] > 0 ==> ws[S2.Straw2Slot(c.o, given, c.x, r)] > 0
  {
    var given := b.(items := ids, alg := Straw2(ws));
    forall i | 0 <= i < |ws| && ws[i] > 0 ensures ws[S2.Straw2Slot(c.o, given, c.x, r)] > 0 {
      S2.WeightlessNeverChosen(c.o, given, i, c.x, r);
    }
  }

  /** `struct crush_work`: one permutation cache per bucket. */
  class Workspace {
    const work: seq<Perm.WorkBucket>
    ghost const Repr: set<object>

    ghost predicate Valid(c: Context)
      reads Repr
    {
      && |work| == |c.m.buckets|
      && (forall i :: 0 <= i < |work| ==> work[i] in Repr && work[i].perm in Repr)
      && (forall i :: 0 <= i < |work| && c.m.buckets[i].Some? ==>
            work[i].Valid(c.o, c.m.buckets[i].value))
      && (forall i, j :: 0 <= i < j < |work| ==> work[i] != work[j] && work[i].perm != work[j].perm)
    }

    /** `crush_init_workspace`. */
    constructor (m: CrushMap)
      ensures fresh(Repr)
      ensures forall c: Context :: c.m == m ==> Valid(c)
    {
      var ws: seq<Perm.WorkBucket> := [];
      ghost var repr: set<object> := {};
      for b := 0 to |m.buckets|
        invariant |ws| == b && fresh(repr)
        invariant forall i :: 0 <= i < b ==>
                    ws[i] in repr && ws[i].perm in repr && ws[i].permN == 0 &&
                    (m.buckets[i].Some? ==> ws[i].perm.Length == |m.buckets[i].value.items|)
        invariant forall i, j :: 0 <= i < j < b ==> ws[i] != ws[j] && ws[i].perm != ws[j].perm
      {
        var w := new Perm.WorkBucket(if m.buckets[b].Some? then |m.buckets[b].value.items| else 0);
        ws := ws + [w];
        repr := repr + {w, w.perm};
      }
      work, Repr := ws, repr;
    }
  }

  method StrawChoose(o: Oracle, b: Bucket, x: int, r: int) returns (item: int)
    requires b.alg.Straw? && |b.alg.straws| == |b.items| > 0
    ensures item == b.items[S2.FirstMax(StrawDraws(o, b, x, r))]
  {
    ghost var d := StrawDraws(o, b, x, r);
    var high, highDraw := 0, 0;
    for i := 0 to |b.items|
      invariant i > 0 ==> high < i && highDraw == d[high]
      invariant forall k :: 0 <= k < high < i ==> d[k] < highDraw
      invariant forall k :: high <= k < i ==> d[k] <= highDraw
    {
      var draw := (o.h3(b.hash, x, b.items[i], r) % 0x10000) as int * b.alg.straws[i];
      if i == 0 || draw > highDraw {
        high, highDraw := i, draw;
      }
    }
    S2.FirstMaxUnique(d, high, S2.FirstMax(d));
    item := b.items[high];
  }

  /** `bucket_perm_choose` on the workspace of a map. */
  method PermChooseIn(c: Context, ws: Workspace, b: Bucket, r: nat) returns (item: int)
    requires Ok(c) && InMap(c.m, b) && b.items != [] && ws.Valid(c)
    modifies ws.Repr
    ensures ws.Valid(c)
    ensures item == Perm.PermItem(c.o, b, c.x, r)
  {
    item := Perm.PermChoose(c.o, b, ws.work[-1 - b.id], c.x, r);
  }

  /** `crush_bucket_choose`. */
  method ChooseFrom(c: Context, ws: Workspace, b: Bucket, r: nat, position: nat) returns (item: int)
    requires Ok(c) && InMap(c.m, b) && b.items != [] && ws.Valid(c)
    modifies ws.Repr
    ensures ws.Valid(c)
    ensures item == BucketChoose(c, b, r, position)
  {
    match b.alg
    case Uniform(_) => item := PermChooseIn(c, ws, b, r);
    case List(_, _) => item := LB.ListChoose(c.o, b, c.x, r);
    case Tree(_) =>
      TB.TreeSlotInBounds(c.o, b, c.x, r);
      item := TB.TreeChoose(c.o, b, c.x, r);
    case Straw(_) => item := StrawChoose(c.o, b, c.x, r);
    case Straw2(_) =>
      item := S2.Straw2Choose(c.o, b.hash, c.x, b.items, ArgIds(c, b), ArgWeights(c, b, position), r);
    case Unknown => item := b.items[0];
  }
}
