/** `CrushMapGenerator`: HDCS's two-level crush map, one host bucket per slave, and the
    replica query that masks the asking host. */
module Generator {
  import opened Basics
  import opened CrushTypes
  import opened CrushMaps
  import opened Rule
  import opened Firstn
  import opened FirstnExact
  import opened HostPicks
  import S2 = Straw2Buckets

  const TYPE_ROOT: int := 1
  const TYPE_HOST: int := 2
  const WEIGHT_HIGH: U32 := 0x10000
  const HASH_DEFAULT: int := 0

  /** The tunables of `set_optimal_crush_map`. */
  const OPTIMAL: Tunables := Tunables(50, 0, 0, true, 1, true)

  /** Take the root, one device under each of as many hosts as fit, emit. */
  const RULE: seq<Step> := [TakeStep(-1), Choose(true, true, 0, TYPE_HOST), Emit]

  function HostBucket(i: nat): Bucket {
    Bucket(-2 - i, TYPE_HOST, HASH_DEFAULT, WEIGHT_HIGH, [i], Straw2([WEIGHT_HIGH]))
  }

  function RootBucket(n: nat): Bucket
    requires n <= 65535
  {
    Bucket(-1, TYPE_ROOT, HASH_DEFAULT, n * 0x10000, seq(n, i => -2 - i), Straw2(seq(n, _ => WEIGHT_HIGH)))
  }

  /** The bucket array after `n` hosts: root, hosts in order, unused slots. */
  ghost predicate HoldsHosts(bs: seq<Option<Bucket>>, n: nat) {
    && n <= 65535 && n < |bs|
    && bs[0] == Some(RootBucket(n))
    && (forall k :: 1 <= k <= n ==> bs[k] == Some(HostBucket(k - 1)))
    && (forall k :: n < k < |bs| ==> bs[k] == None)
  }

  /** The generated map is well-formed, and its devices are exactly the host indices. */
  lemma HostMapWellFormed(bs: seq<Option<Bucket>>, n: nat)
    requires HoldsHosts(bs, n)
    ensures WellFormed(CrushMap(bs, n))
  {
    var m := CrushMap(bs, n);
    var rank := seq(|bs|, i => if i == 0 then 1 else 0);
    forall id, k | Edge(m, id, k)
      ensures Has(m, k) && rank[-1 - k] < rank[-1 - id]
    {
      if id == -1 {
        var i :| 0 <= i < n && RootBucket(n).items[i] == k;
        assert bs[i + 1] == Some(HostBucket(i));
      }
    }
    RankIsEnough(m, rank);
    forall id | Has(m, id)
      ensures Get(m, id).id == id && Get(m, id).kind > 0 && BucketOk(Get(m, id))
    {
      if id != -1 {
        assert bs[-1 - id] == Some(HostBucket(-2 - id));
      }
    }
  }

  lemma RootGrows(n: nat)
    requires n < 65535
    ensures S2.Appended(RootBucket(n), -2 - n, WEIGHT_HIGH) == RootBucket(n + 1)
    ensures !AdditionIsUnsafe(RootBucket(n).weight, WEIGHT_HIGH)
  {
    assert RootBucket(n).items + [-2 - n] == RootBucket(n + 1).items;
    assert RootBucket(n).alg.itemWeights + [WEIGHT_HIGH] == RootBucket(n + 1).alg.itemWeights;
  }

  lemma HostsGrow(bs: seq<Option<Bucket>>, cs: seq<Option<Bucket>>, n: nat)
    requires HoldsHosts(bs, n) && n < 65535 && n + 1 < |cs|
    requires cs[1..n + 1] == bs[1..n + 1] && cs[n + 1] == Some(HostBucket(n)) && cs[0] == Some(RootBucket(n + 1))
    requires forall k :: n + 1 < k < |cs| ==> cs[k] == None
    ensures HoldsHosts(cs, n + 1)
  {
    forall k | 1 <= k <= n
      ensures cs[k] == Some(HostBucket(k - 1))
    {
      assert cs[k] == cs[1..n + 1][k - 1];
    }
  }

  lemma SingleWeight()
    ensures Sum([WEIGHT_HIGH]) == WEIGHT_HIGH
  {
    SumAppend([], WEIGHT_HIGH);
    assert [] + [WEIGHT_HIGH] == [WEIGHT_HIGH];
  }

  /** The device indices chosen for host `i`: the rule run with that host's weight masked. */
  ghost function SlavesOf(o: Oracle, bs: seq<Option<Bucket>>, n: nat, weight: seq<U32>, i: nat, replication: nat)
    : (r: seq<int>)
    requires HoldsHosts(bs, n) && |weight| == n && i < n && replication >= 1
  {
    HostMapWellFormed(bs, n);
    Execute(Context(o, CrushMap(bs, n), weight[i := 0], i, None), OPTIMAL, Start(OPTIMAL), RULE, replication).result
  }

  /** At most `replication` distinct hosts, all up, never the asking host itself. */
  lemma SlavesAreLiveAndDistinct(o: Oracle, bs: seq<Option<Bucket>>, n: nat, weight: seq<U32>, i: nat, replication: nat)
    requires HoldsHosts(bs, n) && |weight| == n && i < n && replication >= 1
    requires forall k :: 0 <= k < n ==> weight[k] == 0 || weight[k] == WEIGHT_HIGH
    ensures var r := SlavesOf(o, bs, n, weight, i, replication);
            && |r| <= replication && Distinct(r)
            && forall k :: 0 <= k < |r| ==> 0 <= r[k] < n && r[k] != i && weight[r[k]] == WEIGHT_HIGH
  {
    hide Execute;
    HostMapWellFormed(bs, n);
    var c := Context(o, CrushMap(bs, n), weight[i := 0], i, None);
    SingleChooseleafRule(c, OPTIMAL, -1, TYPE_HOST, replication);
    var r := SlavesOf(o, bs, n, weight, i, replication);
    assert r == Execute(c, OPTIMAL, Start(OPTIMAL), RULE, replication).result;
    forall k | 0 <= k < |r|
      ensures 0 <= r[k] < n && r[k] != i && weight[r[k]] == WEIGHT_HIGH
    {
      assert !IsOut(c, r[k]);
    }
  }

  /* ---- which hosts are chosen ---- */

  /** The host that the root draws for host `i` at a rank. */
  function HostDraw(o: Oracle, n: nat, i: nat): nat -> int
    requires 1 <= n <= 65535
  {
    (r: nat) => S2.Straw2Slot(o, RootBucket(n), i, r)
  }

  /** The hosts that are up, without `i`. */
  function Others(weight: seq<U32>, i: nat): (up: set<int>)
    ensures forall k :: k in up <==> 0 <= k < |weight| && k != i && weight[k] != 0
  {
    set k | 0 <= k < |weight| && k != i && weight[k] != 0
  }

  ghost predicate HostContext(c: Context, n: nat, weight: seq<U32>, i: nat) {
    && HoldsHosts(c.m.buckets, n) && c.m.maxDevices == n && i < n == |weight| && Ok(c)
    && c.weight == weight[i := 0] && c.x == i && c.args == None
    && forall k :: 0 <= k < n ==> weight[k] == 0 || weight[k] == WEIGHT_HIGH
  }

  const HDCS_TUNE: Tune := Tune(51, 1, 0, 0, 1, true)

  lemma RootFalls(c: Context, n: nat, weight: seq<U32>, i: nat, r: nat, position: nat)
    requires HostContext(c, n, weight, i)
    ensures Has(c.m, -1) && Get(c.m, -1) == RootBucket(n)
    ensures var k := HostDraw(c.o, n, i)(r);
            && 0 <= k < n && Has(c.m, -2 - k) && Get(c.m, -2 - k) == HostBucket(k)
            && Falls(c, RootBucket(n), TYPE_HOST, r, position) == On(-2 - k)
  {
    var k := HostDraw(c.o, n, i)(r);
    assert c.m.buckets[k + 1] == Some(HostBucket(k));
    assert BucketChoose(c, RootBucket(n), r, position) == RootBucket(n).items[k];
  }

  lemma HostFalls(c: Context, n: nat, weight: seq<U32>, i: nat, k: nat, r: nat, position: nat)
    requires HostContext(c, n, weight, i) && k < n
    ensures Has(c.m, -2 - k) && Get(c.m, -2 - k) == HostBucket(k)
    ensures Falls(c, HostBucket(k), 0, r, position) == On(k)
  {
    assert c.m.buckets[k + 1] == Some(HostBucket(k));
    assert BucketChoose(c, HostBucket(k), r, position) == k;
  }

  lemma UpIsIn(c: Context, n: nat, weight: seq<U32>, i: nat, k: nat)
    requires HostContext(c, n, weight, i) && k < n
    ensures IsOut(c, k) <==> k !in Others(weight, i)
  {
  }

  /** The search so far: each item is the host of its leaf. */
  ghost predicate HostQuery(q: Query, n: nat) {
    && n <= 65535 && q.top == RootBucket(n) && q.kind == TYPE_HOST && q.leafMode && |q.chosen| == |q.leaves|
    && forall k :: 0 <= k < |q.leaves| ==> q.chosen[k] == -2 - q.leaves[k]
  }

  lemma HostChosen(q: Query, n: nat, k: int)
    requires HostQuery(q, n)
    ensures -2 - k in q.chosen <==> k in q.leaves
  {
    if k in q.leaves {
      var j :| 0 <= j < |q.leaves| && q.leaves[j] == k;
      assert q.chosen[j] == -2 - k;
    }
  }

  /** A rank gives a slot exactly if it draws a host that is up and not taken. */
  lemma HostTakes(c: Context, n: nat, weight: seq<U32>, i: nat, q: Query, r: nat, p: Pick)
    requires 1 <= n <= 65535
    requires HostContext(c, n, weight, i) && HostQuery(q, n) && Asks(c, q)
    ensures var k := HostDraw(c.o, n, i)(r);
            Takes(c, HDCS_TUNE, q, r, p) <==>
            p == Pick(-2 - k, k) && k in Others(weight, i) && k !in q.leaves
  {
    hide Falls, HostContext;
    var k := HostDraw(c.o, n, i)(r);
    RootFalls(c, n, weight, i, r, |q.chosen|);
    HostChosen(q, n, k);
    UpIsIn(c, n, weight, i, k);
    var from := LeafFrom(HDCS_TUNE, r, |q.chosen|);
    HostFalls(c, n, weight, i, k, from, |q.leaves|);
    HostLeaf(c, n, weight, i, q, k, from, p.leaf);
  }

  lemma HostLeaf(c: Context, n: nat, weight: seq<U32>, i: nat, q: Query, k: nat, from: nat, leaf: int)
    requires HostContext(c, n, weight, i) && k < n && Ok(c) && InMap(c.m, HostBucket(k))
    ensures GivesFirst(c, HostBucket(k), 0, q.leaves, from, 1, leaf) <==>
            leaf == k && k in Others(weight, i) && k !in q.leaves
  {
    hide Falls;
    HostFalls(c, n, weight, i, k, from, |q.leaves|);
    UpIsIn(c, n, weight, i, k);
    assert GivesNone(c, HostBucket(k), 0, q.leaves, from, from);
    if Gives(c, HostBucket(k), 0, q.leaves, from, k) {
      assert GivesFirst(c, HostBucket(k), 0, q.leaves, from, 1, k);
    }
  }

  lemma HostDecides(c: Context, n: nat, weight: seq<U32>, i: nat, q: Query, r: nat)
    requires 1 <= n <= 65535
    requires HostContext(c, n, weight, i) && HostQuery(q, n) && Asks(c, q)
    ensures var k := HostDraw(c.o, n, i)(r);
            Decides(c, HDCS_TUNE, q, r) <==> k in Others(weight, i) && k !in q.leaves
  {
    hide Falls, Takes, HostContext;
    var k := HostDraw(c.o, n, i)(r);
    RootFalls(c, n, weight, i, r, |q.chosen|);
    HostTakes(c, n, weight, i, q, r, Pick(-2 - k, k));
    if p :| Takes(c, HDCS_TUNE, q, r, p) {
      HostTakes(c, n, weight, i, q, r, p);
    }
  }

  lemma HostFirst(c: Context, n: nat, weight: seq<U32>, i: nat, q: Query, from: nat, tries: nat, p: Pick)
    requires 1 <= n <= 65535
    requires HostContext(c, n, weight, i) && HostQuery(q, n) && Asks(c, q)
    ensures var d := HostDraw(c.o, n, i);
            var r := NextRank(d, Others(weight, i), q.leaves, from, tries);
            IsFirst(c, HDCS_TUNE, q, from, tries, p) <==> r.Some? && p == Pick(-2 - d(r.value), d(r.value))
  {
    hide Takes, Decides, HostContext, HostQuery, NextRank, HostDraw, Others;
    var d := HostDraw(c.o, n, i);
    var r := NextRank(d, Others(weight, i), q.leaves, from, tries);
    forall s: nat ensures Decides(c, HDCS_TUNE, q, s) <==> d(s) in Others(weight, i) && d(s) !in q.leaves {
      HostDecides(c, n, weight, i, q, s);
    }
    if IsFirst(c, HDCS_TUNE, q, from, tries, p) {
      var s :| from <= s < from + tries && Takes(c, HDCS_TUNE, q, s, p) && NoneBefore(c, HDCS_TUNE, q, from, s);
      HostTakes(c, n, weight, i, q, s, p);
    }
    if r.Some? && p == Pick(-2 - d(r.value), d(r.value)) {
      HostTakes(c, n, weight, i, q, r.value, p);
      assert NoneBefore(c, HDCS_TUNE, q, from, r.value);
    }
  }

  lemma {:induction false} HostFills(c: Context, n: nat, weight: seq<U32>, i: nat, q: Query, slots: nat, rep: nat,
                                     room: nat, e: Query)
    requires 1 <= n <= 65535
    requires HostContext(c, n, weight, i) && HostQuery(q, n) && Asks(c, q) && rep <= slots <= rep + room
    requires Fills(c, HDCS_TUNE, q, slots, rep, room, 0, e)
    ensures e.leaves == Picks(HostDraw(c.o, n, i), Others(weight, i), 51, slots, rep, q.leaves)
    decreases slots - rep
  {
    hide IsFirst, HostContext, Asks, NextRank, HostDraw, Others, Window, Fills, Picks, HostQuery;
    if rep == slots {
      FillsDone(c, HDCS_TUNE, q, slots, rep, room, 0, e);
    } else {
      WindowOfHosts();
      var d := HostDraw(c.o, n, i);
      PicksNext(d, Others(weight, i), 51, slots, rep, q.leaves);
      var r := NextRank(d, Others(weight, i), q.leaves, rep, 51);
      forall p ensures IsFirst(c, HDCS_TUNE, q, rep, 51, p) <==> r.Some? && p == Pick(-2 - d(r.value), d(r.value)) {
        HostFirst(c, n, weight, i, q, rep, 51, p);
      }
      if r.Some? {
        var p := Pick(-2 - d(r.value), d(r.value));
        HostQueryGrows(q, n, d(r.value));
        FillsOne(c, HDCS_TUNE, q, slots, rep, room, 0, e, p, rep);
        HostFills(c, n, weight, i, With(q, p), slots, rep + 1, room - 1, e);
      } else {
        FillsGap(c, HDCS_TUNE, q, slots, rep, room, 0, e, rep);
        HostFills(c, n, weight, i, q, slots, rep + 1, room, e);
      }
    }
  }

  lemma HostQueryGrows(q: Query, n: nat, k: int)
    requires HostQuery(q, n)
    ensures var p := With(q, Pick(-2 - k, k)); HostQuery(p, n) && p.leaves == q.leaves + [k]
  {
  }

  lemma WindowOfHosts()
    ensures Window(HDCS_TUNE.tries) == 51
  {
  }

  /** The answer is the picks of the root's draws among the other hosts that are up: 51 ranks for
      each slot, from the slot's own number on. */
  lemma SlavesArePicks(o: Oracle, bs: seq<Option<Bucket>>, n: nat, weight: seq<U32>, i: nat, replication: nat)
    requires HoldsHosts(bs, n) && |weight| == n && i < n && replication >= 1
    requires forall k :: 0 <= k < n ==> weight[k] == 0 || weight[k] == WEIGHT_HIGH
    ensures SlavesOf(o, bs, n, weight, i, replication) ==
            Picks(HostDraw(o, n, i), Others(weight, i), 51, replication, 0, [])
  {
    hide Execute, Collect, Fills;
    HostMapWellFormed(bs, n);
    var c := Context(o, CrushMap(bs, n), weight[i := 0], i, None);
    SingleChooseleafRule(c, OPTIMAL, -1, TYPE_HOST, replication);
    var q := Query(RootBucket(n), TYPE_HOST, true, [], []);
    FirstnFills(c, HDCS_TUNE, q, replication, 0, replication, 0);
    var e := Collect(c, HDCS_TUNE, q, replication, 0, replication, 0);
    HostFills(c, n, weight, i, q, replication, 0, replication, e);
  }

  ghost function Named(names: seq<string>, r: seq<int>): (d: seq<string>)
    requires forall k :: 0 <= k < |r| ==> 0 <= r[k] < |names|
    ensures |d| == |r| && forall k :: 0 <= k < |r| ==> d[k] == names[r[k]]
  {
    seq(|r|, k requires 0 <= k < |r| => names[r[k]])
  }

  class CrushMapGenerator {
    const o: Oracle
    /** The number of slaves asked for per master. */
    const replication: nat
    const root: S2.Straw2Bucket
    var buckets: seq<Option<Bucket>>
    var maxDevices: nat
    var hostIndex: map<string, nat>
    var hostCount: nat
    var weights: array<U32>
    var ws: Workspace
    /** Host names by index. */
    ghost var names: seq<string>

    /** The host table numbers its hosts 0, 1, ... without gaps. */
    ghost predicate Numbered()
      reads this
    {
      && hostCount == |names| == |hostIndex|
      && (forall h :: h in hostIndex ==> hostIndex[h] < |names| && names[hostIndex[h]] == h)
      && (forall i :: 0 <= i < |names| ==> names[i] in hostIndex && hostIndex[names[i]] == i)
    }

    /** While hosts are being added. */
    ghost predicate Growing()
      reads this, root
    {
      && Numbered() && HoldsHosts(buckets, hostCount)
      && root.Valid() && root.Value() == RootBucket(hostCount)
      && root.kind == TYPE_ROOT
    }

    /** After `build`. */
    ghost predicate Valid()
      reads this, weights, ws, ws.Repr
    {
      && Numbered() && HoldsHosts(buckets, hostCount) && maxDevices == hostCount
      && weights.Length == hostCount
      && (forall i :: 0 <= i < weights.Length ==> weights[i] == 0 || weights[i] == WEIGHT_HIGH)
      && weights !in ws.Repr && this !in ws.Repr
      && replication >= 1
      && ws.Valid(Ctx(0, []))
    }

    function Ctx(x: int, weight: seq<U32>): Context
      reads this
    {
      Context(o, CrushMap(buckets, maxDevices), weight, x, None)
    }

    /** Is this host's slave process up? */
    ghost predicate Up(host: string)
      requires Valid()
      reads this, weights, ws, ws.Repr
    {
      host in hostIndex && weights[hostIndex[host]] == WEIGHT_HIGH
    }

    constructor (o: Oracle, replication: nat)
      ensures Growing() && hostCount == 0 && this.o == o && this.replication == replication
      ensures fresh(root)
    {
      var r := new S2.Straw2Bucket(HASH_DEFAULT, TYPE_ROOT, [], []);
      r.id := -1;
      root := r;
      this.o, this.replication := o, replication;
      buckets := [Some(r.Value())] + seq(7, _ => None);
      maxDevices, hostIndex, hostCount, names := 0, map[], 0, [];
      weights := new U32[0];
      ws := new Workspace(CrushMap([], 0));
      new;
      assert root.items == seq(0, i => -2 - i);
      assert root.itemWeights == seq(0, _ => WEIGHT_HIGH);
    }

    /** `crush_add_bucket` with id 0: the first unused slot; the array doubles when full. */
    method AddBucket(b: S2.Straw2Bucket)
      requires HoldsHosts(buckets, hostCount) && hostCount < 65535
      modifies this`buckets, b`id
      ensures b.id == -2 - hostCount
      ensures |buckets| > hostCount + 1 && buckets[..hostCount + 1] == old(buckets)[..hostCount + 1]
      ensures buckets[hostCount + 1] == Some(b.Value())
      ensures forall k :: hostCount + 1 < k < |buckets| ==> buckets[k] == None
    {
      var pos := 0;
      while pos < |buckets| && buckets[pos].Some?
        invariant pos <= |buckets| && pos <= hostCount + 1
      {
        assert pos != 0 ==> pos <= hostCount;
        pos := pos + 1;
      }
      assert pos == hostCount + 1;
      while pos >= |buckets|
        invariant |buckets| > hostCount
        invariant buckets[..hostCount + 1] == old(buckets)[..hostCount + 1]
        invariant forall k :: hostCount < k < |buckets| ==> buckets[k] == None
      {
        buckets := buckets + seq(|buckets|, _ => None);
      }
      b.id := -1 - pos;
      buckets := buckets[pos := Some(b.Value())];
    }

    /** `add_host` for a new name.  The code aborts when the root's weight would leave 32
        bits, that is beyond 65535 hosts. */
    method AddHost(host: string)
      requires Growing() && host !in hostIndex && hostCount < 65535
      modifies this, root
      ensures Growing() && names == old(names) + [host]
      ensures hostIndex == old(hostIndex)[host := old(hostCount)]
    {
      PlaceHost();
      hostIndex, hostCount, names := hostIndex[host := hostCount], hostCount + 1, names + [host];
    }

    /** The crush side of `add_host`: a host bucket, and its entry in the root. */
    method PlaceHost()
      requires HoldsHosts(buckets, hostCount) && hostCount < 65535
      requires root.Valid() && root.Value() == RootBucket(hostCount)
      modifies this`buckets, root
      ensures HoldsHosts(buckets, hostCount + 1)
      ensures root.Valid() && root.Value() == RootBucket(hostCount + 1)
    {
      ghost var was := buckets;
      SingleWeight();
      RootGrows(hostCount);
      var b := new S2.Straw2Bucket(HASH_DEFAULT, TYPE_HOST, [hostCount], [WEIGHT_HIGH]);
      AddBucket(b);
      var ret := root.Add(b.id, b.weight);
      assert ret == 0;
      assert buckets[1..hostCount + 1] == buckets[..hostCount + 1][1..] == was[..hostCount + 1][1..];
      // the map holds a pointer to the root bucket
      buckets := buckets[0 := Some(root.Value())];
      HostsGrow(was, buckets, hostCount);
    }

    /** `build`: adds every host, in any order, and finalizes the map. */
    method Build(hosts: set<string>)
      requires Growing() && hostCount == 0 && |hosts| <= 65535 && replication >= 1
      modifies this, root
      ensures Valid() && hostIndex.Keys == hosts
      ensures fresh(weights) && fresh(ws) && fresh(ws.Repr)
      ensures forall h :: h in hosts ==> Up(h)
    {
      var todo := hosts;
      while todo != {}
        invariant Growing() && todo <= hosts && hostIndex.Keys == hosts - todo
        invariant hostCount + |todo| == |hosts|
        decreases |todo|
      {
        var h :| h in todo;
        AddHost(h);
        todo := todo - {h};
      }
      Finalize();
    }

    /** `finalize_host_tree`. */
    method Finalize()
      requires Growing() && replication >= 1
      modifies this
      ensures Valid() && hostIndex == old(hostIndex)
      ensures fresh(weights) && fresh(ws) && fresh(ws.Repr)
      ensures forall i :: 0 <= i < weights.Length ==> weights[i] == WEIGHT_HIGH
    {
      weights := AllUp(hostCount);
      maxDevices := CountDevices(buckets);
      DevicesOfHosts(buckets, hostCount, maxDevices);
      ws := new Workspace(CrushMap(buckets, maxDevices));
    }

    method OfflineHost(host: string)
      requires Valid()
      modifies weights
      ensures Valid()
      ensures forall h :: h in hostIndex ==> (Up(h) <==> h != host && old(Up(h)))
    {
      if host in hostIndex {
        weights[hostIndex[host]] := 0;
      }
    }

    method OnlineHost(host: string)
      requires Valid()
      modifies weights
      ensures Valid()
      ensures forall h :: h in hostIndex ==> (Up(h) <==> h == host || old(Up(h)))
    {
      if host in hostIndex {
        weights[hostIndex[host]] := WEIGHT_HIGH;
      }
    }

    /** The reference answer to `get_host_domain`. */
    ghost function Domain(host: string): (d: seq<string>)
      requires Valid()
      reads this, weights, ws, ws.Repr
    {
      DomainUnder(host, weights[..])
    }

    /** The same as a function of the device weights. */
    ghost function DomainUnder(host: string, w: seq<U32>): (d: seq<string>)
      requires Numbered() && HoldsHosts(buckets, hostCount) && |w| == hostCount && replication >= 1
      requires forall i :: 0 <= i < |w| ==> w[i] == 0 || w[i] == WEIGHT_HIGH
      reads this
    {
      if host !in hostIndex then []
      else
        SlavesAreLiveAndDistinct(o, buckets, hostCount, w, hostIndex[host], replication);
        var r := SlavesOf(o, buckets, hostCount, w, hostIndex[host], replication);
        Named(names, r)
    }

    lemma DomainIsSound(host: string)
      requires Valid()
      ensures var d := Domain(host);
              && |d| <= replication && Distinct(d)
              && forall k :: 0 <= k < |d| ==> d[k] in hostIndex && Up(d[k]) && d[k] != host
    {
      if host in hostIndex {
        SlavesAreLiveAndDistinct(o, buckets, hostCount, weights[..], hostIndex[host], replication);
      }
    }

    /** The host that the root draws for a host at a rank. */
    ghost function DrawnHost(host: string, rank: nat): string
      requires Valid() && host in hostIndex
      reads this, weights, ws, ws.Repr
    {
      names[HostDraw(o, hostCount, hostIndex[host])(rank)]
    }

    /** The answer, host by host: the picks of the root's draws among the other hosts that are up. */
    lemma DomainIsPicks(host: string)
      requires Valid() && host in hostIndex
      ensures var i := hostIndex[host];
              var p := Picks(HostDraw(o, hostCount, i), Others(weights[..], i), 51, replication, 0, []);
              && |Domain(host)| == |p|
              && forall k :: 0 <= k < |p| ==> 0 <= p[k] < |names| && Domain(host)[k] == names[p[k]]
    {
      SlavesArePicks(o, buckets, hostCount, weights[..], hostIndex[host], replication);
      SlavesAreLiveAndDistinct(o, buckets, hostCount, weights[..], hostIndex[host], replication);
    }

    /** One of the ranks looked at draws another host that is up. */
    ghost predicate Offered(host: string)
      requires Valid() && host in hostIndex
      reads this, weights, ws, ws.Repr
    {
      exists r: nat :: r < replication + 50 && OfferedAt(host, r)
    }

    ghost predicate OfferedAt(host: string, rank: nat)
      requires Valid() && host in hostIndex
      reads this, weights, ws, ws.Repr
    {
      DrawnHost(host, rank) != host && Up(DrawnHost(host, rank))
    }

    lemma OfferedIsUp(host: string, rank: nat)
      requires Valid() && host in hostIndex
      ensures var i := hostIndex[host];
              OfferedAt(host, rank) <==> HostDraw(o, hostCount, i)(rank) in Others(weights[..], i)
    {
      hide Workspace.Valid;
      var k := HostDraw(o, hostCount, hostIndex[host])(rank);
      assert names[k] in hostIndex && hostIndex[names[k]] == k;
    }

    /** There is an answer exactly when another host that is up is drawn in time. */
    lemma DomainIffOffered(host: string)
      requires Valid() && host in hostIndex
      ensures Domain(host) != [] <==> Offered(host)
    {
      hide Domain, DrawnHost, Up, Workspace.Valid, OfferedAt, Picks;
      var i := hostIndex[host];
      var d, up := HostDraw(o, hostCount, i), Others(weights[..], i);
      DomainIsPicks(host);
      SomePickIff(d, up, 51, replication, 0);
      if Offered(host) {
        var r: nat :| r < replication + 50 && OfferedAt(host, r);
        OfferedIsUp(host, r);
      }
      if r: nat :| r < replication + 50 && d(r) in up {
        OfferedIsUp(host, r);
      }
    }

    /** Its first host is the first such draw. */
    lemma FirstOffer(host: string, r: nat)
      requires Valid() && host in hostIndex && r < replication + 50 && OfferedAt(host, r)
      requires forall s: nat :: s < r ==> !OfferedAt(host, s)
      ensures Domain(host) != [] && Domain(host)[0] == DrawnHost(host, r)
    {
      hide Domain, Up, Workspace.Valid, OfferedAt, Picks;
      var i := hostIndex[host];
      var d, up := HostDraw(o, hostCount, i), Others(weights[..], i);
      DomainIsPicks(host);
      OfferedIsUp(host, r);
      forall s: nat | s < r ensures d(s) !in up {
        OfferedIsUp(host, s);
      }
      FirstPick(d, up, 51, replication, 0, r);
    }

    /** `get_host_domain`: the weight masked for the query is put back. */
    method GetHostDomain(host: string) returns (item: seq<string>)
      requires Valid()
      modifies weights, ws.Repr
      ensures Valid() && weights[..] == old(weights[..])
      ensures item == old(Domain(host))
    {
      hide HoldsHosts, SlavesOf, Named, Workspace.Valid;
      if host !in hostIndex {
        return [];
      }
      var i := hostIndex[host];
      ghost var w0 := weights[..];
      SlavesAreLiveAndDistinct(o, buckets, hostCount, w0, i, replication);
      var doReset := weights[i] != 0;
      weights[i] := 0;
      var r := Query(i, w0);
      item := NamesOf(r);
      if doReset {
        weights[i] := WEIGHT_HIGH;
      }
      assert weights[..] == w0;
    }

    /** The masked rule evaluation. */
    method Query(i: nat, ghost w0: seq<U32>) returns (r: seq<int>)
      requires Valid() && i < hostCount && |w0| == hostCount && weights[..] == w0[i := 0]
      modifies ws.Repr
      ensures Valid() && r == SlavesOf(o, buckets, hostCount, w0, i, replication)
    {
      HostMapWellFormed(buckets, hostCount);
      var c := Ctx(i, weights[..]);
      assert ws.Valid(c);
      r := DoRule(c, OPTIMAL, [RULE], 0, replication, ws);
      assert ws.Valid(Ctx(0, []));
    }

    /** The nested loops that turn indices into names; the host table is walked in any order. */
    method NamesOf(r: seq<int>) returns (item: seq<string>)
      requires Numbered() && forall k :: 0 <= k < |r| ==> 0 <= r[k] < |names|
      ensures item == Named(names, r)
    {
      item := seq(|r|, _ => "");
      var todo := hostIndex.Keys;
      while todo != {}
        invariant todo <= hostIndex.Keys && |item| == |r|
        invariant forall k :: 0 <= k < |r| && names[r[k]] !in todo ==> item[k] == names[r[k]]
        decreases |todo|
      {
        var h :| h in todo;
        for i := 0 to |r|
          invariant |item| == |r|
          invariant forall k :: 0 <= k < |r| && names[r[k]] !in todo ==> item[k] == names[r[k]]
          invariant forall k :: 0 <= k < i && names[r[k]] == h ==> item[k] == h
        {
          if hostIndex[h] == r[i] {
            item := item[i := h];
          }
        }
        todo := todo - {h};
      }
    }

    /** `get`: the answers for all hosts. */
    method GetAll() returns (d: map<string, seq<string>>)
      requires Valid()
      modifies weights, ws.Repr
      ensures Valid() && weights[..] == old(weights[..])
      ensures d.Keys == hostIndex.Keys
      ensures forall h :: h in d ==> d[h] == old(Domain(h)) == Domain(h)
    {
      hide DomainUnder, HoldsHosts, Numbered;
      d := map[];
      var todo := hostIndex.Keys;
      while todo != {}
        invariant Valid() && weights[..] == old(weights[..])
        invariant todo <= hostIndex.Keys && d.Keys == hostIndex.Keys - todo
        invariant forall h :: h in d ==> d[h] == old(Domain(h))
        decreases |todo|
      {
        var h :| h in todo;
        var item := GetHostDomain(h);
        d := d[h := item];
        todo := todo - {h};
      }
    }
  }

  method AllUp(n: nat) returns (w: array<U32>)
    ensures fresh(w) && w.Length == n && forall k :: 0 <= k < n ==> w[k] == WEIGHT_HIGH
  {
    w := new U32[n];
    for i := 0 to n
      invariant forall k :: 0 <= k < i ==> w[k] == WEIGHT_HIGH
    {
      w[i] := WEIGHT_HIGH;
    }
  }

  /** The loop of `crush_finalize` that finds the highest device number. */
  method CountDevices(bs: seq<Option<Bucket>>) returns (n: nat)
    ensures forall b :: 0 <= b < |bs| && bs[b].Some? ==> forall k :: k in bs[b].value.items ==> k < n
    ensures n > 0 ==> exists b :: 0 <= b < |bs| && bs[b].Some? && n - 1 in bs[b].value.items
  {
    n := 0;
    for b := 0 to |bs|
      invariant forall c :: 0 <= c < b && bs[c].Some? ==> forall k :: k in bs[c].value.items ==> k < n
      invariant n > 0 ==> exists c :: 0 <= c < b && bs[c].Some? && n - 1 in bs[c].value.items
    {
      if bs[b].Some? {
        var items := bs[b].value.items;
        for i := 0 to |items|
          invariant forall c :: 0 <= c < b && bs[c].Some? ==> forall k :: k in bs[c].value.items ==> k < n
          invariant forall k :: 0 <= k < i ==> items[k] < n
          invariant n > 0 ==> exists c :: 0 <= c <= b && bs[c].Some? && n - 1 in bs[c].value.items
        {
          if items[i] >= n {
            n := items[i] + 1;
            assert n - 1 in bs[b].value.items;
          }
        }
      }
    }
  }

  lemma DevicesOfHosts(bs: seq<Option<Bucket>>, n: nat, d: nat)
    requires HoldsHosts(bs, n)
    requires forall b :: 0 <= b < |bs| && bs[b].Some? ==> forall k :: k in bs[b].value.items ==> k < d
    requires d > 0 ==> exists b :: 0 <= b < |bs| && bs[b].Some? && d - 1 in bs[b].value.items
    ensures d == n
  {
    if n > 0 {
      assert bs[n] == Some(HostBucket(n - 1));
      assert n - 1 in bs[n].value.items;
    }
    if d > 0 {
      var b :| 0 <= b < |bs| && bs[b].Some? && d - 1 in bs[b].value.items;
      if b > 0 {
        assert bs[b] == Some(HostBucket(b - 1));
      }
    }
  }
}
