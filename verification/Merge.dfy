/** `DataStoreRequest`: the whole-block writes of one request are merged into extents as
    they arrive, and submitted together. */
module Merge {
  import opened Split
  import opened Volume

  /** A pointer: an allocation and an offset in it.  Distinct allocations never touch. */
  datatype Ptr = Ptr(buf: nat, off: nat)

  datatype Extent = Extent(size: nat, data: Ptr)

  function Plus(p: Ptr, n: nat): Ptr {
    Ptr(p.buf, p.off + n)
  }

  /** Where the data of each block of a request lies.  Data that lies end to end belongs to
      successive blocks. */
  datatype Layout = Layout(ptr: map<nat, Ptr>, bs: nat, n: nat)

  /** The data of block `b` lies directly behind that of block `a`. */
  ghost predicate Follows(l: Layout, a: nat, b: nat) {
    a in l.ptr && b in l.ptr && Plus(l.ptr[a], l.bs) == l.ptr[b]
  }

  ghost predicate Proper(l: Layout) {
    && l.bs > 0
    && (forall b :: b in l.ptr ==> b < l.n)
    && (forall a, b :: Follows(l, a, b) ==> b == a + 1)
  }

  /** The size of `k` blocks. */
  function Bytes(bs: nat, k: nat): nat {
    if k == 0 then 0 else Bytes(bs, k - 1) + bs
  }

  lemma {:induction false} BytesIsProduct(bs: nat, k: nat)
    ensures Bytes(bs, k) == bs * k
  {
    if k > 0 {
      BytesIsProduct(bs, k - 1);
    }
  }

  /** Block `a + 1` is in `s` together with `a`, and its data follows directly. */
  ghost predicate Linked(l: Layout, s: set<nat>, a: int)
    requires s <= l.ptr.Keys
  {
    a in s && a + 1 in s && Follows(l, a, a + 1)
  }

  /** The blocks from `a` up to `e` are in `s` and their data lies end to end. */
  ghost predicate Chain(l: Layout, s: set<nat>, a: int, e: int)
    requires s <= l.ptr.Keys
  {
    && 0 <= a < e
    && (forall k :: a <= k < e ==> k in s)
    && (forall k :: a <= k < e - 1 ==> Linked(l, s, k))
  }

  lemma ChainGrows(l: Layout, s: set<nat>, t: set<nat>, a: int, e: int)
    requires s <= t <= l.ptr.Keys && Chain(l, s, a, e)
    ensures Chain(l, t, a, e)
  {
    forall k | a <= k < e - 1 ensures Linked(l, t, k) {
      assert Linked(l, s, k);
    }
  }

  lemma ChainsJoin(l: Layout, s: set<nat>, a: int, m: int, e: int)
    requires s <= l.ptr.Keys && Chain(l, s, a, m) && Chain(l, s, m, e) && Linked(l, s, m - 1)
    ensures Chain(l, s, a, e)
  {
  }

  /** A chain that nothing continues on either side. */
  ghost predicate Maximal(l: Layout, s: set<nat>, a: int, e: int)
    requires s <= l.ptr.Keys
  {
    Chain(l, s, a, e) && !Linked(l, s, a - 1) && !Linked(l, s, e - 1)
  }

  /** Runs that share a block are the same run. */
  lemma MaximalUnique(l: Layout, s: set<nat>, a: int, e: int, p: int, q: int, k: int)
    requires s <= l.ptr.Keys && Maximal(l, s, a, e) && Maximal(l, s, p, q)
    requires a <= k < e && p <= k < q
    ensures a == p && e == q
  {
  }

  /** The block after the last one of the run that `a` is in. */
  ghost function RunEnd(l: Layout, s: set<nat>, a: nat): (e: nat)
    requires Proper(l) && s <= l.ptr.Keys && a in s
    ensures Chain(l, s, a, e) && !Linked(l, s, e - 1)
    decreases l.n - a
  {
    if Linked(l, s, a) then
      var e := RunEnd(l, s, a + 1);
      ChainsJoin(l, s, a, a + 1, e);
      e
    else a + 1
  }

  /** The first block of the run that `a` is in. */
  ghost function RunStart(l: Layout, s: set<nat>, a: nat): (p: nat)
    requires Proper(l) && s <= l.ptr.Keys && a in s
    ensures Chain(l, s, p, a + 1) && !Linked(l, s, p - 1)
  {
    if Linked(l, s, a - 1) then
      var p := RunStart(l, s, a - 1);
      ChainsJoin(l, s, p, a, a + 1);
      p
    else a
  }

  ghost predicate Starts(l: Layout, s: set<nat>, a: nat)
    requires s <= l.ptr.Keys
  {
    a in s && !Linked(l, s, a - 1)
  }

  ghost function ExtentAt(l: Layout, s: set<nat>, a: nat): Extent
    requires Proper(l) && s <= l.ptr.Keys && a in s
  {
    Extent(Bytes(l.bs, RunEnd(l, s, a) - a), l.ptr[a])
  }

  /** The reference: one extent per maximal run of data that lies end to end.  It depends on
      the set of blocks that have arrived, not on their order. */
  ghost function Runs(l: Layout, s: set<nat>): (c: map<nat, Extent>)
    requires Proper(l) && s <= l.ptr.Keys
    ensures forall a: nat :: a in c <==> Starts(l, s, a)
    ensures forall a: nat :: a in c ==> a in s && c[a] == ExtentAt(l, s, a)
  {
    map a | a in s && Starts(l, s, a) :: ExtentAt(l, s, a)
  }

  /** Along a chain the data is contiguous. */
  lemma {:induction false} ChainIsContiguous(l: Layout, s: set<nat>, a: nat, e: nat)
    requires Proper(l) && s <= l.ptr.Keys && Chain(l, s, a, e)
    ensures Plus(l.ptr[a], Bytes(l.bs, e - a)) == Plus(l.ptr[e - 1], l.bs)
    decreases e
  {
    if a + 1 < e {
      ChainIsContiguous(l, s, a, e - 1);
      assert Linked(l, s, e - 2);
    } else {
      assert Bytes(l.bs, 0) == 0;
    }
  }

  /* ---- one more block ---- */

  /** The new block continues a run; a run continues the new block. */
  ghost predicate JoinsLeft(l: Layout, s: set<nat>, b: nat)
    requires s <= l.ptr.Keys && b in l.ptr
  {
    Linked(l, s + {b}, b - 1)
  }

  ghost predicate JoinsRight(l: Layout, s: set<nat>, b: nat)
    requires s <= l.ptr.Keys && b in l.ptr
  {
    Linked(l, s + {b}, b)
  }

  /** The first block of the run that `b` joins or starts. */
  ghost function NewStart(l: Layout, s: set<nat>, b: nat): (p: nat)
    requires Proper(l) && s <= l.ptr.Keys && b in l.ptr && b !in s
    ensures Chain(l, s + {b}, p, b + 1) && !Linked(l, s + {b}, p - 1)
    ensures p == b <==> !JoinsLeft(l, s, b)
    ensures p < b ==> Maximal(l, s, p, b)
  {
    if JoinsLeft(l, s, b) then
      var p := RunStart(l, s, b - 1);
      ChainGrows(l, s, s + {b}, p, b);
      ChainsJoin(l, s + {b}, p, b, b + 1);
      p
    else b
  }

  /** The end of the run that `b` joins or ends. */
  ghost function NewEnd(l: Layout, s: set<nat>, b: nat): (e: nat)
    requires Proper(l) && s <= l.ptr.Keys && b in l.ptr && b !in s
    ensures Chain(l, s + {b}, b, e) && !Linked(l, s + {b}, e - 1)
    ensures e == b + 1 <==> !JoinsRight(l, s, b)
    ensures e > b + 1 ==> Maximal(l, s, b + 1, e)
  {
    if JoinsRight(l, s, b) then
      var e := RunEnd(l, s, b + 1);
      ChainGrows(l, s, s + {b}, b + 1, e);
      ChainsJoin(l, s + {b}, b, b + 1, e);
      e
    else b + 1
  }

  lemma MaximalIsRun(l: Layout, s: set<nat>, a: nat, e: nat)
    requires Proper(l) && s <= l.ptr.Keys && Maximal(l, s, a, e)
    ensures Starts(l, s, a) && RunEnd(l, s, a) == e
  {
    MaximalUnique(l, s, a, e, a, RunEnd(l, s, a), a);
  }

  /** The runs after block `b` has arrived: both neighbours and `b` become one. */
  ghost predicate IsMerged(l: Layout, s: set<nat>, b: nat, c: map<nat, Extent>)
    requires Proper(l) && s <= l.ptr.Keys && b in l.ptr && b !in s
  {
    var p, e := NewStart(l, s, b), NewEnd(l, s, b);
    && p in c && c[p] == Extent(Bytes(l.bs, e - p), l.ptr[p])
    && forall a: nat :: a != p ==>
         && (a in c <==> a in Runs(l, s) && !(a == b + 1 && JoinsRight(l, s, b)))
         && (a in c ==> c[a] == Runs(l, s)[a])
  }

  lemma MergedRunMaximal(l: Layout, s: set<nat>, b: nat)
    requires Proper(l) && s <= l.ptr.Keys && b in l.ptr && b !in s
    ensures Maximal(l, s + {b}, NewStart(l, s, b), NewEnd(l, s, b))
  {
    hide Chain, NewStart, NewEnd;
    var p, e := NewStart(l, s, b), NewEnd(l, s, b);
    ChainEnds(l, s + {b}, b, e);
    if b + 1 < e {
      ChainGrows(l, s, s + {b}, b + 1, e);
      ChainsJoin(l, s + {b}, p, b + 1, e);
    }
  }

  lemma ChainEnds(l: Layout, s: set<nat>, a: int, e: int)
    requires s <= l.ptr.Keys && Chain(l, s, a, e)
    ensures 0 <= a < e && a in s && e - 1 in s
  {
  }

  /** A run that the new block does not touch stays. */
  lemma OtherRunStays(l: Layout, s: set<nat>, b: nat, a: nat)
    requires Proper(l) && s <= l.ptr.Keys && b in l.ptr && b !in s
    requires Starts(l, s, a) && a != NewStart(l, s, b) && !(a == b + 1 && JoinsRight(l, s, b))
    ensures Maximal(l, s + {b}, a, RunEnd(l, s, a))
  {
    hide NewStart, NewEnd, RunEnd;
    var e := RunEnd(l, s, a);
    ChainGrows(l, s, s + {b}, a, e);
    ChainEnds(l, s, a, e);
    assert e - 1 in s && e - 1 != b;
    assert !Linked(l, s + {b}, e - 1);
  }

  lemma MergedIsRuns(l: Layout, s: set<nat>, b: nat, c: map<nat, Extent>)
    requires Proper(l) && s <= l.ptr.Keys && b in l.ptr && b !in s && IsMerged(l, s, b, c)
    ensures c == Runs(l, s + {b})
  {
    hide NewStart, NewEnd, RunEnd, Chain, Linked, Starts, Runs;
    var t := s + {b};
    var p, e := NewStart(l, s, b), NewEnd(l, s, b);
    MergedRunMaximal(l, s, b);
    MaximalIsRun(l, t, p, e);
    forall a: nat ensures a in c <==> a in Runs(l, t) {
      if a != p { OtherStart(l, s, b, a); }
    }
    forall a: nat | a in c ensures c[a] == Runs(l, t)[a] {
      if a != p {
        OtherExtent(l, s, b, a);
      }
    }
  }

  lemma OtherExtent(l: Layout, s: set<nat>, b: nat, a: nat)
    requires Proper(l) && s <= l.ptr.Keys && b in l.ptr && b !in s
    requires a in Runs(l, s) && a != NewStart(l, s, b) && !(a == b + 1 && JoinsRight(l, s, b))
    ensures a in Runs(l, s + {b}) && Runs(l, s + {b})[a] == Runs(l, s)[a]
  {
    hide NewStart, NewEnd, RunEnd, Chain, Linked, Starts, Runs;
    OtherRunStays(l, s, b, a);
    MaximalIsRun(l, s + {b}, a, RunEnd(l, s, a));
  }

  lemma OtherStart(l: Layout, s: set<nat>, b: nat, a: nat)
    requires Proper(l) && s <= l.ptr.Keys && b in l.ptr && b !in s && a != NewStart(l, s, b)
    ensures Starts(l, s + {b}, a) <==> Starts(l, s, a) && !(a == b + 1 && JoinsRight(l, s, b))
  {
  }

  /* ---- the code ---- */

  /** The keys of an ordered map, in iteration order. */
  ghost predicate KeyOrder(ks: seq<nat>, keys: set<nat>) {
    && (forall i, j :: 0 <= i < j < |ks| ==> ks[i] < ks[j])
    && (forall k :: k in ks <==> k in keys)
  }

  predicate IsLeast(s: set<nat>, k: nat) {
    k in s && forall j :: j in s ==> k <= j
  }

  lemma {:induction false} LeastExists(s: set<nat>) returns (k: nat)
    requires s != {}
    ensures IsLeast(s, k)
    decreases |s|
  {
    k :| k in s;
    var r := s - {k};
    assert forall j :: j in s ==> j == k || j in r;
    if r != {} {
      var m := LeastExists(r);
      k := if k < m then k else m;
    }
  }

  /** The keys of a map in increasing order. */
  lemma {:induction false} InOrder(keys: set<nat>) returns (ks: seq<nat>)
    ensures KeyOrder(ks, keys)
    decreases |keys|
  {
    ks := [];
    if keys != {} {
      var k := LeastExists(keys);
      var rest := InOrder(keys - {k});
      assert forall j :: j in keys <==> j == k || j in keys - {k};
      assert forall i :: 0 <= i < |rest| ==> rest[i] in keys - {k};
      ks := [k] + rest;
    }
  }

  method SortedKeys(keys: set<nat>) returns (ks: seq<nat>)
    ensures KeyOrder(ks, keys)
  {
    ks := [];
    var todo := keys;
    while todo != {}
      invariant todo <= keys
      invariant forall i, j :: 0 <= i < j < |ks| ==> ks[i] < ks[j]
      invariant forall k :: k in keys ==> k in ks || k in todo
      invariant forall i :: 0 <= i < |ks| ==> ks[i] in keys
      invariant forall i, j :: 0 <= i < |ks| && j in todo ==> ks[i] < j
      decreases |todo|
    {
      ghost var least := LeastExists(todo);
      assert least in todo && IsLeast(todo, least);
      var k :| k in todo && IsLeast(todo, k);
      assert IsLeast(todo, k);
      assert k in todo;
      ghost var was := todo;
      ks, todo := ks + [k], todo - {k};
      assert was == todo + {k};
    }
  }

  /** How far the walk over the chain has merged the new block. */
  datatype Progress = Progress(left: bool, right: bool)

  ghost function Id(l: Layout, s: set<nat>, b: nat, g: Progress): nat
    requires Proper(l) && s <= l.ptr.Keys && b in l.ptr && b !in s
  {
    if g.left then NewStart(l, s, b) else b
  }

  ghost function End(l: Layout, s: set<nat>, b: nat, g: Progress): nat
    requires Proper(l) && s <= l.ptr.Keys && b in l.ptr && b !in s
  {
    if g.right then NewEnd(l, s, b) else b + 1
  }

  /** The chain and the local variables of the walk agree with its progress. */
  ghost predicate Midway(l: Layout, s: set<nat>, b: nat, g: Progress, c: map<nat, Extent>, id: nat, size: nat,
                         data: Ptr)
    requires Proper(l) && s <= l.ptr.Keys && b in l.ptr && b !in s
  {
    && (g.left ==> JoinsLeft(l, s, b))
    && (g.right ==> JoinsRight(l, s, b) && (JoinsLeft(l, s, b) ==> g.left))
    && id == Id(l, s, b, g) && id in l.ptr && data == l.ptr[id]
    && id < End(l, s, b, g) && size == Bytes(l.bs, End(l, s, b, g) - id)
    && (g.left || g.right ==> id in c && c[id] == Extent(size, data))
    && forall a: nat :: a != id || !(g.left || g.right) ==>
         && (a in c <==> a in Runs(l, s) && !(a == b + 1 && g.right))
         && (a in c ==> c[a] == Runs(l, s)[a])
  }

  lemma WalkedIsChain(l: Layout, s: set<nat>, b: nat, g: Progress)
    requires Proper(l) && s <= l.ptr.Keys && b in l.ptr && b !in s
    requires (g.left ==> JoinsLeft(l, s, b)) && (g.right ==> JoinsRight(l, s, b))
    ensures Chain(l, s + {b}, Id(l, s, b, g), End(l, s, b, g))
  {
    hide Chain, NewStart, NewEnd;
    var p, e := NewStart(l, s, b), NewEnd(l, s, b);
    ChainEnds(l, s + {b}, b, e);
    if g.right && b + 1 < e {
      ChainGrows(l, s, s + {b}, b + 1, e);
      ChainsJoin(l, s + {b}, p, b + 1, e);
    }
    SingleChain(l, s + {b}, b);
  }

  lemma SingleChain(l: Layout, s: set<nat>, b: nat)
    requires s <= l.ptr.Keys && b in s
    ensures Chain(l, s, b, b + 1)
  {
  }

  /** A run's extent ends behind the data of its last block. */
  lemma RunMeets(l: Layout, s: set<nat>, cur: nat)
    requires Proper(l) && s <= l.ptr.Keys && cur in Runs(l, s)
    ensures var ce := RunEnd(l, s, cur);
            && Chain(l, s, cur, ce) && ce - 1 in s
            && Plus(Runs(l, s)[cur].data, Runs(l, s)[cur].size) == Plus(l.ptr[ce - 1], l.bs)
  {
    hide Runs, RunEnd, Bytes, Linked;
    assert Runs(l, s)[cur] == ExtentAt(l, s, cur);
    ChainIsContiguous(l, s, cur, RunEnd(l, s, cur));
  }

  /** A run that ends in front of the new block is the one the block joins. */
  lemma MeetsNewBlock(l: Layout, s: set<nat>, b: nat, cur: nat)
    requires Proper(l) && s <= l.ptr.Keys && b in l.ptr && b !in s && Starts(l, s, cur)
    ensures var ce := RunEnd(l, s, cur);
            ce - 1 in s && (Follows(l, ce - 1, b) <==> JoinsLeft(l, s, b) && cur == NewStart(l, s, b))
  {
    hide NewStart, RunEnd, Chain;
    var p, ce := NewStart(l, s, b), RunEnd(l, s, cur);
    ChainEnds(l, s, cur, ce);
    ChainEnds(l, s + {b}, p, b + 1);
    if JoinsLeft(l, s, b) {
      MaximalIsRun(l, s, p, b);
      if ce == b {
        MaximalUnique(l, s, cur, ce, p, b, b - 1);
      }
    }
  }

  /** No run ends in front of the start of another. */
  lemma MeetsNoStart(l: Layout, s: set<nat>, cur: nat, p: nat)
    requires Proper(l) && s <= l.ptr.Keys && Starts(l, s, cur) && Starts(l, s, p)
    ensures RunEnd(l, s, cur) - 1 in s && !Follows(l, RunEnd(l, s, cur) - 1, p)
  {
    hide RunEnd, Chain;
    ChainEnds(l, s, cur, RunEnd(l, s, cur));
  }

  /** The test "the extent ends where the data begins". */
  lemma LeftTest(l: Layout, s: set<nat>, b: nat, g: Progress, cur: nat)
    requires Proper(l) && s <= l.ptr.Keys && b in l.ptr && b !in s && cur in Runs(l, s)
    requires g.left ==> JoinsLeft(l, s, b)
    ensures Id(l, s, b, g) in l.ptr
    ensures Plus(Runs(l, s)[cur].data, Runs(l, s)[cur].size) == l.ptr[Id(l, s, b, g)] <==>
            !g.left && JoinsLeft(l, s, b) && cur == NewStart(l, s, b)
  {
    hide NewStart, RunEnd, Chain, Runs, ExtentAt, Linked;
    RunMeets(l, s, cur);
    if g.left {
      var p := NewStart(l, s, b);
      ChainEnds(l, s + {b}, p, b + 1);
      MaximalIsRun(l, s, p, b);
      MeetsNoStart(l, s, cur, p);
    } else {
      MeetsNewBlock(l, s, b, cur);
    }
  }

  /** The merged run is followed by no run; the run up to `b` just by the one it joins. */
  lemma EndMeets(l: Layout, s: set<nat>, b: nat, g: Progress, cur: nat)
    requires Proper(l) && s <= l.ptr.Keys && b in l.ptr && b !in s && cur in s
    requires g.right ==> JoinsRight(l, s, b)
    ensures var end := End(l, s, b, g);
            end > 0 && end - 1 in s + {b} &&
            (Follows(l, end - 1, cur) <==> !g.right && JoinsRight(l, s, b) && cur == b + 1)
  {
    hide NewEnd, Chain;
    ChainEnds(l, s + {b}, b, NewEnd(l, s, b));
  }

  /** The test "the data ends where the extent begins". */
  lemma RightTest(l: Layout, s: set<nat>, b: nat, g: Progress, cur: nat)
    requires Proper(l) && s <= l.ptr.Keys && b in l.ptr && b !in s && cur in s
    requires (g.left ==> JoinsLeft(l, s, b)) && (g.right ==> JoinsRight(l, s, b))
    ensures var id, end := Id(l, s, b, g), End(l, s, b, g);
            && id in l.ptr && id < end
            && (Plus(l.ptr[id], Bytes(l.bs, end - id)) == l.ptr[cur] <==>
                !g.right && JoinsRight(l, s, b) && cur == b + 1)
  {
    hide NewStart, NewEnd, RunEnd, Chain, Runs, Bytes, Linked;
    var id, end := Id(l, s, b, g), End(l, s, b, g);
    WalkedIsChain(l, s, b, g);
    ChainEnds(l, s + {b}, id, end);
    ChainIsContiguous(l, s + {b}, id, end);
    EndMeets(l, s, b, g, cur);
  }

  /** The walk has visited the keys `seen`: what has been merged so far. */
  ghost function ProgressAt(l: Layout, s: set<nat>, b: nat, seen: seq<nat>): Progress
    requires Proper(l) && s <= l.ptr.Keys && b in l.ptr && b !in s
  {
    Progress(JoinsLeft(l, s, b) && NewStart(l, s, b) in seen, JoinsRight(l, s, b) && b + 1 in seen)
  }

  /** The runs a new block joins are in the chain, the left one before the right one. */
  lemma JoinedRunsListed(l: Layout, s: set<nat>, b: nat)
    requires Proper(l) && s <= l.ptr.Keys && b in l.ptr && b !in s
    ensures NewStart(l, s, b) <= b
    ensures JoinsLeft(l, s, b) ==> NewStart(l, s, b) in Runs(l, s) && NewStart(l, s, b) < b
    ensures JoinsRight(l, s, b) ==>
              && b + 1 in Runs(l, s)
              && Runs(l, s)[b + 1] == Extent(Bytes(l.bs, NewEnd(l, s, b) - (b + 1)), l.ptr[b + 1])
    ensures JoinsLeft(l, s, b) ==>
              var a := NewStart(l, s, b); Runs(l, s)[a] == Extent(Bytes(l.bs, b - a), l.ptr[a])
    ensures b !in Runs(l, s)
  {
    hide NewStart, NewEnd, RunEnd, Chain, Bytes, Runs, Linked;
    var p, e := NewStart(l, s, b), NewEnd(l, s, b);
    ChainEnds(l, s + {b}, p, b + 1);
    ChainEnds(l, s + {b}, b, e);
    if JoinsLeft(l, s, b) {
      MaximalIsRun(l, s, p, b);
    }
    if JoinsRight(l, s, b) {
      MaximalIsRun(l, s, b + 1, e);
    }
  }

  lemma {:induction false} BytesAdd(bs: nat, j: nat, k: nat)
    ensures Bytes(bs, j + k) == Bytes(bs, j) + Bytes(bs, k)
  {
    if k > 0 {
      BytesAdd(bs, j, k - 1);
    } else {
      assert j + k == j;
    }
  }

  /** The walk's variables: the chain, and the run that the new block has grown into. */
  datatype Walk = Walk(chain: map<nat, Extent>, id: nat, size: nat, data: Ptr, inserted: bool)

  ghost predicate WalkOk(l: Layout, s: set<nat>, b: nat, g: Progress, w: Walk)
    requires Proper(l) && s <= l.ptr.Keys && b in l.ptr && b !in s
  {
    Midway(l, s, b, g, w.chain, w.id, w.size, w.data) && w.inserted == (g.left || g.right)
  }

  /** What is done at the extent of key `cur`. */
  function Visited(w: Walk, cur: nat): Walk
    requires cur in w.chain
  {
    var e := w.chain[cur];
    var w1 := if Plus(e.data, e.size) == w.data then
                Walk(w.chain[cur := Extent(e.size + w.size, e.data)], cur, e.size + w.size, e.data, true)
              else w;
    var e1 := w1.chain[cur];
    if Plus(w1.data, w1.size) == e1.data then
      var size := w1.size + e1.size;
      Walk(w1.chain[w1.id := Extent(size, w1.data)] - {cur}, w1.id, size, w1.data, true)
    else w1
  }

  /** A visit to the run on the left absorbs it. */
  lemma VisitLeft(l: Layout, s: set<nat>, b: nat, w: Walk)
    requires Proper(l) && s <= l.ptr.Keys && b in l.ptr && b !in s && JoinsLeft(l, s, b)
    requires WalkOk(l, s, b, Progress(false, false), w)
    ensures var p := NewStart(l, s, b);
            p in w.chain && WalkOk(l, s, b, Progress(true, false), Visited(w, p))
  {
    hide NewStart, NewEnd, RunEnd, Chain, Linked, Runs, JoinsLeft, JoinsRight;
    var p, g, h := NewStart(l, s, b), Progress(false, false), Progress(true, false);
    JoinedRunsListed(l, s, b);
    LeftTest(l, s, b, g, p);
    RightTest(l, s, b, h, p);
    BytesAdd(l.bs, b - p, 1);
  }

  /** A visit to the run on the right absorbs it. */
  lemma VisitRight(l: Layout, s: set<nat>, b: nat, g: Progress, w: Walk)
    requires Proper(l) && s <= l.ptr.Keys && b in l.ptr && b !in s && JoinsRight(l, s, b)
    requires WalkOk(l, s, b, g, w) && !g.right && (JoinsLeft(l, s, b) ==> g.left)
    ensures b + 1 in w.chain && WalkOk(l, s, b, Progress(g.left, true), Visited(w, b + 1))
  {
    hide NewStart, NewEnd, RunEnd, Chain, Linked, Runs, JoinsLeft, JoinsRight;
    JoinedRunsListed(l, s, b);
    LeftTest(l, s, b, g, b + 1);
    RightTest(l, s, b, g, b + 1);
    NewEndBeyond(l, s, b);
    BytesAdd(l.bs, b + 1 - w.id, NewEnd(l, s, b) - (b + 1));
  }

  lemma NewEndBeyond(l: Layout, s: set<nat>, b: nat)
    requires Proper(l) && s <= l.ptr.Keys && b in l.ptr && b !in s
    ensures NewEnd(l, s, b) > b
  {
  }

  /** A visit to any other run changes nothing. */
  lemma VisitOther(l: Layout, s: set<nat>, b: nat, g: Progress, w: Walk, cur: nat)
    requires Proper(l) && s <= l.ptr.Keys && b in l.ptr && b !in s && cur in Runs(l, s)
    requires WalkOk(l, s, b, g, w)
    requires !(JoinsLeft(l, s, b) && cur == NewStart(l, s, b)) && !(JoinsRight(l, s, b) && cur == b + 1)
    ensures cur in w.chain && Visited(w, cur) == w
  {
    hide NewStart, NewEnd, RunEnd, Chain, Linked, Runs, JoinsLeft, JoinsRight;
    JoinedRunsListed(l, s, b);
    LeftTest(l, s, b, g, cur);
    RightTest(l, s, b, g, cur);
  }

  /** A step of the walk over the keys `ks` of the chain as it was. */
  lemma WalkStep(l: Layout, s: set<nat>, b: nat, ks: seq<nat>, i: nat, w: Walk)
    requires Proper(l) && s <= l.ptr.Keys && b in l.ptr && b !in s && KeyOrder(ks, Runs(l, s).Keys) && i < |ks|
    requires WalkOk(l, s, b, ProgressAt(l, s, b, ks[..i]), w)
    ensures ks[i] in w.chain && WalkOk(l, s, b, ProgressAt(l, s, b, ks[..i + 1]), Visited(w, ks[i]))
  {
    hide NewStart, NewEnd, RunEnd, Chain, Linked, Runs, JoinsLeft, JoinsRight, Visited, WalkOk;
    ProgressNext(l, s, b, ks, i);
    JoinedRunsListed(l, s, b);
    var g := ProgressAt(l, s, b, ks[..i]);
    if JoinsLeft(l, s, b) && ks[i] == NewStart(l, s, b) {
      VisitLeft(l, s, b, w);
    } else if JoinsRight(l, s, b) && ks[i] == b + 1 {
      VisitRight(l, s, b, g, w);
    } else {
      VisitOther(l, s, b, g, w, ks[i]);
    }
  }

  /* ---- the iterator over the map that is being edited ---- */

  datatype Iter = At(key: nat) | AtEnd

  /** Where the walk stands after `i` of the keys `ks`. */
  ghost function Iterator(ks: seq<nat>, i: nat): Iter {
    if i < |ks| then At(ks[i]) else AtEnd
  }

  /** `begin()` and `++`: the least key, and the least key beyond `cur`, of the map as it is. */
  method Begin(keys: set<nat>) returns (it: Iter)
    ensures if keys == {} then it == AtEnd else it.At? && IsLeast(keys, it.key)
  {
    if keys == {} {
      return AtEnd;
    }
    ghost var least := LeastExists(keys);
    assert least in keys && IsLeast(keys, least);
    var k :| k in keys && IsLeast(keys, k);
    it := At(k);
    assert IsLeast(keys, k);
  }

  method Next(keys: set<nat>, cur: nat) returns (it: Iter)
    ensures if it.AtEnd? then forall k :: k in keys ==> k <= cur
            else it.key in keys && cur < it.key && forall k :: k in keys && cur < k ==> it.key <= k
  {
    var ahead := set k | k in keys && cur < k;
    assert forall k :: k in keys && cur < k ==> k in ahead;
    it := Begin(ahead);
  }

  /** Keys ahead of the walk are those of the chain as it was: what the walk inserts lies
      behind the iterator. */
  lemma LiveAhead(l: Layout, s: set<nat>, b: nat, ks: seq<nat>, i: nat, w: Walk)
    requires Proper(l) && s <= l.ptr.Keys && b in l.ptr && b !in s && KeyOrder(ks, Runs(l, s).Keys) && i < |ks|
    requires WalkOk(l, s, b, ProgressAt(l, s, b, ks[..i]), w)
    ensures forall k :: k > ks[i] ==> (k in w.chain <==> k in ks)
  {
    hide NewStart, NewEnd, RunEnd, Chain, Linked, Runs, JoinsLeft, JoinsRight;
    JoinedRunsListed(l, s, b);
    SeenBefore(ks, i, b + 1);
  }

  lemma BeginIsFirst(ks: seq<nat>, keys: set<nat>, it: Iter)
    requires KeyOrder(ks, keys) && if keys == {} then it == AtEnd else it.At? && IsLeast(keys, it.key)
    ensures it == Iterator(ks, 0)
  {
    if ks == [] {
      assert keys == {};
    } else {
      assert ks[0] in keys && it.key in ks;
      var j :| 0 <= j < |ks| && ks[j] == it.key;
    }
  }

  lemma NextIsNext(ks: seq<nat>, i: nat, keys: set<nat>, it: Iter)
    requires i < |ks| && forall i, j :: 0 <= i < j < |ks| ==> ks[i] < ks[j]
    requires forall k :: k > ks[i] ==> (k in keys <==> k in ks)
    requires if it.AtEnd? then forall k :: k in keys ==> k <= ks[i]
             else it.key in keys && ks[i] < it.key && forall k :: k in keys && ks[i] < k ==> it.key <= k
    ensures it == Iterator(ks, i + 1)
  {
    if i + 1 < |ks| {
      assert ks[i + 1] in ks && ks[i + 1] in keys;
    }
    if it.At? {
      var j :| 0 <= j < |ks| && ks[j] == it.key;
      assert j > i;
    }
  }

  class DataStoreRequest {
    const bs: nat
    var chain: map<nat, Extent>

    constructor (bs: nat)
      ensures this.bs == bs && chain == map[]
    {
      this.bs := bs;
      chain := map[];
    }

    /** `prepare_request`: whatever has arrived before, the chain is the runs of the blocks
        that have arrived. */
    method PrepareRequest(block: nat, data: Ptr, ghost l: Layout, ghost s: set<nat>)
      requires Proper(l) && l.bs == bs && s <= l.ptr.Keys && block !in s
      requires block in l.ptr && l.ptr[block] == data
      requires chain == Runs(l, s)
      modifies this
      ensures chain == Runs(l, s + {block})
    {
      hide NewStart, NewEnd, RunEnd, Chain, Linked, Runs, JoinsLeft, JoinsRight, Visited, WalkOk, ProgressAt;
      ghost var ks := InOrder(chain.Keys);
      StartOfWalk(l, s, block);
      var w := Walk(chain, block, bs, data, false);
      var it := Begin(chain.Keys);
      BeginIsFirst(ks, chain.Keys, it);
      ghost var i := 0;
      while it.At?
        invariant 0 <= i <= |ks| && it == Iterator(ks, i)
        invariant WalkOk(l, s, block, ProgressAt(l, s, block, ks[..i]), w)
        decreases |ks| - i
      {
        var cur := it.key;
        LiveAhead(l, s, block, ks, i, w);
        it := Next(w.chain.Keys, cur);
        NextIsNext(ks, i, w.chain.Keys, it);
        WalkStep(l, s, block, ks, i, w);
        w := VisitKey(w, cur);
        i := i + 1;
      }
      assert ks[..|ks|] == ks;
      EndOfWalk(l, s, block, ks, w);
      chain := if w.inserted then w.chain else w.chain[w.id := Extent(w.size, w.data)];
    }
  }

  ghost function Elements(order: seq<nat>): set<nat> {
    set i | 0 <= i < |order| :: order[i]
  }

  lemma NoElements()
    ensures Elements([]) == {}
  {
  }

  lemma NextElement(order: seq<nat>, n: nat)
    requires n < |order| && forall i, j :: 0 <= i < j < |order| ==> order[i] != order[j]
    ensures Elements(order[..n + 1]) == Elements(order[..n]) + {order[n]}
    ensures order[n] !in Elements(order[..n])
  {
  }

  /** All blocks of a request, arriving in the given order: the final chain depends on the
      set of blocks only. */
  method ArriveInOrder(l: Layout, order: seq<nat>) returns (chain: map<nat, Extent>)
    requires Proper(l) && (forall i, j :: 0 <= i < j < |order| ==> order[i] != order[j])
    requires forall i :: 0 <= i < |order| ==> order[i] in l.ptr
    ensures Elements(order) <= l.ptr.Keys && chain == Runs(l, Elements(order))
  {
    hide Runs, Proper, Elements;
    assert order[..0] == [];
    NoElements();
    var r := new DataStoreRequest(l.bs);
    for n := 0 to |order|
      invariant Elements(order[..n]) <= l.ptr.Keys && r.chain == Runs(l, Elements(order[..n]))
      invariant r.bs == l.bs
    {
      NextElement(order, n);
      r.PrepareRequest(order[n], l.ptr[order[n]], l, Elements(order[..n]));
    }
    assert order[..|order|] == order;
    chain := r.chain;
  }

  /** The body of the walk. */
  method VisitKey(w0: Walk, cur: nat) returns (w: Walk)
    requires cur in w0.chain
    ensures w == Visited(w0, cur)
  {
    var chain, id, size, data, inserted := w0.chain, w0.id, w0.size, w0.data, w0.inserted;
    if Plus(chain[cur].data, chain[cur].size) == data {
      chain := chain[cur := Extent(chain[cur].size + size, chain[cur].data)];
      id, size, data, inserted := cur, chain[cur].size, chain[cur].data, true;
    }
    if Plus(data, size) == chain[cur].data {
      var tmp := size + chain[cur].size;
      chain := chain[id := Extent(tmp, data)];
      chain := chain - {cur};
      size, inserted := tmp, true;
    }
    w := Walk(chain, id, size, data, inserted);
  }

  lemma StartOfWalk(l: Layout, s: set<nat>, b: nat)
    requires Proper(l) && s <= l.ptr.Keys && b in l.ptr && b !in s
    ensures ProgressAt(l, s, b, []) == Progress(false, false)
    ensures WalkOk(l, s, b, Progress(false, false), Walk(Runs(l, s), b, l.bs, l.ptr[b], false))
  {
    hide NewStart, NewEnd, RunEnd, Chain, Linked, Runs;
    assert Bytes(l.bs, 1) == Bytes(l.bs, 0) + l.bs;
  }

  lemma ProgressNext(l: Layout, s: set<nat>, b: nat, ks: seq<nat>, i: nat)
    requires Proper(l) && s <= l.ptr.Keys && b in l.ptr && b !in s
    requires KeyOrder(ks, Runs(l, s).Keys) && i < |ks|
    ensures ks[i] in Runs(l, s)
    ensures var g, h := ProgressAt(l, s, b, ks[..i]), ProgressAt(l, s, b, ks[..i + 1]);
            var atLeft := JoinsLeft(l, s, b) && ks[i] == NewStart(l, s, b);
            var atRight := JoinsRight(l, s, b) && ks[i] == b + 1;
            && h == Progress(g.left || atLeft, g.right || atRight)
            && (atLeft ==> !g.left && !g.right)
            && (atRight ==> !g.right && !atLeft && (JoinsLeft(l, s, b) ==> g.left))
  {
    hide NewStart, NewEnd, RunEnd, Chain, Linked, Runs, JoinsLeft, JoinsRight;
    JoinedRunsListed(l, s, b);
    SeenBefore(ks, i, NewStart(l, s, b));
    SeenBefore(ks, i, b + 1);
  }

  /** In an increasing sequence the elements seen before position `i` are the smaller ones. */
  lemma SeenBefore(ks: seq<nat>, i: nat, k: nat)
    requires i < |ks| && forall i, j :: 0 <= i < j < |ks| ==> ks[i] < ks[j]
    ensures k in ks[..i] <==> k in ks && k < ks[i]
    ensures k in ks[..i + 1] <==> k in ks[..i] || k == ks[i]
  {
    if k in ks && k < ks[i] {
      var j :| 0 <= j < |ks| && ks[j] == k;
      assert ks[..i][j] == k;
    }
    assert ks[..i + 1] == ks[..i] + [ks[i]];
  }

  lemma EndOfWalk(l: Layout, s: set<nat>, b: nat, ks: seq<nat>, w: Walk)
    requires Proper(l) && s <= l.ptr.Keys && b in l.ptr && b !in s
    requires KeyOrder(ks, Runs(l, s).Keys) && WalkOk(l, s, b, ProgressAt(l, s, b, ks), w)
    ensures (if w.inserted then w.chain else w.chain[w.id := Extent(w.size, w.data)]) == Runs(l, s + {b})
  {
    hide NewStart, NewEnd, RunEnd, Chain, Linked, Runs, JoinsLeft, JoinsRight;
    JoinedRunsListed(l, s, b);
    var c := if w.inserted then w.chain else w.chain[w.id := Extent(w.size, w.data)];
    MergedIsRuns(l, s, b, c);
  }

  /* ---- submission ---- */

  /** Memory: the contents of each allocation. */
  type Memory = map<nat, seq<Byte>>

  ghost predicate Readable(mem: Memory, p: Ptr, n: nat) {
    p.buf in mem && p.off + n <= |mem[p.buf]|
  }

  function Load(mem: Memory, p: Ptr, n: nat): (d: seq<Byte>)
    requires Readable(mem, p, n)
    ensures |d| == n
  {
    mem[p.buf][p.off..p.off + n]
  }

  /** Every block's data is readable, and the store has room for every block. */
  ghost predicate Backed(l: Layout, mem: Memory, store: seq<Byte>) {
    && |store| == l.bs * l.n
    && forall b :: b in l.ptr ==> Readable(mem, l.ptr[b], l.bs)
  }

  ghost function DataOf(l: Layout, mem: Memory, b: nat): (d: seq<Byte>)
    requires b in l.ptr && Readable(mem, l.ptr[b], l.bs)
    ensures |d| == l.bs
  {
    Load(mem, l.ptr[b], l.bs)
  }

  /** Block `b` of `store` has its own data if it is in `done`, and else is as it was. */
  ghost predicate BlockIs(l: Layout, mem: Memory, was: seq<Byte>, done: set<nat>, store: seq<Byte>, b: int) {
    && HasBlock(was, b, l.bs) && HasBlock(store, b, l.bs)
    && if b in done then b in l.ptr && Readable(mem, l.ptr[b], l.bs) && Block(store, b, l.bs) == DataOf(l, mem, b)
       else Block(store, b, l.bs) == Block(was, b, l.bs)
  }

  /** `store` is `was` with the data of the blocks in `done` written in, block by block. */
  ghost predicate WrittenAlone(l: Layout, mem: Memory, was: seq<Byte>, done: set<nat>, store: seq<Byte>) {
    |store| == |was| && forall b :: 0 <= b < l.n ==> BlockIs(l, mem, was, done, store, b)
  }

  /** The store after `n` bytes from `p` are written at block `a`. */
  ghost function Put(mem: Memory, store: seq<Byte>, at: nat, p: Ptr, n: nat): (t: seq<Byte>)
    ensures |t| == |store|
  {
    if Readable(mem, p, n) && at + n <= |store| then Overwrite(store, at, Load(mem, p, n)) else store
  }

  /** The data of a chain can be read in one piece, and each block's share is its own data. */
  lemma ChainData(l: Layout, mem: Memory, s: set<nat>, a: nat, e: nat, b: nat)
    requires Proper(l) && s <= l.ptr.Keys && Chain(l, s, a, e) && a <= b < e
    requires forall k :: k in l.ptr ==> Readable(mem, l.ptr[k], l.bs)
    ensures Readable(mem, l.ptr[a], Bytes(l.bs, e - a))
    ensures var d := Load(mem, l.ptr[a], Bytes(l.bs, e - a));
            HasBlock(d, b - a, l.bs) && b in l.ptr && Block(d, b - a, l.bs) == DataOf(l, mem, b)
  {
    hide Bytes, Chain, Linked, Proper;
    ChainIsContiguous(l, s, a, e);
    ChainPart(l, s, a, b, e);
    ChainEnds(l, s, a, e);
    BytesIsProduct(l.bs, e - a);
    BytesIsProduct(l.bs, b - a);
    SliceOfRun(e - a, b - a, l.bs);
    assert Readable(mem, l.ptr[e - 1], l.bs);
    var p := l.ptr[a];
    SliceOfSlice(mem[p.buf], p.off, Bytes(l.bs, e - a), Bytes(l.bs, b - a), l.bs);
  }

  lemma ChainPart(l: Layout, s: set<nat>, a: nat, b: nat, e: nat)
    requires Proper(l) && s <= l.ptr.Keys && Chain(l, s, a, e) && a <= b < e
    ensures b in l.ptr && l.ptr[b] == Plus(l.ptr[a], Bytes(l.bs, b - a))
  {
    assert Bytes(l.bs, 0) == 0;
    if a < b {
      assert Chain(l, s, a, b);
      ChainIsContiguous(l, s, a, b);
      assert Linked(l, s, b - 1);
    }
  }

  /** Extent `x` of the run from block `a` to `e` goes to byte `at` of the store. */
  ghost predicate Placed(l: Layout, mem: Memory, store: seq<Byte>, s: set<nat>, a: nat, e: nat, at: nat, x: Extent) {
    && Proper(l) && Backed(l, mem, store) && s <= l.ptr.Keys && Chain(l, s, a, e) && a in l.ptr
    && at == l.bs * a && x == Extent(Bytes(l.bs, e - a), l.ptr[a])
    && Readable(mem, x.data, x.size) && at + x.size <= |store|
  }

  /** Writing the extent of one run writes its blocks `r`, one by one. */
  lemma WriteExtent(l: Layout, mem: Memory, was: seq<Byte>, done: set<nat>, store: seq<Byte>, s: set<nat>, a: nat,
                    e: nat, r: set<nat>)
    requires Proper(l) && Backed(l, mem, was) && WrittenAlone(l, mem, was, done, store)
    requires s <= l.ptr.Keys && Chain(l, s, a, e) && forall b: nat :: b in r <==> b in s && a <= b < e
    ensures a in l.ptr && Readable(mem, l.ptr[a], Bytes(l.bs, e - a)) && l.bs * a + Bytes(l.bs, e - a) <= |store|
    ensures WrittenAlone(l, mem, was, done + r, Put(mem, store, l.bs * a, l.ptr[a], Bytes(l.bs, e - a)))
  {
    hide BlockIs, Put, Chain, Bytes, Readable;
    ExtentFits(l, mem, was, s, a, e);
    var at, x := l.bs * a, Extent(Bytes(l.bs, e - a), l.ptr[a]);
    assert Placed(l, mem, store, s, a, e, at, x);
    var t := Put(mem, store, at, x.data, x.size);
    forall b | 0 <= b < l.n ensures BlockIs(l, mem, was, done + r, t, b) {
      assert BlockIs(l, mem, was, done, store, b);
      ExtentStep(l, mem, was, done, store, s, a, e, at, x, r, b);
    }
  }

  lemma ExtentStep(l: Layout, mem: Memory, was: seq<Byte>, done: set<nat>, store: seq<Byte>, s: set<nat>, a: nat,
                   e: nat, at: nat, x: Extent, r: set<nat>, b: nat)
    requires Placed(l, mem, store, s, a, e, at, x) && forall b: nat :: b in r <==> b in s && a <= b < e
    requires b < l.n && BlockIs(l, mem, was, done, store, b)
    ensures BlockIs(l, mem, was, done + r, Put(mem, store, at, x.data, x.size), b)
  {
    hide Block, HasBlock, Overwrite, Load, DataOf, Placed;
    PlacedFits(l, mem, store, s, a, e, at, x);
    ExtentBlock(l, mem, store, s, a, e, at, x, b);
    assert b in r <==> a <= b < e;
  }

  lemma PlacedFits(l: Layout, mem: Memory, store: seq<Byte>, s: set<nat>, a: nat, e: nat, at: nat, x: Extent)
    requires Placed(l, mem, store, s, a, e, at, x)
    ensures Readable(mem, x.data, x.size) && at + x.size <= |store|
  {
  }

  /** The data of a run is readable, and there is room for it in the store. */
  lemma ExtentFits(l: Layout, mem: Memory, store: seq<Byte>, s: set<nat>, a: nat, e: nat)
    requires Proper(l) && Backed(l, mem, store) && s <= l.ptr.Keys && Chain(l, s, a, e)
    ensures a in l.ptr && a < e <= l.n
    ensures Readable(mem, l.ptr[a], Bytes(l.bs, e - a)) && l.bs * a + Bytes(l.bs, e - a) <= |store|
  {
    hide Bytes, Chain;
    ChainEnds(l, s, a, e);
    ChainData(l, mem, s, a, e, a);
    BytesIsProduct(l.bs, e - a);
    RunEnds(a, e - a, l.n, l.bs);
  }

  /** One block after an extent is written. */
  lemma ExtentBlock(l: Layout, mem: Memory, store: seq<Byte>, s: set<nat>, a: nat, e: nat, at: nat, x: Extent, b: nat)
    requires Placed(l, mem, store, s, a, e, at, x) && b < l.n
    requires Readable(mem, x.data, x.size) && at + x.size <= |store|
    ensures var t := Overwrite(store, at, Load(mem, x.data, x.size));
            && HasBlock(store, b, l.bs) && HasBlock(t, b, l.bs)
            && (a <= b < e ==> b in s && b in l.ptr && Readable(mem, l.ptr[b], l.bs))
            && Block(t, b, l.bs) == if a <= b < e then DataOf(l, mem, b) else Block(store, b, l.bs)
  {
    hide Block, Overwrite, Load, Chain, Linked, Bytes, DataOf, Readable;
    ChainEnds(l, s, a, e);
    BlockInRange(l.n, b, l.bs, store);
    BytesIsProduct(l.bs, e - a);
    WriteRunOfBlocks(store, a, e - a, l.bs, Load(mem, x.data, x.size), b);
    if a <= b < e {
      ChainData(l, mem, s, a, e, b);
      ChainHas(l, s, a, e, b);
    }
  }

  lemma ChainHas(l: Layout, s: set<nat>, a: nat, e: nat, b: nat)
    requires s <= l.ptr.Keys && Chain(l, s, a, e) && a <= b < e
    ensures b in s
  {
    ChainEnds(l, s, a, e);
    if b < e - 1 {
      assert Linked(l, s, b);
    }
  }

  /** The blocks of the run that starts at `a`. */
  ghost function RunBlocks(l: Layout, s: set<nat>, a: nat): (r: set<nat>)
    requires Proper(l) && s <= l.ptr.Keys && a in s
    ensures r <= s
  {
    set b: nat | b in s && a <= b < RunEnd(l, s, a)
  }

  ghost predicate Covers(l: Layout, s: set<nat>, a: nat, b: nat)
    requires Proper(l) && s <= l.ptr.Keys
  {
    Starts(l, s, a) && b in RunBlocks(l, s, a)
  }

  /** The extents together cover exactly the blocks that have arrived, each block once. */
  lemma RunsPartition(l: Layout, s: set<nat>, b: nat)
    requires Proper(l) && s <= l.ptr.Keys && b in s
    ensures Covers(l, s, RunStart(l, s, b), b)
    ensures forall a: nat :: Covers(l, s, a, b) ==> a == RunStart(l, s, b)
  {
    hide RunStart, RunEnd, Covers;
    RunOfBlock(l, s, b);
    forall x: nat | Covers(l, s, x, b)
      ensures x == RunStart(l, s, b)
    {
      OnlyRunOfBlock(l, s, b, x);
    }
  }

  /** The run around a block. */
  lemma RunIsMaximal(l: Layout, s: set<nat>, b: nat)
    requires Proper(l) && s <= l.ptr.Keys && b in s
    ensures Maximal(l, s, RunStart(l, s, b), RunEnd(l, s, b))
    ensures RunStart(l, s, b) <= b < RunEnd(l, s, b)
  {
    hide RunStart, RunEnd, Linked, Proper;
    ChainsOverlap(l, s, RunStart(l, s, b), b, RunEnd(l, s, b));
  }

  lemma ChainsOverlap(l: Layout, s: set<nat>, a: nat, b: nat, e: nat)
    requires s <= l.ptr.Keys && Chain(l, s, a, b + 1) && Chain(l, s, b, e)
    ensures Chain(l, s, a, e) && a <= b < e
  {
    hide Linked;
  }

  lemma StartIsMaximal(l: Layout, s: set<nat>, a: nat)
    requires Proper(l) && s <= l.ptr.Keys && Starts(l, s, a)
    ensures Maximal(l, s, a, RunEnd(l, s, a))
  {
    hide RunEnd;
  }

  lemma RunOfBlock(l: Layout, s: set<nat>, b: nat)
    requires Proper(l) && s <= l.ptr.Keys && b in s
    ensures Covers(l, s, RunStart(l, s, b), b)
  {
    hide RunStart, RunEnd, Chain, Linked, Proper;
    RunIsMaximal(l, s, b);
    MaximalIsRun(l, s, RunStart(l, s, b), RunEnd(l, s, b));
  }

  lemma OnlyRunOfBlock(l: Layout, s: set<nat>, b: nat, x: nat)
    requires Proper(l) && s <= l.ptr.Keys && b in s && Covers(l, s, x, b)
    ensures x == RunStart(l, s, b)
  {
    hide RunStart, RunEnd, Chain, Linked, Proper;
    var a, e := RunStart(l, s, b), RunEnd(l, s, b);
    RunIsMaximal(l, s, b);
    StartIsMaximal(l, s, x);
    MaximalUnique(l, s, x, RunEnd(l, s, x), a, e, b);
  }

  /** `data_store->write` of one extent. */
  method WriteData(store: seq<Byte>, offset: nat, x: Extent, mem: Memory) returns (t: seq<Byte>)
    requires Readable(mem, x.data, x.size) && offset + x.size <= |store|
    ensures t == Put(mem, store, offset, x.data, x.size)
  {
    t := Overwrite(store, offset, Load(mem, x.data, x.size));
  }

  /** `submit_request`: the merged extents leave the store as if each block had been written
      alone. */
  method SubmitRequest(chain: map<nat, Extent>, bs: nat, store0: seq<Byte>, mem: Memory, ghost l: Layout,
                       ghost s: set<nat>)
    returns (store: seq<Byte>)
    requires Proper(l) && l.bs == bs && s <= l.ptr.Keys && chain == Runs(l, s) && Backed(l, mem, store0)
    ensures WrittenAlone(l, mem, store0, s, store)
  {
    hide Proper, Backed, RunEnd, Runs, Bytes, WrittenAlone, Put, Readable, RunBlocks, Starts;
    store := store0;
    var ks := SortedKeys(chain.Keys);
    KeysAreStarts(l, s, ks);
    NothingWritten(l, mem, store0);
    ghost var done: set<nat> := {};
    for i := 0 to |ks|
      invariant done <= s && WrittenAlone(l, mem, store0, done, store)
      invariant forall k :: 0 <= k < i ==> ks[k] in s && RunBlocks(l, s, ks[k]) <= done
    {
      var a := ks[i];
      SubmitStep(l, mem, store0, done, store, s, a);
      store := WriteData(store, bs * a, chain[a], mem);
      done := done + RunBlocks(l, s, a);
    }
    AllCovered(l, s, ks, done);
  }

  lemma KeysAreStarts(l: Layout, s: set<nat>, ks: seq<nat>)
    requires Proper(l) && s <= l.ptr.Keys && KeyOrder(ks, Runs(l, s).Keys)
    ensures forall i :: 0 <= i < |ks| ==>
              ks[i] in s && Starts(l, s, ks[i]) && ks[i] in Runs(l, s) && Runs(l, s)[ks[i]] == ExtentAt(l, s, ks[i])
  {
    hide Runs, ExtentAt, Starts;
    assert forall i :: 0 <= i < |ks| ==> ks[i] in Runs(l, s);
  }

  lemma SubmitStep(l: Layout, mem: Memory, was: seq<Byte>, done: set<nat>, store: seq<Byte>, s: set<nat>, a: nat)
    requires Proper(l) && Backed(l, mem, was) && s <= l.ptr.Keys && WrittenAlone(l, mem, was, done, store)
    requires a in s
    ensures var e := ExtentAt(l, s, a);
            && Readable(mem, e.data, e.size) && l.bs * a + e.size <= |store|
            && WrittenAlone(l, mem, was, done + RunBlocks(l, s, a), Put(mem, store, l.bs * a, e.data, e.size))
  {
    hide RunEnd, Chain, Linked, Bytes, WrittenAlone, Put, Readable, Backed;
    WriteExtent(l, mem, was, done, store, s, a, RunEnd(l, s, a), RunBlocks(l, s, a));
  }

  lemma NothingWritten(l: Layout, mem: Memory, store: seq<Byte>)
    requires Proper(l) && Backed(l, mem, store)
    ensures WrittenAlone(l, mem, store, {}, store)
  {
    forall b | 0 <= b < l.n ensures BlockIs(l, mem, store, {}, store, b) {
      BlockInRange(l.n, b, l.bs, store);
    }
  }

  lemma AllCovered(l: Layout, s: set<nat>, ks: seq<nat>, done: set<nat>)
    requires Proper(l) && s <= l.ptr.Keys && KeyOrder(ks, Runs(l, s).Keys) && done <= s
    requires forall k :: 0 <= k < |ks| ==> ks[k] in s && RunBlocks(l, s, ks[k]) <= done
    ensures done == s
  {
    hide RunEnd, RunStart, Chain, Runs, Linked, RunBlocks, Starts;
    forall b | b in s ensures b in done {
      RunsPartition(l, s, b);
      var a := RunStart(l, s, b);
      assert a in Runs(l, s);
      var i :| 0 <= i < |ks| && ks[i] == a;
      assert RunBlocks(l, s, ks[i]) <= done;
    }
  }

  /** Writing one block alone, in terms of the same predicate. */
  lemma WriteOneBlock(l: Layout, mem: Memory, was: seq<Byte>, done: set<nat>, store: seq<Byte>, b: nat)
    requires Proper(l) && Backed(l, mem, was) && WrittenAlone(l, mem, was, done, store)
    requires b in l.ptr
    ensures Readable(mem, l.ptr[b], l.bs) && l.bs * b + l.bs <= |store|
    ensures WrittenAlone(l, mem, was, done + {b}, Overwrite(store, l.bs * b, DataOf(l, mem, b)))
  {
    hide WrittenAlone, Overwrite;
    SingleChain(l, {b}, b);
    assert Bytes(l.bs, 1) == Bytes(l.bs, 0) + l.bs;
    WriteExtent(l, mem, was, done, store, {b}, b, b + 1, {b});
  }

  /** There is only one such store. */
  lemma WrittenAloneUnique(l: Layout, mem: Memory, was: seq<Byte>, done: set<nat>, v: seq<Byte>, w: seq<Byte>)
    requires Proper(l) && Backed(l, mem, was)
    requires WrittenAlone(l, mem, was, done, v) && WrittenAlone(l, mem, was, done, w)
    ensures v == w
  {
    forall b | 0 <= b < l.n
      ensures HasBlock(v, b, l.bs) && HasBlock(w, b, l.bs) && Block(v, b, l.bs) == Block(w, b, l.bs)
    {
      assert BlockIs(l, mem, was, done, v, b) && BlockIs(l, mem, was, done, w, b);
    }
    assert SameBlocks(v, w, l.n, l.bs);
    EqualByBlocks(v, w, l.n, l.bs);
  }

  /* ---- the layout of a write request ---- */

  /** Whole blocks are written from the caller's buffer (allocation 0); a partial block is
      written from a buffer of its own. */
  function PtrOf(f: Fragment, bs: nat): Ptr {
    if f.size < bs then Ptr(f.block + 1, 0) else Ptr(0, f.data)
  }

  ghost function PtrMap(fs: seq<Fragment>, bs: nat): map<nat, Ptr> {
    if fs == [] then map[]
    else
      var f := fs[|fs| - 1];
      PtrMap(fs[..|fs| - 1], bs)[f.block := PtrOf(f, bs)]
  }

  lemma {:induction false} PtrMapEntry(fs: seq<Fragment>, bs: nat, b: nat) returns (i: nat)
    requires b in PtrMap(fs, bs)
    ensures i < |fs| && fs[i].block == b && PtrMap(fs, bs)[b] == PtrOf(fs[i], bs)
  {
    i := |fs| - 1;
    if fs[i].block != b {
      i := PtrMapEntry(fs[..i], bs, b);
    }
  }

  lemma {:induction false} PtrMapHas(fs: seq<Fragment>, bs: nat, i: nat)
    requires i < |fs|
    ensures fs[i].block in PtrMap(fs, bs)
  {
    if i < |fs| - 1 {
      PtrMapHas(fs[..|fs| - 1], bs, i);
    }
  }

  ghost function RequestLayout(offset: nat, length: nat, bs: nat, n: nat): Layout
    requires bs > 0
  {
    Layout(PtrMap(Fragments(offset, length, 0, bs), bs), bs, n)
  }

  /** The blocks of any request inside the volume have a proper layout. */
  lemma RequestLayoutProper(offset: nat, length: nat, bs: nat, n: nat)
    requires bs > 0 && offset + length <= bs * n
    ensures Proper(RequestLayout(offset, length, bs, n))
  {
    hide Fragments, PtrMap;
    var l, fs := RequestLayout(offset, length, bs, n), Fragments(offset, length, 0, bs);
    forall b | b in l.ptr ensures b < n {
      var i := PtrMapEntry(fs, bs, b);
      FragmentAt(offset, length, 0, bs, i);
      BlockInVolume(b, fs[i].offset, bs, n);
    }
    forall a: nat, b: nat | Follows(l, a, b) ensures b == a + 1 {
      var i := PtrMapEntry(fs, bs, a);
      var j := PtrMapEntry(fs, bs, b);
      FragmentAt(offset, length, 0, bs, i);
      FragmentAt(offset, length, 0, bs, j);
      WholeBlocksAdjacent(a, b, bs, fs[i].data, fs[j].data, offset);
    }
  }

  lemma WholeBlocksAdjacent(a: nat, b: nat, bs: nat, x: int, y: int, offset: nat)
    requires bs > 0 && bs * a == offset + x && bs * b == offset + y && x + bs == y
    ensures b == a + 1
  {
    assert bs * (b - a - 1) == 0;
    FarMultiple(bs, b - a - 1);
  }
}
