/** Tree buckets: the weights of an implicit binary tree, kept in step by make, adjust and
    remove, and the chooser that walks down from the root. */
module TreeBuckets {
  import opened Basics
  import opened CrushTypes
  import opened TreeNodes

  /** 32-bit unsigned addition. */
  function WrapAdd(a: int, b: int): U32 {
    Wrap32(a + b)
  }

  /* ---- sums ---- */

  /** Node `n` weighs what its children weigh together, modulo 2^32. */
  ghost predicate BalancedAt(w: seq<U32>, n: nat)
    requires n < |w|
  {
    Interior(n) ==>
      && 0 <= Left(n) < |w| && 0 <= Right(n) < |w|
      && w[n] == WrapAdd(w[Left(n)], w[Right(n)])
  }

  ghost predicate Balanced(w: seq<U32>) {
    forall n: nat :: n < |w| ==> BalancedAt(w, n)
  }

  /** The leaves (odd nodes) from node `a` up to node `b`. */
  ghost function LeafSum(w: seq<U32>, a: nat, b: nat): (s: nat)
    requires a <= b <= |w|
    decreases b - a
  {
    if a == b then 0 else (if (b - 1) % 2 == 1 then w[b - 1] else 0) + LeafSum(w, a, b - 1)
  }

  lemma {:induction false} LeafSumSplit(w: seq<U32>, a: nat, m: nat, b: nat)
    requires a <= m <= b <= |w|
    ensures LeafSum(w, a, b) == LeafSum(w, a, m) + LeafSum(w, m, b)
    decreases b - m
  {
    if m < b {
      LeafSumSplit(w, a, m, b - 1);
    }
  }

  lemma {:induction false} LeafSumUpdate(w: seq<U32>, a: nat, b: nat, n: nat, v: U32)
    requires a <= b <= |w| && n < |w|
    ensures LeafSum(w[n := v], a, b) ==
            LeafSum(w, a, b) + if a <= n < b && n % 2 == 1 then v - w[n] else 0
    decreases b - a
  {
    if a < b {
      LeafSumUpdate(w, a, b - 1, n, v);
    }
  }

  lemma {:induction false} LeafSumZero(w: seq<U32>, a: nat, b: nat)
    requires a <= b <= |w|
    requires forall n :: a <= n < b && n % 2 == 1 ==> w[n] == 0
    ensures LeafSum(w, a, b) == 0
    decreases b - a
  {
    if a < b {
      LeafSumZero(w, a, b - 1);
    }
  }

  lemma {:induction false} LeafSumPrefix(w: seq<U32>, a: nat, b: nat, m: nat)
    requires a <= b <= m <= |w|
    ensures LeafSum(w[..m], a, b) == LeafSum(w, a, b)
    decreases b - a
  {
    if a < b {
      LeafSumPrefix(w, a, b - 1, m);
    }
  }

  /** In a balanced tree every node weighs the leaves below it. */
  lemma {:induction false} NodeWeighsItsLeaves(w: seq<U32>, d: nat, n: nat)
    requires |w| == Pow2(d) && Balanced(w) && 0 < n < |w|
    ensures 0 <= Low(n) && High(n) <= |w|
    ensures w[n] == Wrap32(LeafSum(w, Low(n), High(n)))
    decreases Height(n)
  {
    NodeInTree(n, d);
    if n % 2 == 1 {
      LeafWeighsItself(w, n);
    } else {
      assert BalancedAt(w, n);
      SpansOfChildren(n);
      NodeWeighsItsLeaves(w, d, Left(n));
      NodeWeighsItsLeaves(w, d, Right(n));
      SpansJoin(w, Low(n), n, High(n));
    }
  }

  lemma LeafWeighsItself(w: seq<U32>, n: nat)
    requires n < |w| && n % 2 == 1
    ensures Low(n) == n - 1 && High(n) == n + 1
    ensures w[n] == Wrap32(LeafSum(w, n - 1, n + 1))
  {
    assert LeafSum(w, n - 1, n) == LeafSum(w, n - 1, n - 1);
  }

  lemma SpansJoin(w: seq<U32>, a: nat, m: nat, b: nat)
    requires a <= m <= b <= |w|
    ensures WrapAdd(Wrap32(LeafSum(w, a, m)), Wrap32(LeafSum(w, m, b))) == Wrap32(LeafSum(w, a, b))
  {
    LeafSumSplit(w, a, m, b);
    AddOfWrapped(LeafSum(w, a, m), LeafSum(w, m, b));
  }

  lemma AddOfWrapped(a: int, b: int)
    ensures WrapAdd(Wrap32(a), Wrap32(b)) == Wrap32(a + b)
  {
  }

  lemma AddTwice(a: int, b: int, diff: int)
    ensures WrapAdd(WrapAdd(a, b), diff) == WrapAdd(WrapAdd(a, diff), b) == WrapAdd(b, WrapAdd(a, diff))
  {
  }

  /** When the total fits in 32 bits, nothing wraps: nodes are exact sums of their
      children, and the root is the total. */
  lemma ExactWhenTotalFits(w: seq<U32>, d: nat, n: nat)
    requires |w| == Pow2(d) && Balanced(w) && LeafSum(w, 0, |w|) < TWO32
    requires 0 < n < |w|
    ensures w[n] <= LeafSum(w, 0, |w|)
    ensures Interior(n) ==> BalancedAt(w, n) && w[n] == w[Left(n)] as int + w[Right(n)]
    ensures 2 * n == |w| ==> w[n] == LeafSum(w, 0, |w|)
  {
    NodeIsExact(w, d, n);
    if Interior(n) {
      InteriorIsExact(w, d, n);
    }
    if 2 * n == |w| {
      RootSpan(n, d);
    }
  }

  lemma InteriorIsExact(w: seq<U32>, d: nat, n: nat)
    requires |w| == Pow2(d) && Balanced(w) && LeafSum(w, 0, |w|) < TWO32
    requires 0 < n < |w| && Interior(n)
    ensures BalancedAt(w, n) && w[n] == w[Left(n)] as int + w[Right(n)]
  {
    assert BalancedAt(w, n);
    SpansOfChildren(n);
    NodeIsExact(w, d, n);
    NodeIsExact(w, d, Left(n));
    NodeIsExact(w, d, Right(n));
    LeafSumSplit(w, Low(n), n, High(n));
  }

  lemma NodeIsExact(w: seq<U32>, d: nat, n: nat)
    requires |w| == Pow2(d) && Balanced(w) && LeafSum(w, 0, |w|) < TWO32
    requires 0 < n < |w|
    ensures 0 <= Low(n) && High(n) <= |w|
    ensures w[n] == LeafSum(w, Low(n), High(n)) <= LeafSum(w, 0, |w|)
  {
    NodeWeighsItsLeaves(w, d, n);
    LeafSumSplit(w, 0, Low(n), |w|);
    LeafSumSplit(w, Low(n), High(n), |w|);
  }

  /* ---- one path ---- */

  /** Every node is balanced except `c`, which still lacks `diff`. */
  ghost predicate Owed(w: seq<U32>, c: nat, diff: int) {
    && (forall n: nat :: n < |w| && n != c ==> BalancedAt(w, n))
    && (c < |w| && Interior(c) ==>
          && 0 <= Left(c) < |w| && 0 <= Right(c) < |w|
          && WrapAdd(w[c], diff) == WrapAdd(w[Left(c)], w[Right(c)]))
  }

  /** Paying a node's debt passes the debt to its parent. */
  lemma DebtMovesUp(w: seq<U32>, d: nat, c: nat, diff: int)
    requires |w| == Pow2(d) && 0 < c < |w| && Owed(w, c, diff)
    ensures Owed(w[c := WrapAdd(w[c], diff)], Up(c), diff)
  {
    var v, p := w[c := WrapAdd(w[c], diff)], Up(c);
    ChildOfUp(c);
    forall n: nat | n < |v| && n != p
      ensures BalancedAt(v, n)
    {
      if Interior(n) {
        UpOfChildren(n);
        assert n != c ==> BalancedAt(w, n);
      }
    }
    if p < |v| {
      UpOfChildren(p);
      assert BalancedAt(w, p);
      AddTwice(w[Left(p)], w[Right(p)], diff);
      AddTwice(w[Right(p)], w[Left(p)], diff);
    }
  }

  /** The loop over the ancestors of a leaf.  `checked` is the builder's overflow test. */
  method Climb(w: seq<U32>, leaf: nat, diff: int, depth: nat, checked: bool)
    returns (v: seq<U32>, ok: bool)
    requires depth >= 1 && |w| == Pow2(depth)
    requires leaf < |w| && leaf % 2 == 1 && Owed(w, Up(leaf), diff)
    requires checked ==> 0 <= diff
    ensures |v| == |w|
    ensures ok ==> Balanced(v)
    ensures ok ==> forall n :: 0 <= n < |w| && n % 2 == 1 ==> v[n] == w[n]
    ensures ok <== !checked || forall n :: 0 <= n < |w| && Interior(n) ==> w[n] + diff < TWO32
    ensures ok ==> LeafSum(v, 0, |v|) == LeafSum(w, 0, |w|)
  {
    hide Up, Left, Right, Height, LeafSum, Balanced, Owed, Parent, WrapAdd;
    v, ok := w, true;
    var node := leaf;
    NodeInTree(leaf, depth);
    LeafHeight(leaf);
    for j := 1 to depth
      invariant |v| == |w|
      invariant 0 < node < |w| && Height(node) == j - 1
      invariant Owed(v, Up(node), diff)
      invariant forall n :: 0 <= n < |w| && n % 2 == 1 ==> v[n] == w[n]
      invariant forall n :: 0 <= n < |w| && Interior(n) && Height(n) >= j ==> v[n] == w[n]
      invariant LeafSum(v, 0, |v|) == LeafSum(w, 0, |w|)
    {
      NodeInTree(node, depth);
      ParentIsUp(node);
      ChildOfUp(node);
      DebtMovesUp(v, depth, Up(node), diff);
      node := Parent(node);
      if checked && v[node] + diff >= TWO32 {
        return v, false;
      }
      LeafSumUpdate(v, 0, |v|, node, WrapAdd(v[node], diff));
      v := v[node := WrapAdd(v[node], diff)];
    }
    DebtLeavesTree(v, node, depth, diff);
  }

  lemma LeafHeight(n: nat)
    requires n % 2 == 1
    ensures Height(n) == 0
  {
  }

  /** Nothing is owed above the root. */
  lemma DebtLeavesTree(v: seq<U32>, node: nat, depth: nat, diff: int)
    requires depth >= 1 && |v| == Pow2(depth) && 0 < node < |v| && Height(node) == depth - 1 && Owed(v, Up(node), diff)
    ensures Balanced(v)
  {
    hide Up, Height, Pow2;
    NodeInTree(node, depth);
  }

  /* ---- buckets ---- */

  ghost predicate IsTree(b: Bucket) {
    && b.alg.Tree?
    && |b.items| <= 64
    && (|b.items| == 0 ==> b.weight == 0)
    && (|b.items| > 0 ==>
          var w := b.alg.nodeWeights;
          && |w| == Pow2(CalcDepth(|b.items|))
          && Balanced(w)
          && b.weight == Wrap32(LeafSum(w, 0, |w|))
          && forall n :: 2 * |b.items| < n < |w| && n % 2 == 1 ==> w[n] == 0)
  }

  /** The total of the leaf weights, which `weight` is meant to be. */
  ghost function Total(b: Bucket): nat
    requires b.alg.Tree?
  {
    LeafSum(b.alg.nodeWeights, 0, |b.alg.nodeWeights|)
  }

  lemma RootIsWeight(b: Bucket)
    requires IsTree(b) && |b.items| > 0
    ensures |b.alg.nodeWeights| / 2 < |b.alg.nodeWeights|
    ensures b.alg.nodeWeights[|b.alg.nodeWeights| / 2] == b.weight
    ensures Total(b) < TWO32 <==> b.weight == Total(b)
  {
    var w, d := b.alg.nodeWeights, CalcDepth(|b.items|);
    DepthFits(|b.items|);
    var root := |w| / 2;
    assert |w| == 2 * Pow2(d - 1) && 2 * root == |w|;
    NodeInTree(root, d);
    NodeWeighsItsLeaves(w, d, root);
    assert Pow2(Height(root)) == root;
    WrapFits(Total(b));
  }

  /* ---- the chooser ---- */

  /** 32 hash bits scaled into [0, weight of node `n`). */
  function Point(o: Oracle, b: Bucket, x: int, r: int, n: nat): (t: nat)
    requires b.alg.Tree? && n < |b.alg.nodeWeights|
    ensures b.alg.nodeWeights[n] > 0 ==> t < b.alg.nodeWeights[n]
    ensures b.alg.nodeWeights[n] == 0 ==> t == 0
  {
    ScaleBelow(o.h4(b.hash, x, n, r, b.id), b.alg.nodeWeights[n]);
    (o.h4(b.hash, x, n, r, b.id) as int * b.alg.nodeWeights[n]) / 0x1_0000_0000
  }

  lemma ScaleBelow(h: U32, w: U32)
    ensures 0 <= (h as int * w) / 0x1_0000_0000
    ensures w > 0 ==> (h as int * w) / 0x1_0000_0000 < w
    ensures w == 0 ==> (h as int * w) / 0x1_0000_0000 == 0
  {
    var p := h as int * w;
    assert 0 <= p <= 0xffff_ffff * w;
  }

  /** The walk of `bucket_tree_choose`, as the node it ends on. */
  ghost function Walk(o: Oracle, b: Bucket, x: int, r: int, n: nat): (m: nat)
    requires IsTree(b) && |b.items| > 0 && 0 < n < |b.alg.nodeWeights|
    ensures m % 2 == 1 && m < |b.alg.nodeWeights|
    decreases Height(n)
  {
    if n % 2 == 1 then n
    else
      assert BalancedAt(b.alg.nodeWeights, n);
      UpOfChildren(n);
      if Point(o, b, x, r, n) < b.alg.nodeWeights[Left(n)] then Walk(o, b, x, r, Left(n))
      else Walk(o, b, x, r, Right(n))
  }

  ghost function TreeSlot(o: Oracle, b: Bucket, x: int, r: int): nat
    requires IsTree(b) && |b.items| > 0
  {
    RootIsWeight(b);
    DepthFits(|b.items|);
    Walk(o, b, x, r, |b.alg.nodeWeights| / 2) / 2
  }

  /** Where there is weight the walk stays on weight. */
  lemma {:induction false} WalkKeepsWeight(o: Oracle, b: Bucket, x: int, r: int, n: nat)
    requires IsTree(b) && |b.items| > 0 && Total(b) < TWO32 && 0 < n < |b.alg.nodeWeights|
    requires b.alg.nodeWeights[n] > 0
    ensures b.alg.nodeWeights[Walk(o, b, x, r, n)] > 0
    decreases Height(n)
  {
    if n % 2 == 0 {
      DepthFits(|b.items|);
      ExactWhenTotalFits(b.alg.nodeWeights, CalcDepth(|b.items|), n);
      UpOfChildren(n);
      WalkKeepsWeight(o, b, x, r,
        if Point(o, b, x, r, n) < b.alg.nodeWeights[Left(n)] then Left(n) else Right(n));
    }
  }

  /** Without weight the walk always turns right and ends on the last leaf. */
  lemma {:induction false} WalkWithoutWeight(o: Oracle, b: Bucket, x: int, r: int, n: nat)
    requires IsTree(b) && |b.items| > 0 && Total(b) == 0 && 0 < n < |b.alg.nodeWeights|
    ensures Walk(o, b, x, r, n) == n + Pow2(Height(n)) - 1
    decreases Height(n)
  {
    if n % 2 == 0 {
      DepthFits(|b.items|);
      ExactWhenTotalFits(b.alg.nodeWeights, CalcDepth(|b.items|), n);
      UpOfChildren(n);
      WalkWithoutWeight(o, b, x, r, Right(n));
    }
  }

  /** The chosen slot holds an item with weight if the bucket has weight.  A bucket without
      weight is read inside its items exactly when it is full, that is when its size is a
      power of two. */
  lemma TreeSlotInBounds(o: Oracle, b: Bucket, x: int, r: int)
    requires IsTree(b) && |b.items| > 0 && Total(b) < TWO32
    ensures var s, w := TreeSlot(o, b, x, r), b.alg.nodeWeights;
            && (b.weight > 0 ==> s < |b.items| && LeafNode(s) < |w| && w[LeafNode(s)] > 0)
            && (b.weight == 0 ==> (s < |b.items| <==> 2 * |b.items| == |w|))
  {
    hide Walk, Total, Pow2, Height, CalcDepth;
    RootIsWeight(b);
    var root := HalfOfTree(b);
    var m := Walk(o, b, x, r, root);
    assert LeafNode(m / 2) == m;
    if b.weight > 0 {
      WalkKeepsWeight(o, b, x, r, root);
    } else {
      WalkWithoutWeight(o, b, x, r, root);
    }
  }

  /* ---- what a draw depends on ---- */

  /** Below a node the walk goes to the side where the wanted leaf lies. */
  lemma {:induction false} WalkTo(o: Oracle, b: Bucket, x: int, r: int, n: nat, leaf: nat)
    requires IsTree(b) && |b.items| > 0 && Total(b) < TWO32 && 0 < n < |b.alg.nodeWeights|
    requires leaf % 2 == 1 && Low(n) < leaf < High(n) && leaf < |b.alg.nodeWeights| && b.alg.nodeWeights[leaf] > 0
    requires forall k :: 0 < k < |b.alg.nodeWeights| ==>
               o.h4(b.hash, x, k, r, b.id) == if leaf < k then 0 else 0xffff_ffff
    ensures Walk(o, b, x, r, n) == leaf
    decreases Height(n)
  {
    var w, d := b.alg.nodeWeights, CalcDepth(|b.items|);
    DepthFits(|b.items|);
    if n % 2 == 0 {
      SpansOfChildren(n);
      ExactWhenTotalFits(w, d, n);
      var child := if leaf < n then Left(n) else Right(n);
      assert leaf != n;
      LeafBelowNode(w, d, child, leaf);
      PointAtEnds(o, b, x, r, n);
      WalkTo(o, b, x, r, child, leaf);
    } else {
      assert Height(n) == 0 && Pow2(0) == 1;
    }
  }

  lemma PointAtEnds(o: Oracle, b: Bucket, x: int, r: int, n: nat)
    requires IsTree(b) && |b.items| > 0 && 0 < n < |b.alg.nodeWeights|
    ensures o.h4(b.hash, x, n, r, b.id) == 0 ==> Point(o, b, x, r, n) == 0
    ensures o.h4(b.hash, x, n, r, b.id) == 0xffff_ffff && b.alg.nodeWeights[n] > 0 ==>
              Point(o, b, x, r, n) == b.alg.nodeWeights[n] - 1
  {
  }

  /** A leaf weighs no more than the nodes above it. */
  lemma LeafBelowNode(w: seq<U32>, d: nat, n: nat, leaf: nat)
    requires |w| == Pow2(d) && Balanced(w) && LeafSum(w, 0, |w|) < TWO32
    requires 0 < n < |w| && leaf % 2 == 1 && Low(n) < leaf < High(n) && leaf < |w|
    ensures w[leaf] <= w[n]
  {
    NodeInTree(n, d);
    NodeIsExact(w, d, n);
    LeafSumSplit(w, Low(n), leaf, High(n));
    LeafSumSplit(w, leaf, leaf + 1, High(n));
    assert LeafSum(w, leaf, leaf) == 0;
  }

  predicate Weighted(b: Bucket, k: int)
    requires b.alg.Tree?
  {
    0 <= k < |b.items| && LeafNode(k) < |b.alg.nodeWeights| && b.alg.nodeWeights[LeafNode(k)] > 0
  }

  /** Whatever weighted slot is wanted for each hash kind, `x`, rank and bucket id, some hash draws
      it. */
  lemma EveryDraw(b: Bucket, f: (int, int, int, int) -> int) returns (o: Oracle)
    requires IsTree(b) && |b.items| > 0 && Total(b) < TWO32
    requires forall hash, x, r, id :: Weighted(b, f(hash, x, r, id))
    ensures forall hash, x, r, id :: TreeSlot(o, b.(hash := hash, id := id), x, r) == f(hash, x, r, id)
  {
    hide Walk, Total, Pow2, Height, CalcDepth;
    o := Oracle((_, _) => 0, (_, _, _, _) => 0,
                (hash, x, node, r, id) => if 2 * f(hash, x, r, id) + 1 < node then 0 else 0xffff_ffff,
                _ => 0);
    forall hash, x, r, id ensures TreeSlot(o, b.(hash := hash, id := id), x, r) == f(hash, x, r, id) {
      var c, k := b.(hash := hash, id := id), f(hash, x, r, id);
      assert Weighted(b, k);
      SameTree(b, c);
      var root := HalfOfTree(c);
      RootOfTree(c, root);
      WalkTo(o, c, x, r, root, 2 * k + 1);
    }
  }

  lemma SameTree(b: Bucket, c: Bucket)
    requires IsTree(b) && c == b.(hash := c.hash, id := c.id)
    ensures IsTree(c) && Total(c) == Total(b)
  {
  }

  lemma RootOfTree(b: Bucket, root: nat)
    requires IsTree(b) && |b.items| > 0 && 2 * root == |b.alg.nodeWeights|
    ensures 0 < root && Low(root) == 0 && High(root) == |b.alg.nodeWeights|
  {
    DepthFits(|b.items|);
    RootSpan(root, CalcDepth(|b.items|));
  }

  /** The root is the middle node, at the top height. */
  lemma HalfOfTree(b: Bucket) returns (root: nat)
    requires IsTree(b) && |b.items| > 0
    ensures root == |b.alg.nodeWeights| / 2 && 0 < root && 2 * root == |b.alg.nodeWeights| && Pow2(Height(root)) == root
    ensures |b.items| <= root
  {
    var w, d := b.alg.nodeWeights, CalcDepth(|b.items|);
    DepthFits(|b.items|);
    root := |w| / 2;
    assert |w| == 2 * Pow2(d - 1) && 2 * root == |w|;
    NodeInTree(root, d);
  }

  /** `bucket_tree_choose`. */
  method TreeChoose(o: Oracle, b: Bucket, x: int, r: int) returns (item: int)
    requires IsTree(b) && |b.items| > 0
    requires TreeSlot(o, b, x, r) < |b.items|
    ensures item == b.items[TreeSlot(o, b, x, r)]
  {
    var n := |b.alg.nodeWeights| / 2;
    RootIsWeight(b);
    DepthFits(|b.items|);
    while n % 2 == 0
      invariant 0 < n < |b.alg.nodeWeights|
      invariant Walk(o, b, x, r, n) / 2 == TreeSlot(o, b, x, r)
      decreases Height(n)
    {
      assert BalancedAt(b.alg.nodeWeights, n);
      UpOfChildren(n);
      var t := Point(o, b, x, r, n);
      var l := Left(n);
      if t < b.alg.nodeWeights[l] {
        n := l;
      } else {
        n := Right(n);
      }
    }
    item := b.items[n / 2];
  }

  /* ---- the builder ---- */

  lemma {:induction false} BitsMonotone(s: nat, t: nat)
    requires s <= t
    ensures Bits(s) <= Bits(t)
  {
    if s > 0 {
      BitsMonotone(s / 2, t / 2);
    }
  }

  lemma DepthMonotone(s: nat, t: nat)
    requires s <= t
    ensures CalcDepth(s) <= CalcDepth(t)
  {
    if s > 0 {
      BitsMonotone(s - 1, t - 1);
    }
  }

  lemma WrapBack(a: U32, v: U32)
    ensures WrapAdd(a, v - a) == v
  {
  }

  /** Changing a leaf leaves a debt for its parent only. */
  lemma LeafChange(w: seq<U32>, d: nat, leaf: nat, v: U32)
    requires |w| == Pow2(d) && Balanced(w) && leaf < |w| && leaf % 2 == 1
    ensures Owed(w[leaf := v], Up(leaf), v - w[leaf])
    ensures LeafSum(w[leaf := v], 0, |w|) == LeafSum(w, 0, |w|) + v - w[leaf]
  {
    WrapBack(w[leaf], v);
    assert Owed(w, leaf, v - w[leaf]);
    DebtMovesUp(w, d, leaf, v - w[leaf]);
    LeafSumUpdate(w, 0, |w|, leaf, v);
  }

  /** Writes a leaf and carries the difference up to the root. */
  method SetLeaf(w: seq<U32>, leaf: nat, v: U32, depth: nat, checked: bool)
    returns (u: seq<U32>, ok: bool)
    requires depth >= 1 && |w| == Pow2(depth) && Balanced(w)
    requires leaf < |w| && leaf % 2 == 1
    requires checked ==> w[leaf] <= v && LeafSum(w, 0, |w|) + v - w[leaf] < TWO32
    ensures ok && |u| == |w| && Balanced(u)
    ensures forall n :: 0 <= n < |w| && n % 2 == 1 ==> u[n] == if n == leaf then v else w[n]
    ensures LeafSum(u, 0, |u|) == LeafSum(w, 0, |w|) + v - w[leaf]
  {
    LeafChange(w, depth, leaf, v);
    if checked {
      NodesBelowTotal(w, depth);
    }
    u, ok := Climb(w[leaf := v], leaf, v - w[leaf], depth, checked);
  }

  lemma ZeroTree(w: seq<U32>, d: nat)
    requires |w| == Pow2(d) && forall n :: 0 <= n < |w| ==> w[n] == 0
    ensures Balanced(w) && LeafSum(w, 0, |w|) == 0
  {
    LeafSumZero(w, 0, |w|);
    forall n: nat | n < |w|
      ensures BalancedAt(w, n)
    {
      if Interior(n) {
        NodeInTree(n, d);
        SpansOfChildren(n);
      }
    }
  }

  /** The item loop of `crush_make_tree_bucket`. */
  method Fill(weights: seq<U32>, depth: nat) returns (w: seq<U32>, total: U32, ok: bool)
    requires depth >= 1 && |weights| <= Pow2(depth - 1)
    ensures ok <==> Sum(weights) < TWO32
    ensures ok ==> |w| == Pow2(depth) && Balanced(w)
    ensures ok ==> total == Sum(weights) == LeafSum(w, 0, |w|)
    ensures ok ==> forall n :: 0 <= n < |w| && n % 2 == 1 ==>
              w[n] == if n < 2 * |weights| then weights[n / 2] else 0
  {
    w, total := seq(Pow2(depth), _ => 0), 0;
    ZeroTree(w, depth);
    for i := 0 to |weights|
      invariant |w| == Pow2(depth) && Balanced(w)
      invariant total == Sum(weights[..i]) == LeafSum(w, 0, |w|)
      invariant forall n :: 0 <= n < |w| && n % 2 == 1 ==>
                  w[n] == if n < 2 * i then weights[n / 2] else 0
    {
      var leaf := LeafNode(i);
      assert leaf / 2 == i && leaf < |w|;
      assert weights[..i + 1][..i] == weights[..i];
      PrefixBelowTotal(weights, i + 1);
      if AdditionIsUnsafe(total, weights[i]) {
        return w, total, false;
      }
      total := total + weights[i];
      w, ok := SetLeaf(w, leaf, weights[i], depth, true);
    }
    assert weights[..|weights|] == weights;
    ok := true;
  }

  /** Cutting weightless leaves off the right end keeps balance and total. */
  lemma CutKeepsBalance(w: seq<U32>, d: nat, e: nat)
    requires |w| == Pow2(d) && Balanced(w) && Pow2(e) <= |w|
    requires forall n :: Pow2(e) <= n < |w| && n % 2 == 1 ==> w[n] == 0
    ensures Balanced(w[..Pow2(e)])
    ensures LeafSum(w[..Pow2(e)], 0, Pow2(e)) == LeafSum(w, 0, |w|)
  {
    var v := w[..Pow2(e)];
    forall n: nat | n < |v|
      ensures BalancedAt(v, n)
    {
      assert BalancedAt(w, n);
      if Interior(n) {
        NodeInTree(n, e);
        SpansOfChildren(n);
      }
    }
    LeafSumPrefix(w, 0, Pow2(e), Pow2(e));
    LeafSumSplit(w, 0, Pow2(e), |w|);
    LeafSumZero(w, Pow2(e), |w|);
  }

  /** `struct crush_bucket_tree`.  `num_nodes` is the length of `nodeWeights`; the field is
      8 bits wide, so the code supports sizes up to 64. */
  class TreeBucket {
    var id: int
    const kind: int
    const hash: int
    var weight: U32
    var items: seq<int>
    var nodeWeights: seq<U32>
    /** The memory of `items` has been given back though the bucket still has a size. */
    var dangling: bool

    ghost predicate Valid()
      reads this
    {
      IsTree(Value()) && Total(Value()) < TWO32 && !dangling
    }

    ghost function Value(): (b: Bucket)
      reads this
      ensures b.alg.Tree?
    {
      Bucket(id, kind, hash, weight, items, Tree(nodeWeights))
    }

    ghost predicate LastLeafHasWeight()
      reads this
    {
      items != [] && LeafNode(|items| - 1) < |nodeWeights| && nodeWeights[LeafNode(|items| - 1)] > 0
    }

    constructor (hash: int, kind: int)
      ensures id == 0 && this.kind == kind && this.hash == hash
      ensures weight == 0 && items == [] && nodeWeights == [] && !dangling
    {
      this.hash, this.kind, id, weight, items, nodeWeights := hash, kind, 0, 0, [], [];
      dangling := false;
    }

    /** `crush_make_tree_bucket`: no bucket when the total leaves 32 bits; otherwise the
        given weights are the leaves, and everything above them adds up. */
    static method Make(hash: int, kind: int, items: seq<int>, weights: seq<U32>)
      returns (b: TreeBucket?)
      requires |items| == |weights| <= 64
      ensures b == null <==> Sum(weights) >= TWO32
      ensures b != null ==>
                && fresh(b) && b.Valid() && b.items == items && b.weight == Sum(weights)
                && forall i :: 0 <= i < |items| ==>
                     LeafNode(i) < |b.nodeWeights| && b.nodeWeights[LeafNode(i)] == weights[i]
    {
      b := new TreeBucket(hash, kind);
      if |items| == 0 {
        return;
      }
      var depth := CalcDepth(|items|);
      DepthFits(|items|);
      var w, total, ok := Fill(weights, depth);
      if !ok {
        return null;
      }
      b.items, b.nodeWeights, b.weight := items, w, total;
      assert forall i :: 0 <= i < |items| ==> LeafNode(i) / 2 == i;
    }

    /** `crush_adjust_tree_bucket_item_weight`: the tree is right again just when the new
        total fits in 32 bits; the code does not test it. */
    method Adjust(item: int, w: U32) returns (diff: int, ghost i: nat)
      requires IsTree(Value()) && !dangling
      modifies this
      ensures items == old(items) && !dangling
      ensures item !in items ==> diff == 0 && Value() == old(Value())
      ensures item in items ==>
                && i < |items| && items[i] == item && item !in items[..i]
                && |nodeWeights| == |old(nodeWeights)| && LeafNode(i) < |nodeWeights|
                && diff == w - old(nodeWeights)[LeafNode(i)]
                && (forall n :: 0 <= n < |nodeWeights| && n % 2 == 1 ==>
                      nodeWeights[n] == if n == LeafNode(i) then w else old(nodeWeights)[n])
                && IsTree(Value()) && Total(Value()) == Total(old(Value())) + diff
                && (Valid() <==> Total(old(Value())) + diff < TWO32)
    {
      var k := FirstIndexOf(items, item);
      i := k;
      if k == |items| {
        return 0, k;
      }
      ghost var was := Value();
      diff := PutLeaf(k, w);
      WrapOfSum(Total(was), diff);
      weight := WrapAdd(weight, diff);
    }

    /** Writes the weight of slot `k` and of the nodes above it. */
    method PutLeaf(k: nat, v: U32) returns (diff: int)
      requires IsTree(Value()) && k < |items|
      modifies this`nodeWeights
      ensures |nodeWeights| == |old(nodeWeights)| && 2 * |items| <= |nodeWeights|
      ensures diff == v - old(nodeWeights)[LeafNode(k)]
      ensures Balanced(nodeWeights)
      ensures forall n :: 0 <= n < |nodeWeights| && n % 2 == 1 ==>
                nodeWeights[n] == if n == LeafNode(k) then v else old(nodeWeights)[n]
      ensures Total(Value()) == Total(old(Value())) + diff
    {
      var depth, node := CalcDepth(|items|), LeafNode(k);
      DepthFits(|items|);
      assert |nodeWeights| == 2 * Pow2(depth - 1);
      diff := v - nodeWeights[node];
      var u, ok := SetLeaf(nodeWeights, node, v, depth, false);
      nodeWeights := u;
    }

    /** `crush_remove_tree_bucket_item`: the slot is cleared, and the tree shrinks past all
        weightless slots at its right end.  `zeroIsNull` says that `realloc` to size 0 frees the
        memory and returns NULL, as in the GNU C library: then removing the last weight fails,
        with the items freed and the size kept. */
    method Remove(item: int, zeroIsNull: bool) returns (ret: int, ghost i: nat)
      requires Valid()
      modifies this
      ensures item !in old(items) ==> ret == -ENOENT && Value() == old(Value()) && Valid()
      ensures item in old(items) ==>
                && i < |old(items)| && old(items)[i] == item && item !in old(items)[..i]
                && LeafNode(i) < |old(nodeWeights)|
                && Total(Value()) == Total(old(Value())) - old(nodeWeights)[LeafNode(i)]
                && |nodeWeights| <= |old(nodeWeights)|
                && (forall n :: 0 <= n < |nodeWeights| && n % 2 == 1 ==>
                      nodeWeights[n] == if n == LeafNode(i) then 0 else old(nodeWeights)[n])
                && ret == (if zeroIsNull && Total(Value()) == 0 then -ENOMEM else 0)
      ensures item in old(items) && ret == 0 ==>
                && Valid() && |items| <= |old(items)| && items == old(items)[i := 0][..|items|]
                && (items != [] ==> LastLeafHasWeight())
      ensures item in old(items) && ret == -ENOMEM ==>
                && dangling && items == old(items)[i := 0] && weight == 0 && |nodeWeights| == |old(nodeWeights)|
    {
      var k := FirstIndexOf(items, item);
      i := k;
      if k == |items| {
        return -ENOENT, k;
      }
      ret := Clear(k, zeroIsNull);
    }

    /** The part of remove behind the search, for slot `k`. */
    method Clear(k: nat, zeroIsNull: bool) returns (ret: int)
      requires Valid() && k < |items|
      modifies this
      ensures LeafNode(k) < |old(nodeWeights)|
      ensures Total(Value()) == Total(old(Value())) - old(nodeWeights)[LeafNode(k)]
      ensures |nodeWeights| <= |old(nodeWeights)|
      ensures forall n :: 0 <= n < |nodeWeights| && n % 2 == 1 ==>
                nodeWeights[n] == if n == LeafNode(k) then 0 else old(nodeWeights)[n]
      ensures ret == if zeroIsNull && Total(Value()) == 0 then -ENOMEM else 0
      ensures ret == 0 ==> Valid() && |items| <= |old(items)| && items == old(items)[k := 0][..|items|]
      ensures ret == 0 && items != [] ==> LastLeafHasWeight()
      ensures ret == -ENOMEM ==>
                dangling && items == old(items)[k := 0] && weight == 0 && |nodeWeights| == |old(nodeWeights)|
    {
      ghost var was := Value();
      RootIsWeight(was);
      var diff := PutLeaf(k, 0);
      weight := if -diff < weight then weight + diff else 0;
      var newSize := TrimmedSize(nodeWeights, |items|);
      items := items[k := 0];
      assert weight == Total(Value());
      WeightLeft(nodeWeights, newSize);
      if newSize != |items| {
        if newSize == 0 && zeroIsNull {
          dangling := true;
          return -ENOMEM;
        }
        Shrink(newSize);
      } else {
        WrapFits(Total(Value()));
      }
      return 0;
    }

    /** The part of remove that drops weightless slots. */
    method Shrink(newSize: nat)
      requires newSize < |items| <= 64
      requires |nodeWeights| == Pow2(CalcDepth(|items|)) && Balanced(nodeWeights)
      requires weight == Total(Value()) && !dangling
      requires forall n :: 2 * newSize <= n < |nodeWeights| && n % 2 == 1 ==> nodeWeights[n] == 0
      requires newSize > 0 ==> LeafNode(newSize - 1) < |nodeWeights| && nodeWeights[LeafNode(newSize - 1)] > 0
      modifies this
      ensures Valid() && Total(Value()) == Total(old(Value()))
      ensures items == old(items)[..newSize] && nodeWeights <= old(nodeWeights)
      ensures newSize > 0 ==> LastLeafHasWeight()
    {
      DepthMonotone(newSize, |items|);
      Pow2Monotone(CalcDepth(newSize), CalcDepth(|items|));
      if newSize > 0 {
        DepthFits(newSize);
        assert Pow2(CalcDepth(newSize)) == 2 * Pow2(CalcDepth(newSize) - 1);
      } else {
        LeafSumZero(nodeWeights, 0, |nodeWeights|);
      }
      CutKeepsBalance(nodeWeights, CalcDepth(|items|), CalcDepth(newSize));
      if CalcDepth(|items|) != CalcDepth(newSize) {
        nodeWeights := nodeWeights[..Pow2(CalcDepth(newSize))];
      }
      items := items[..newSize];
      WrapFits(Total(Value()));
    }
  }

  /** The loop that skips weightless leaves from the right. */
  method TrimmedSize(w: seq<U32>, size: nat) returns (n: nat)
    requires 2 * size <= |w|
    requires forall k :: 2 * size < k < |w| && k % 2 == 1 ==> w[k] == 0
    ensures n <= size
    ensures n > 0 ==> w[LeafNode(n - 1)] > 0
    ensures forall k :: 2 * n <= k < |w| && k % 2 == 1 ==> w[k] == 0
  {
    n := size;
    while n > 0 && w[LeafNode(n - 1)] == 0
      invariant n <= size
      invariant forall k :: 2 * n <= k < |w| && k % 2 == 1 ==> w[k] == 0
    {
      n := n - 1;
    }
  }

  /** What is left after the loop has weight exactly if anything is left. */
  lemma WeightLeft(w: seq<U32>, n: nat)
    requires forall k :: 2 * n <= k < |w| && k % 2 == 1 ==> w[k] == 0
    requires n > 0 ==> LeafNode(n - 1) < |w| && w[LeafNode(n - 1)] > 0
    ensures LeafSum(w, 0, |w|) == 0 <==> n == 0
  {
    if n == 0 {
      LeafSumZero(w, 0, |w|);
    } else {
      var k := LeafNode(n - 1);
      LeafSumSplit(w, 0, k, |w|);
      LeafSumSplit(w, k, k + 1, |w|);
      assert LeafSum(w, k, k) == 0;
    }
  }

  lemma NodesBelowTotal(w: seq<U32>, d: nat)
    requires d >= 1 && |w| == Pow2(d) && Balanced(w) && LeafSum(w, 0, |w|) < TWO32
    ensures forall n :: 0 < n < |w| ==> w[n] <= LeafSum(w, 0, |w|)
  {
    forall n | 0 < n < |w|
      ensures w[n] <= LeafSum(w, 0, |w|)
    {
      ExactWhenTotalFits(w, d, n);
    }
  }
}
