/** The in-order numbering of the binary tree behind a tree bucket: node `n` has the
    height of its trailing zero bits, leaves are the odd numbers. */
module TreeNodes {
  import opened CrushTypes

  function Pow2(h: nat): (p: nat)
    ensures p > 0
  {
    if h == 0 then 1 else 2 * Pow2(h - 1)
  }

  function Height(n: nat): nat
    requires n > 0
  {
    if n % 2 == 1 then 0 else 1 + Height(n / 2)
  }

  predicate Interior(n: nat) {
    n > 0 && n % 2 == 0
  }

  function Left(n: nat): int
    requires Interior(n)
  {
    n - Pow2(Height(n) - 1)
  }

  function Right(n: nat): int
    requires Interior(n)
  {
    n + Pow2(Height(n) - 1)
  }

  /** `n & (1 << (h + 1))` is set. */
  predicate OnRight(n: nat, h: nat) {
    (n / Pow2(h + 1)) % 2 == 1
  }

  function Parent(n: nat): int
    requires n > 0
  {
    var h := Height(n);
    if OnRight(n, h) then n - Pow2(h) else n + Pow2(h)
  }

  /** Number of bits: the shifting loop of `calc_depth`. */
  function Bits(t: nat): nat {
    if t == 0 then 0 else 1 + Bits(t / 2)
  }

  function CalcDepth(size: nat): nat {
    if size == 0 then 0 else 1 + Bits(size - 1)
  }

  /** `crush_calc_tree_node`: the node of leaf `i`. */
  function LeafNode(i: nat): nat {
    2 * (i + 1) - 1
  }

  lemma {:induction false} BitsBounds(t: nat)
    ensures t < Pow2(Bits(t))
    ensures t > 0 ==> Pow2(Bits(t) - 1) <= t
  {
    if t > 1 {
      BitsBounds(t / 2);
    }
  }

  lemma {:induction false} Pow2Monotone(a: nat, b: nat)
    requires a <= b
    ensures Pow2(a) <= Pow2(b)
  {
    if a < b {
      Pow2Monotone(a, b - 1);
    }
  }

  /** The leaves fit, with the last one beyond the middle: no smaller tree would do. */
  lemma DepthFits(size: nat)
    requires size > 0
    ensures CalcDepth(size) >= 1
    ensures size <= Pow2(CalcDepth(size) - 1)
    ensures size > 1 ==> CalcDepth(size) >= 2 && Pow2(CalcDepth(size) - 2) < size
    ensures size <= 64 ==> Pow2(CalcDepth(size)) <= 128
  {
    BitsBounds(size - 1);
    if size > 1 {
      assert Pow2(Bits(size - 1) - 1) <= size - 1;
    }
    assert Pow2(3) == 8;
    assert Pow2(6) == 64;
    assert Pow2(7) == 128;
    if CalcDepth(size) > 7 {
      Pow2Monotone(6, CalcDepth(size) - 2);
    } else {
      Pow2Monotone(CalcDepth(size), 7);
    }
  }

  lemma HalfOfDouble(n: nat, p: nat)
    requires p > 0
    ensures (2 * n) / (2 * p) == n / p
  {
    var q, m := n / p, n % p;
    assert 2 * n == (2 * p) * q + 2 * m;
    var d := (2 * n) / (2 * p) - q;
    assert (2 * p) * d == 2 * m - (2 * n) % (2 * p);
    MultipleIsFar(2 * p, d);
  }

  lemma ParentOfDouble(n: nat)
    requires n > 0
    ensures Parent(2 * n) == 2 * Parent(n)
  {
    HalfOfDouble(n, Pow2(Height(n) + 1));
  }

  function OddAbove(m: nat): (o: nat)
    ensures o % 2 == 1
  {
    if m % 2 == 1 then m else m + 1
  }

  /** The parent without powers of two: the pattern repeats at every scale. */
  function Up(n: nat): (p: nat)
    requires n > 0
    ensures p > 0 && p % 2 == 0
  {
    if n % 2 == 1 then 2 * OddAbove(n / 2) else 2 * Up(n / 2)
  }

  lemma OfOdd(m: nat)
    ensures Up(2 * m + 1) == 2 * OddAbove(m) && Height(2 * m + 1) == 0
  {
    assert (2 * m + 1) / 2 == m && (2 * m + 1) % 2 == 1;
  }

  lemma OfDouble(k: nat)
    requires k > 0
    ensures Up(2 * k) == 2 * Up(k)
    ensures Height(2 * k) == 1 + Height(k)
    ensures Interior(k) ==> Left(2 * k) == 2 * Left(k) && Right(2 * k) == 2 * Right(k)
  {
    assert (2 * k) / 2 == k && (2 * k) % 2 == 0;
    if Interior(k) {
      assert Pow2(Height(k)) == 2 * Pow2(Height(k) - 1);
    }
  }

  lemma ParentOfOdd(m: nat)
    ensures Parent(2 * m + 1) == 2 * OddAbove(m)
  {
    hide Height;
    OfOdd(m);
    assert Pow2(1) == 2 && Pow2(0) == 1;
    assert (2 * m + 1) / 2 == m;
  }

  lemma {:induction false} ParentIsUp(n: nat)
    requires n > 0
    ensures Parent(n) == Up(n)
  {
    hide Parent, Up, Height;
    var k := n / 2;
    if n % 2 == 1 {
      assert n == 2 * k + 1;
      ParentOfOdd(k);
      OfOdd(k);
    } else {
      assert n == 2 * k;
      ParentIsUp(k);
      ParentOfDouble(k);
      OfDouble(k);
    }
  }

  lemma LowestInterior(o: nat)
    requires o % 2 == 1
    ensures Interior(2 * o) && Height(2 * o) == 1 && Left(2 * o) == 2 * o - 1 && Right(2 * o) == 2 * o + 1
  {
    assert (2 * o) / 2 == o && (2 * o) % 2 == 0;
    assert Height(o) == 0 && Pow2(0) == 1;
  }

  lemma UpOfLowest(o: nat)
    requires o % 2 == 1
    ensures Interior(2 * o) && 0 < Left(2 * o) < 2 * o < Right(2 * o)
    ensures Up(Left(2 * o)) == 2 * o == Up(Right(2 * o))
    ensures Height(Left(2 * o)) == Height(Right(2 * o)) == Height(2 * o) - 1
  {
    hide Up, Height, Left, Right, Pow2;
    LowestInterior(o);
    OfOdd(o - 1);
    OfOdd(o);
    assert 2 * (o - 1) + 1 == 2 * o - 1;
  }

  /** A node's children have it as parent, and lie one level down. */
  lemma {:induction false} UpOfChildren(n: nat)
    requires Interior(n)
    ensures 0 < Left(n) < n < Right(n)
    ensures Up(Left(n)) == n == Up(Right(n))
    ensures Height(Left(n)) == Height(Right(n)) == Height(n) - 1
  {
    hide Up, Height, Left, Right, Pow2;
    var k := n / 2;
    assert n == 2 * k;
    if k % 2 == 1 {
      UpOfLowest(k);
    } else {
      assert Interior(k);
      UpOfChildren(k);
      OfDouble(k);
      OfDouble(Left(k));
      OfDouble(Right(k));
    }
  }

  lemma ChildOfUpOdd(m: nat)
    ensures var c := 2 * m + 1;
            && Height(Up(c)) == Height(c) + 1
            && (c == Left(Up(c)) || c == Right(Up(c)))
  {
    hide Up, Height, Left, Right, Pow2;
    OfOdd(m);
    LowestInterior(OddAbove(m));
  }

  /** A node is one of its parent's two children. */
  lemma {:induction false} ChildOfUp(c: nat)
    requires c > 0
    ensures Height(Up(c)) == Height(c) + 1
    ensures c == Left(Up(c)) || c == Right(Up(c))
  {
    hide Up, Height, Left, Right, Pow2;
    var k := c / 2;
    if c % 2 == 1 {
      assert c == 2 * k + 1;
      ChildOfUpOdd(k);
    } else {
      assert c == 2 * k;
      ChildOfUp(k);
      OfDouble(k);
      OfDouble(Up(k));
    }
  }

  /** In a tree of 2^d nodes every node spans a range of the tree, and only the root has
      the top height. */
  lemma {:induction false} NodeInTree(n: nat, d: nat)
    requires 0 < n < Pow2(d)
    ensures Height(n) < d
    ensures 0 <= Low(n) && High(n) <= Pow2(d)
    ensures Height(n) == d - 1 <==> 2 * n == Pow2(d)
    ensures Up(n) < Pow2(d) <==> 2 * n != Pow2(d)
  {
    if n % 2 == 1 {
      if d > 1 {
        assert Pow2(d) == 4 * Pow2(d - 2);
      }
    } else {
      var k := n / 2;
      assert n == 2 * k;
      NodeInTree(k, d - 1);
      OfDouble(k);
    }
  }

  /** Node `n` lies above the nodes from `Low(n)` up to `High(n)`. */
  function Low(n: nat): int
    requires n > 0
  {
    n - Pow2(Height(n))
  }

  function High(n: nat): int
    requires n > 0
  {
    n + Pow2(Height(n))
  }

  lemma SpansOfChildren(n: nat)
    requires Interior(n)
    ensures 0 < Left(n) < n < Right(n) && Height(Left(n)) == Height(Right(n)) == Height(n) - 1
    ensures Low(Left(n)) == Low(n) && High(Left(n)) == n
    ensures Low(Right(n)) == n && High(Right(n)) == High(n)
  {
    UpOfChildren(n);
    assert Pow2(Height(n)) == 2 * Pow2(Height(n) - 1);
  }

  lemma RootSpan(n: nat, d: nat)
    requires 0 < n && 2 * n == Pow2(d)
    ensures Low(n) == 0 && High(n) == Pow2(d)
  {
    NodeInTree(n, d);
  }
}
