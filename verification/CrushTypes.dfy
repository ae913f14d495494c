/** The structures of `crush.h` as immutable values, and the pseudo-random
    functions the placement code is parameterised by. */
module CrushTypes {
  import opened Basics

  datatype Option<+T> = None | Some(value: T)

  type U32 = x: int | 0 <= x < 0x1_0000_0000

  /** Values of `crush_ln`: 48-bit fixed point. */
  type Log48 = x: int | 0 <= x < 0x1_0000_0000_0000

  const ITEM_UNDEF: int := 0x7fff_fffe
  const ITEM_NONE: int := 0x7fff_ffff

  /** The Jenkins hashes and the logarithm table.  Nothing proved here depends on
      their concrete values, so they are arbitrary functions.  The first argument
      of `h3` and `h4` is the bucket's hash kind. */
  datatype Oracle = Oracle(
    h2: (int, int) -> U32,
    h3: (int, int, int, int) -> U32,
    h4: (int, int, int, int, int) -> U32,
    ln: int -> Log48)

  datatype Alg =
    | Uniform(itemWeight: U32)
    | List(itemWeights: seq<U32>, sumWeights: seq<U32>)
    | Tree(nodeWeights: seq<U32>)
    | Straw(straws: seq<U32>)
    | Straw2(itemWeights: seq<U32>)
    | Unknown

  /** `kind` is the C field `type`; `size` is the length of `items`. */
  datatype Bucket = Bucket(id: int, kind: int, hash: int, weight: U32, items: seq<int>, alg: Alg)

  /** Reduction of a C integer to 32 unsigned bits. */
  function Wrap32(n: int): U32 {
    n % 0x1_0000_0000
  }

  const ENOENT: int := 2
  const ENOMEM: int := 12
  const ERANGE: int := 34

  /** `crush_addition_is_unsafe`: the sum does not fit in 32 bits. */
  predicate AdditionIsUnsafe(a: U32, b: U32) {
    0xffff_ffff - b < a
  }

  function Sum(ws: seq<int>): int {
    if ws == [] then 0 else Sum(ws[..|ws| - 1]) + ws[|ws| - 1]
  }

  lemma {:induction false} SumNonNegative(ws: seq<int>)
    requires forall i :: 0 <= i < |ws| ==> ws[i] >= 0
    ensures Sum(ws) >= 0
    ensures forall i :: 0 <= i < |ws| ==> ws[i] <= Sum(ws)
  {
    if ws != [] {
      SumNonNegative(ws[..|ws| - 1]);
      forall i | 0 <= i < |ws| ensures ws[i] <= Sum(ws) {
        if i < |ws| - 1 {
          assert ws[i] == ws[..|ws| - 1][i];
        }
      }
    }
  }

  lemma {:induction false} PrefixBelowTotal(ws: seq<U32>, n: nat)
    requires n <= |ws|
    ensures 0 <= Sum(ws[..n]) <= Sum(ws)
  {
    SumNonNegative(ws[..n]);
    if n < |ws| {
      PrefixBelowTotal(ws[..|ws| - 1], n);
      assert ws[..|ws| - 1][..n] == ws[..n];
    } else {
      assert ws[..n] == ws;
    }
  }

  lemma SumAppend(ws: seq<int>, w: int)
    ensures Sum(ws + [w]) == Sum(ws) + w
  {
    assert (ws + [w])[..|ws|] == ws;
  }

  lemma {:induction false} SumUpdate(ws: seq<int>, i: nat, w: int)
    requires i < |ws|
    ensures Sum(ws[i := w]) == Sum(ws) + w - ws[i]
  {
    var n := |ws| - 1;
    if i == n {
      assert ws[i := w][..n] == ws[..n];
    } else {
      SumUpdate(ws[..n], i, w);
      assert ws[i := w][..n] == ws[..n][i := w];
    }
  }

  lemma WrapOfSum(a: int, w: int)
    ensures Wrap32(Wrap32(a) + w) == Wrap32(a + w)
  {
  }

  lemma WrapFits(a: int)
    requires a >= 0
    ensures Wrap32(a) == a <==> a < TWO32
  {
  }

  lemma MultipleIsFar(n: nat, d: int)
    ensures d >= 1 ==> n * d >= n
    ensures d <= 0 ==> n * d <= 0
    ensures d <= -1 ==> n * d <= -(n as int)
  {
  }

  /** The loop that looks an item up, in every adjust and remove. */
  method FirstIndexOf(items: seq<int>, item: int) returns (i: nat)
    ensures i <= |items|
    ensures item !in items[..i]
    ensures i < |items| ==> items[i] == item
  {
    i := 0;
    while i < |items| && items[i] != item
      invariant i <= |items| && item !in items[..i]
    {
      i := i + 1;
    }
  }
}
