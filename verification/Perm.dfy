/** `bucket_perm_choose`: a Fisher-Yates permutation that is computed lazily and
    cached per bucket between calls. */
module Perm {
  import opened Basics
  import opened CrushTypes

  /** The value written to `perm_n` after the `r = 0` shortcut. */
  const MAGIC: int := 0xffff

  function Swap(s: seq<nat>, i: nat, j: nat): seq<nat>
    requires i < |s| && j < |s|
  {
    s[i := s[j]][j := s[i]]
  }

  function Offset(o: Oracle, b: Bucket, x: int, p: nat): (i: nat)
    requires p < |b.items|
    ensures p + i < |b.items|
  {
    o.h3(b.hash, x, b.id, p) % (|b.items| - p)
  }

  /** The slot that step `p` of the shuffle exchanges with slot `p`. */
  function Partner(o: Oracle, b: Bucket, x: int, p: nat): (q: nat)
    requires p < |b.items|
    ensures p <= q < |b.items|
  {
    if p < |b.items| - 1 then p + Offset(o, b, x, p) else p
  }

  /** The reference: `n` steps of a shuffle that starts from the identity. */
  ghost function Shuffle(o: Oracle, b: Bucket, x: int, n: nat): (s: seq<nat>)
    requires n <= |b.items|
    ensures |s| == |b.items|
    ensures forall k :: 0 <= k < |s| ==> s[k] < |s|
  {
    if n == 0 then seq(|b.items|, i => i)
    else Swap(Shuffle(o, b, x, n - 1), n - 1, Partner(o, b, x, n - 1))
  }

  /** The slot that replica rank `r` selects: the complete shuffle, no cache. */
  ghost function PermSlot(o: Oracle, b: Bucket, x: int, r: nat): (s: nat)
    requires |b.items| > 0
    ensures s < |b.items|
  {
    Shuffle(o, b, x, |b.items|)[r % |b.items|]
  }

  ghost function PermItem(o: Oracle, b: Bucket, x: int, r: nat): int
    requires |b.items| > 0
  {
    b.items[PermSlot(o, b, x, r)]
  }

  /** Every prefix of the shuffle is a permutation of the slots. */
  lemma {:induction false} ShuffleDistinct(o: Oracle, b: Bucket, x: int, n: nat)
    requires n <= |b.items|
    ensures Distinct(Shuffle(o, b, x, n))
  {
    if n > 0 {
      ShuffleDistinct(o, b, x, n - 1);
    }
  }

  /** One step: position `p` gets one of the slots from `p` on, by the hash of `p`, that position
      gets the slot from `p`, and no other position changes. */
  lemma StepExchanges(o: Oracle, b: Bucket, x: int, p: nat, k: nat)
    requires p < |b.items| && k < |b.items|
    ensures var was, now, q := Shuffle(o, b, x, p), Shuffle(o, b, x, p + 1),
                               p + o.h3(b.hash, x, b.id, p) % (|b.items| - p);
            now[k] == if k == p then was[q] else if k == q then was[p] else was[k]
  {
  }

  /** So the rank's slot is the one that its own step drew. */
  lemma RankDraws(o: Oracle, b: Bucket, x: int, r: nat)
    requires |b.items| > 0
    ensures var p := r % |b.items|;
            PermSlot(o, b, x, r) == Shuffle(o, b, x, p)[p + o.h3(b.hash, x, b.id, p) % (|b.items| - p)]
  {
    var p := r % |b.items|;
    ShufflePrefixStable(o, b, x, p + 1, |b.items|);
    assert Shuffle(o, b, x, |b.items|)[..p + 1][p] == Shuffle(o, b, x, p + 1)[..p + 1][p];
  }

  /** Later steps leave the slots already placed alone. */
  lemma {:induction false} ShufflePrefixStable(o: Oracle, b: Bucket, x: int, n: nat, m: nat)
    requires n <= m <= |b.items|
    ensures Shuffle(o, b, x, m)[..n] == Shuffle(o, b, x, n)[..n]
    decreases m - n
  {
    if n < m {
      ShufflePrefixStable(o, b, x, n, m - 1);
    }
  }

  ghost function Below(n: nat): (r: set<nat>)
    ensures |r| == n
    ensures forall v: nat :: v in r <==> v < n
  {
    if n == 0 then {} else Below(n - 1) + {n - 1}
  }

  /** An injection of the slots into the slots is onto. */
  lemma {:induction false} Pigeonhole(s: seq<nat>, n: nat, v: nat)
    requires |s| == n && Distinct(s) && v < n
    requires forall k :: 0 <= k < n ==> s[k] < n
    ensures exists k :: 0 <= k < n && s[k] == v
  {
    var image := set k | 0 <= k < n :: s[k];
    ImageSize(s, n);
    SubsetSize(image, Below(n));
    assert v in image;
  }

  lemma {:induction false} ImageSize(s: seq<nat>, n: nat)
    requires n <= |s| && Distinct(s)
    ensures |set k | 0 <= k < n :: s[k]| == n
  {
    if n > 0 {
      ImageSize(s, n - 1);
      var before := set k | 0 <= k < n - 1 :: s[k];
      assert (set k | 0 <= k < n :: s[k]) == before + {s[n - 1]};
      assert s[n - 1] !in before;
    }
  }

  /* ---- what a shuffle depends on ---- */

  ghost predicate IsPermutation(want: seq<nat>, n: nat) {
    |want| == n && Distinct(want) && forall k :: 0 <= k < n ==> want[k] < n
  }

  /** The position of a slot in a sequence. */
  function Where(s: seq<nat>, v: nat): (k: nat)
    ensures k <= |s| && (v in s ==> k < |s| && s[k] == v)
  {
    if s == [] || s[0] == v then 0 else 1 + Where(s[1..], v)
  }

  /** A shuffle steered towards `want`: step `p` fetches what belongs into slot `p`. */
  ghost function Steered(want: seq<nat>, n: nat): (s: seq<nat>)
    requires IsPermutation(want, |want|) && n <= |want|
    ensures IsPermutation(s, |want|) && s[..n] == want[..n]
  {
    if n == 0 then seq(|want|, i => i)
    else
      var p := n - 1;
      var s := Steered(want, p);
      var q := SteerTo(want, p, s);
      Swap(s, p, q)
  }

  /** Where it is: not among the slots already placed. */
  ghost function SteerTo(want: seq<nat>, p: nat, s: seq<nat>): (q: nat)
    requires IsPermutation(want, |want|) && p < |want| && IsPermutation(s, |want|) && s[..p] == want[..p]
    ensures p <= q < |want| && s[q] == want[p]
  {
    Pigeonhole(s, |want|, want[p]);
    var q := Where(s, want[p]);
    assert q < p ==> s[q] == s[..p][q] == want[..p][q] == want[q];
    q
  }

  ghost function SteerBy(want: seq<nat>, p: int): U32
    requires IsPermutation(want, |want|) && |want| <= 0x1_0000_0000
  {
    if 0 <= p < |want| then SteerTo(want, p, Steered(want, p)) - p else 0
  }

  lemma SteeredPartner(o: Oracle, b: Bucket, x: int, want: seq<nat>, p: nat)
    requires IsPermutation(want, |b.items|) && p < |b.items| <= 0x1_0000_0000
    requires o.h3(b.hash, x, b.id, p) == SteerBy(want, p)
    ensures Partner(o, b, x, p) == SteerTo(want, p, Steered(want, p))
  {
    hide Steered, SteerTo;
    var q := SteerTo(want, p, Steered(want, p));
    SmallRemainder(q - p, |b.items| - p);
  }

  lemma SmallRemainder(a: nat, n: nat)
    requires a < n
    ensures a % n == a
  {
  }

  lemma {:induction false} SteeredShuffle(o: Oracle, b: Bucket, x: int, want: seq<nat>, n: nat)
    requires IsPermutation(want, |b.items|) && n <= |b.items| <= 0x1_0000_0000
    requires forall p :: 0 <= p < |want| ==> o.h3(b.hash, x, b.id, p) == SteerBy(want, p)
    ensures Shuffle(o, b, x, n) == Steered(want, n)
  {
    hide SteerTo, SteerBy, Partner;
    if n > 0 {
      SteeredShuffle(o, b, x, want, n - 1);
      assert o.h3(b.hash, x, b.id, n - 1) == SteerBy(want, n - 1);
      SteeredPartner(o, b, x, want, n - 1);
    }
  }

  /** The shuffle depends on the hash kind, on `x` and on the bucket, and on each of them freely:
      whatever permutation is wanted for each of them, some hash gives it. */
  lemma EveryPermutation(n: nat, want: (int, int, int) -> seq<nat>) returns (o: Oracle)
    requires n <= 0x1_0000_0000 && forall hash, x, id :: IsPermutation(want(hash, x, id), n)
    ensures forall b: Bucket, x :: |b.items| == n ==> Shuffle(o, b, x, n) == want(b.hash, x, b.id)
  {
    hide SteerBy, Shuffle;
    o := Oracle((_, _) => 0, (hash, x, id, p) => SteerBy(want(hash, x, id), p), (_, _, _, _, _) => 0, _ => 0);
    forall b: Bucket, x | |b.items| == n ensures Shuffle(o, b, x, n) == want(b.hash, x, b.id) {
      var w := want(b.hash, x, b.id);
      SteeredShuffle(o, b, x, w, n);
      assert Steered(w, n)[..n] == w[..n];
      assert Steered(w, n) == Steered(w, n)[..n] && w == w[..n];
    }
  }

  /** `|items|` consecutive replica ranks, from any start, select every slot, and
      each of them once. */
  lemma {:induction false} PermVisitsEverySlotOnce(o: Oracle, b: Bucket, x: int, r0: nat, slot: nat)
    requires slot < |b.items|
    ensures exists r: nat :: r0 <= r < r0 + |b.items| && PermSlot(o, b, x, r) == slot
    ensures forall r, q: nat :: r0 <= r < q < r0 + |b.items| ==>
              PermSlot(o, b, x, r) != PermSlot(o, b, x, q)
  {
    var n := |b.items|;
    var s := Shuffle(o, b, x, n);
    ShuffleDistinct(o, b, x, n);
    Pigeonhole(s, n, slot);
    var k :| 0 <= k < n && s[k] == slot;
    var r := ConsecutiveHits(r0, n, k);
    assert PermSlot(o, b, x, r) == slot;
    forall r, q: nat | r0 <= r < q < r0 + n
      ensures PermSlot(o, b, x, r) != PermSlot(o, b, x, q)
    {
      ConsecutiveResiduesDiffer(r, q, n);
    }
  }

  lemma ConsecutiveHits(r0: nat, n: nat, k: nat) returns (r: nat)
    requires k < n
    ensures r0 <= r < r0 + n && r % n == k
  {
    var base := r0 - r0 % n;
    r := if r0 % n <= k then base + k else base + n + k;
    assert base == n * (r0 / n);
    assert r == n * (if r0 % n <= k then r0 / n else r0 / n + 1) + k;
    ModOfMultiple(if r0 % n <= k then r0 / n else r0 / n + 1, n, k);
  }

  lemma ModOfMultiple(q: nat, n: nat, k: nat)
    requires k < n
    ensures (n * q + k) % n == k
    ensures (n * q + k) / n == q
  {
    var a := n * q + k;
    var d := a / n - q;
    assert n * d == k - a % n;
    MultipleIsFar(n, d);
  }

  lemma ConsecutiveResiduesDiffer(r: nat, q: nat, n: nat)
    requires n > 0 && r < q < r + n
    ensures r % n != q % n
  {
    var d := q / n - r / n;
    assert q - r == n * d + q % n - r % n;
    MultipleIsFar(n, d);
  }

  /** `struct crush_work_bucket`: the permutation cache of one bucket.  The memory of
      `perm` is not initialised by `crush_init_workspace`. */
  class WorkBucket {
    var permX: U32
    var permN: nat
    const perm: array<nat>

    constructor (size: nat)
      ensures permX == 0 && permN == 0
      ensures perm.Length == size && fresh(perm)
    {
      permX, permN := 0, 0;
      perm := new nat[size];
    }

    /** What the cache may hold between calls, for a bucket `b`. */
    ghost predicate Valid(o: Oracle, b: Bucket)
      reads this, perm
    {
      && perm.Length == |b.items|
      && (permN != 0 && |b.items| > 0 ==> exists x: int :: CachedFor(x) && Holds(o, b, x))
    }

    /** The cached slots agree with the shuffle for `x`: only slot 0 after the shortcut,
        the first `permN` steps otherwise. */
    ghost predicate Holds(o: Oracle, b: Bucket, x: int)
      requires perm.Length == |b.items| > 0
      reads this, perm
    {
      if permN == MAGIC then perm[0] == Partner(o, b, x, 0)
      else permN <= |b.items| && perm[..] == Shuffle(o, b, x, permN)
    }

    /** `x` is the 32-bit input the cache was filled for. */
    ghost predicate CachedFor(x: int)
      reads this
    {
      IsInt32(x) && Wrap32(x) == permX
    }
  }

  predicate IsInt32(x: int) {
    -0x8000_0000 <= x < 0x8000_0000
  }

  lemma Wrap32Injective(x: int, y: int)
    requires IsInt32(x) && IsInt32(y) && Wrap32(x) == Wrap32(y)
    ensures x == y
  {
  }

  /** `bucket_perm_choose`.  Whatever calls filled the cache before, the answer is the
      one of the uncached shuffle. */
  method PermChoose(o: Oracle, b: Bucket, w: WorkBucket, x: int, r: nat) returns (item: int)
    requires |b.items| > 0 && IsInt32(x)
    requires w.Valid(o, b)
    modifies w, w.perm
    ensures w.Valid(o, b)
    ensures item == PermItem(o, b, x, r)
  {
    var pr := r % |b.items|;
    ShortcutIsFirstStep(o, b, x);
    if w.permX != Wrap32(x) || w.permN == 0 {
      w.permX := Wrap32(x);
      assert w.CachedFor(x);
      if pr == 0 {
        var s := Offset(o, b, x, 0);
        w.perm[0] := s;
        w.permN := MAGIC;
        assert w.Holds(o, b, x);
        return b.items[s];
      }
      FillIdentity(w, 0);
      w.permN := 0;
      assert w.perm[..] == Shuffle(o, b, x, 0);
    } else {
      CacheIsFor(o, b, w, x);
      if w.permN == MAGIC {
        CleanUp(o, b, w, x);
      }
    }
    Advance(o, b, w, x, pr);
    assert w.CachedFor(x);
    AdvancedCacheHolds(o, b, w, x);
    ShufflePrefixStable(o, b, x, w.permN, |b.items|);
    assert w.perm[pr] == w.perm[..][..w.permN][pr];
    item := b.items[w.perm[pr]];
  }

  lemma CacheIsFor(o: Oracle, b: Bucket, w: WorkBucket, x: int)
    requires |b.items| > 0 && w.Valid(o, b) && w.permN != 0 && w.CachedFor(x)
    ensures w.Holds(o, b, x)
  {
    var y: int :| w.CachedFor(y) && w.Holds(o, b, y);
    Wrap32Injective(x, y);
  }

  /** A count that reaches 0xffff by counting is read as the shortcut's mark later on;
      slot 0 is right in both cases. */
  lemma AdvancedCacheHolds(o: Oracle, b: Bucket, w: WorkBucket, x: int)
    requires w.perm.Length == |b.items| && 0 < w.permN <= |b.items|
    requires w.perm[..] == Shuffle(o, b, x, w.permN)
    ensures w.Holds(o, b, x)
  {
    ShufflePrefixStable(o, b, x, 1, w.permN);
    ShortcutIsFirstStep(o, b, x);
    assert w.perm[0] == w.perm[..][..1][0];
  }

  /** The branch that turns the shortcut's mark into a one-step shuffle. */
  method CleanUp(o: Oracle, b: Bucket, w: WorkBucket, x: int)
    requires w.perm.Length == |b.items| > 0
    requires w.perm[0] == Partner(o, b, x, 0)
    modifies w`permN, w.perm
    ensures w.permN == 1 && w.perm[..] == Shuffle(o, b, x, 1)
  {
    FillIdentity(w, 1);
    w.perm[w.perm[0]] := 0;
    w.permN := 1;
    assert Shuffle(o, b, x, 0) == seq(|b.items|, i => i);
  }

  lemma ShortcutIsFirstStep(o: Oracle, b: Bucket, x: int)
    requires |b.items| > 0
    ensures Partner(o, b, x, 0) == Offset(o, b, x, 0)
    ensures Shuffle(o, b, x, 1)[0] == Partner(o, b, x, 0)
    ensures Shuffle(o, b, x, |b.items|)[0] == Partner(o, b, x, 0)
  {
    assert Shuffle(o, b, x, 0) == seq(|b.items|, i => i);
    ShufflePrefixStable(o, b, x, 1, |b.items|);
    assert Shuffle(o, b, x, |b.items|)[..1][0] == Shuffle(o, b, x, 1)[..1][0];
  }

  /** The two initialisation loops: slot `i` gets `i` from slot `from` on. */
  method FillIdentity(w: WorkBucket, from: nat)
    requires from <= w.perm.Length
    modifies w.perm
    ensures forall k :: 0 <= k < from ==> w.perm[k] == old(w.perm[k])
    ensures forall k :: from <= k < w.perm.Length ==> w.perm[k] == k
  {
    for i := from to w.perm.Length
      invariant forall k :: 0 <= k < from ==> w.perm[k] == old(w.perm[k])
      invariant forall k :: from <= k < i ==> w.perm[k] == k
    {
      w.perm[i] := i;
    }
  }

  /** One round of the shuffle. */
  method AdvanceOne(o: Oracle, b: Bucket, w: WorkBucket, x: int)
    requires w.permN < |b.items| == w.perm.Length
    requires w.perm[..] == Shuffle(o, b, x, w.permN)
    modifies w`permN, w.perm
    ensures w.permN == old(w.permN) + 1
    ensures w.perm[..] == Shuffle(o, b, x, w.permN)
  {
    hide Shuffle;
    var p := w.permN;
    ghost var before := w.perm[..];
    if p < |b.items| - 1 {
      var i := Offset(o, b, x, p);
      if i != 0 {
        var t := w.perm[p + i];
        w.perm[p + i] := w.perm[p];
        w.perm[p] := t;
      }
    }
    assert w.perm[..] == Swap(before, p, Partner(o, b, x, p));
    ShuffleStep(o, b, x, p);
    w.permN := p + 1;
  }

  lemma ShuffleStep(o: Oracle, b: Bucket, x: int, p: nat)
    requires p < |b.items|
    ensures Shuffle(o, b, x, p + 1) == Swap(Shuffle(o, b, x, p), p, Partner(o, b, x, p))
  {
  }

  /** The loop that carries the cached permutation up to position `pr`. */
  method Advance(o: Oracle, b: Bucket, w: WorkBucket, x: int, pr: nat)
    requires pr < |b.items| == w.perm.Length
    requires w.permN <= |b.items|
    requires w.perm[..] == Shuffle(o, b, x, w.permN)
    modifies w`permN, w.perm
    ensures pr < w.permN <= |b.items|
    ensures w.perm[..] == Shuffle(o, b, x, w.permN)
  {
    hide Shuffle;
    while w.permN <= pr
      invariant w.permN <= |b.items|
      invariant w.perm[..] == Shuffle(o, b, x, w.permN)
      decreases pr + 1 - w.permN
    {
      AdvanceOne(o, b, w, x);
    }
  }
}
