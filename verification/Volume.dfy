/** A store as a flat byte sequence, and the same store seen block by block. */
module Volume {
  import opened Split

  type Byte = x: int | 0 <= x < 256

  /** A cached block's status; `Dirty` is PROMOTED_UNFLUSHED. */
  datatype Status = Unpromoted | Dirty | Flushed

  /** What a read delivered for one fragment. */
  datatype Reading = Reading(rid: nat, f: Fragment, bytes: seq<Byte>)

  /** The bytes `v[off..off + |d|]` replaced by `d`. */
  function Overwrite(v: seq<Byte>, off: nat, d: seq<Byte>): (w: seq<Byte>)
    requires off + |d| <= |v|
    ensures |w| == |v|
    ensures forall i :: 0 <= i < |v| ==> w[i] == if off <= i < off + |d| then d[i - off] else v[i]
  {
    v[..off] + d + v[off + |d|..]
  }

  ghost predicate HasBlock(v: seq<Byte>, b: int, bs: nat) {
    b >= 0 && bs * b + bs <= |v|
  }

  function Block(v: seq<Byte>, b: nat, bs: nat): (c: seq<Byte>)
    requires bs * b + bs <= |v|
    ensures |c| == bs
  {
    v[bs * b..bs * b + bs]
  }

  /** Different blocks do not overlap. */
  lemma BlocksApart(a: int, b: int, bs: nat)
    requires a < b
    ensures bs * a + bs <= bs * b
  {
    assert bs * b == bs * a + bs + bs * (b - a - 1);
    assert bs * (b - a - 1) >= 0;
  }

  lemma BlockInRange(n: nat, b: nat, bs: nat, v: seq<Byte>)
    requires |v| == bs * n && b < n
    ensures HasBlock(v, b, bs)
  {
    BlocksApart(b, n, bs);
  }

  /* ---- writes and slices, for any stretch of bytes ---- */

  /** The part of a write that falls into the `k` bytes from `base` on. */
  lemma WriteAcross(v: seq<Byte>, base: nat, k: nat, off: nat, d: seq<Byte>, at: nat, from: nat, size: nat)
    requires base + k <= |v| && off + |d| <= |v| && at + size <= k && from + size <= |d|
    requires base + at == off + from && (from == 0 || at == 0) && (from + size == |d| || at + size == k)
    ensures Overwrite(v, off, d)[base..base + k] == Overwrite(v[base..base + k], at, d[from..from + size])
  {
  }

  lemma WriteElsewhere(v: seq<Byte>, base: nat, k: nat, off: nat, d: seq<Byte>)
    requires base + k <= |v| && off + |d| <= |v| && (base + k <= off || off + |d| <= base)
    ensures Overwrite(v, off, d)[base..base + k] == v[base..base + k]
  {
  }

  lemma WriteAround(v: seq<Byte>, base: nat, k: nat, off: nat, d: seq<Byte>)
    requires off + |d| <= |v| && off <= base && base + k <= off + |d|
    ensures Overwrite(v, off, d)[base..base + k] == d[base - off..base - off + k]
  {
  }

  lemma SliceOfSlice(v: seq<Byte>, base: nat, k: nat, from: nat, size: nat)
    requires base + k <= |v| && from + size <= k
    ensures v[base..base + k][from..from + size] == v[base + from..base + from + size]
  {
    var a, c := v[base..base + k][from..from + size], v[base + from..base + from + size];
    forall i | 0 <= i < size ensures a[i] == c[i] {
      assert v[base..base + k][from + i] == v[base + (from + i)];
    }
  }

  /** The bytes of one of several blocks laid end to end. */
  lemma SliceOfRun(k: nat, i: nat, bs: nat)
    requires i < k
    ensures bs * i + bs <= bs * k
  {
    BlocksApart(i, k, bs);
  }

  /** A write of `k` whole blocks from block `s` on replaces just those blocks. */
  lemma WriteRunOfBlocks(v: seq<Byte>, s: nat, k: nat, bs: nat, d: seq<Byte>, c: nat)
    requires |d| == bs * k && bs * s + bs * k <= |v| && HasBlock(v, c, bs)
    ensures s <= c < s + k ==> HasBlock(d, c - s, bs)
    ensures Block(Overwrite(v, bs * s, d), c, bs) ==
            if s <= c < s + k then Block(d, c - s, bs) else Block(v, c, bs)
  {
    hide Overwrite;
    var base, off := bs * c, bs * s;
    if c < s {
      BlocksApart(c, s, bs);
      WriteElsewhere(v, base, bs, off, d);
    } else if s + k <= c {
      RunEnds(s, k, c, bs);
      WriteElsewhere(v, base, bs, off, d);
    } else {
      RunHolds(s, k, c, bs);
      WriteAround(v, base, bs, off, d);
    }
  }

  lemma RunEnds(s: nat, k: nat, c: nat, bs: nat)
    requires s + k <= c
    ensures bs * s + bs * k <= bs * c
  {
    assert bs * c == bs * s + bs * k + bs * (c - s - k);
  }

  lemma RunHolds(s: nat, k: nat, c: nat, bs: nat)
    requires s <= c < s + k
    ensures bs * (c - s) == bs * c - bs * s && bs * (c - s) + bs <= bs * k && bs * s <= bs * c
  {
    SliceOfRun(k, c - s, bs);
    assert bs * (c - s) == bs * c - bs * s;
  }

  lemma Locate(i: nat, bs: nat) returns (b: nat, r: nat)
    requires bs > 0
    ensures i == bs * b + r && r < bs
  {
    b, r := i / bs, i % bs;
  }

  lemma SameByte(v: seq<Byte>, w: seq<Byte>, b: nat, r: nat, bs: nat)
    requires HasBlock(v, b, bs) && HasBlock(w, b, bs) && r < bs && Block(v, b, bs) == Block(w, b, bs)
    ensures v[bs * b + r] == w[bs * b + r]
  {
    assert Block(v, b, bs)[r] == Block(w, b, bs)[r];
  }

  /** Every block of the store is the same. */
  ghost predicate SameBlocks(v: seq<Byte>, w: seq<Byte>, n: nat, bs: nat) {
    forall b :: 0 <= b < n ==> HasBlock(v, b, bs) && HasBlock(w, b, bs) && Block(v, b, bs) == Block(w, b, bs)
  }

  /** A store is determined by its blocks. */
  lemma EqualByBlocks(v: seq<Byte>, w: seq<Byte>, n: nat, bs: nat)
    requires bs > 0 && |v| == |w| == bs * n && SameBlocks(v, w, n, bs)
    ensures v == w
  {
    forall i | 0 <= i < |v| ensures v[i] == w[i] {
      var b, r := Locate(i, bs);
      BlockInVolume(b, r, bs, n);
      SameByte(v, w, b, r, bs);
    }
  }

  /* ---- a request's buffer ---- */

  /** The buffer holds a reading's bytes at the fragment's place. */
  ghost predicate HoldsAt(buffer: seq<Byte>, x: Reading) {
    x.f.data + x.f.size <= |buffer| && buffer[x.f.data..x.f.data + x.f.size] == x.bytes
  }

  /** The buffer's part for fragment `f` of a request at `offset` is that of the store. */
  ghost predicate Delivered(offset: nat, w: seq<Byte>, buffer: seq<Byte>, f: Fragment) {
    && f.data + f.size <= |buffer| && offset + f.data + f.size <= |w|
    && buffer[f.data..f.data + f.size] == w[offset + f.data..offset + f.data + f.size]
  }

  /** Every byte of a range is in one of its fragments. */
  lemma {:induction false} Covering(offset: nat, left: nat, data: nat, bs: nat, i: nat) returns (k: nat)
    requires bs > 0 && data <= i < data + left
    ensures k < |Fragments(offset, left, data, bs)|
    ensures var f := Fragments(offset, left, data, bs)[k]; f.data <= i < f.data + f.size
    decreases left
  {
    hide First;
    var f := First(offset, left, data, bs);
    if i < data + f.size {
      k := 0;
    } else {
      var m := Covering(offset + f.size, left - f.size, data + f.size, bs, i);
      k := m + 1;
    }
  }

  /** A buffer filled fragment by fragment holds the range. */
  lemma Assembled(offset: nat, length: nat, w: seq<Byte>, buffer: seq<Byte>, bs: nat)
    requires bs > 0 && offset + length <= |w| && |buffer| == length
    requires var fs := Fragments(offset, length, 0, bs);
             forall i :: 0 <= i < |fs| ==> Delivered(offset, w, buffer, fs[i])
    ensures buffer == w[offset..offset + length]
  {
    forall i | 0 <= i < length ensures buffer[i] == w[offset + i] {
      var k := Covering(offset, length, 0, bs, i);
      var f := Fragments(offset, length, 0, bs)[k];
      assert Delivered(offset, w, buffer, f);
      assert buffer[f.data..f.data + f.size][i - f.data] == w[offset + f.data..offset + f.data + f.size][i - f.data];
    }
  }
}
