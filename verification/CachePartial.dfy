/** Requests of part of a block in the cache policy, and writes in its read-only mode: what
    their chains leave behind, and which of them are right. */
module CachePartial {
  import opened Split
  import opened Volume
  import opened CacheChain

  /** The entry's contents, the backend copy, the block buffer, and one block of memory from the
      fragment's place in the request's buffer on. */
  datatype Scratch = Scratch(cache: seq<Byte>, back: seq<Byte>, buf: seq<Byte>, mem: seq<Byte>)

  ghost predicate Proper(c: Config, f: Fragment, s: Scratch) {
    f.offset + f.size <= c.bs == |c.hole| == |s.cache| == |s.back| == |s.buf| == |s.mem|
  }

  /** An operation; those on whole blocks read and write a whole block of memory. */
  function Do(c: Config, f: Fragment, op: Op, s: Scratch): (n: Scratch)
    requires Proper(c, f, s)
    ensures Proper(c, f, n)
  {
    match op
    case ReadBlockFromCache(_) => s.(mem := s.cache)
    case PromoteFromBackend => s.(buf := s.back[f.offset..f.offset + f.size] + s.buf[f.size..])
    case WriteToBuffer => s.(buf := Overwrite(s.buf, f.offset, s.mem[..f.size]))
    case WriteBlockToCache(fromRequest) => s.(cache := if fromRequest then s.mem else s.buf)
    case WriteToBackend => s.(back := Overwrite(s.back, f.offset, s.mem[..f.size]))
    case DiscardBlockToBackend => s.(back := c.hole)
    case DemoteBlockToCache => s.(cache := c.hole)
    case _ => s
  }

  function DoAll(c: Config, f: Fragment, ops: seq<Op>, s: Scratch): (n: Scratch)
    requires Proper(c, f, s)
    ensures Proper(c, f, n)
  {
    if ops == [] then s else DoAll(c, f, ops[1..], Do(c, f, ops[0], s))
  }

  lemma DoFirst(c: Config, f: Fragment, ops: seq<Op>, i: nat, s: Scratch) returns (n: Scratch)
    requires Proper(c, f, s) && i < |ops|
    ensures n == Do(c, f, ops[i], s) && Proper(c, f, n) && DoAll(c, f, ops[i..], s) == DoAll(c, f, ops[i + 1..], n)
  {
    hide Do;
    n := Do(c, f, ops[i], s);
    assert ops[i..][1..] == ops[i + 1..];
  }

  /** The block is in the cache when the chain is built. */
  predicate Cached(p: Plan) {
    p.entry.At? && !p.miss
  }

  /** The bytes the block stands for. */
  function Stands(cached: bool, s: Scratch): seq<Byte> {
    if cached then s.cache else s.back
  }

  /* ---- writes ---- */

  /** The plan that `map` makes for a write. */
  ghost predicate ForWrite(c: Config, p: Plan) {
    && p.ask.io == Write && p.ask.f.offset + p.ask.f.size <= c.bs == |c.hole|
    && if c.readOnly then !p.miss else p.entry.At?
  }

  /** What the block stands for after the chain; the read-only mode leaves the cache alone. */
  function Left(c: Config, p: Plan, s: Scratch): seq<Byte>
    requires Proper(c, p.ask.f, s)
  {
    Stands(if c.readOnly then Cached(p) else true, DoAll(c, p.ask.f, Compile(c, p), s))
  }

  /** It should be the block with the request's bytes laid over it. */
  function Wanted(c: Config, p: Plan, s: Scratch): seq<Byte>
    requires Proper(c, p.ask.f, s)
  {
    Overwrite(Stands(Cached(p), s), p.ask.f.offset, s.mem[..p.ask.f.size])
  }

  function Tail(c: Config): seq<Op> {
    (if c.writeThrough then [WriteToBackend, UpdateCacheMeta(Flushed)] else [UpdateCacheMeta(Dirty)])
    + [UpdateLRU, BlockRequestComplete]
  }

  lemma {:induction false} DoNone(c: Config, f: Fragment, ops: seq<Op>, s: Scratch)
    requires Proper(c, f, s)
    requires forall i :: 0 <= i < |ops| ==>
               ops[i].UpdateCacheMeta? || ops[i] == UpdateLRU || ops[i] == BlockRequestComplete
    ensures DoAll(c, f, ops, s) == s
  {
    if ops != [] {
      DoNone(c, f, ops[1..], s);
    }
  }

  lemma DoTail(c: Config, f: Fragment, s: Scratch)
    requires Proper(c, f, s)
    ensures DoAll(c, f, Tail(c), s) ==
            if c.writeThrough then s.(back := Overwrite(s.back, f.offset, s.mem[..f.size])) else s
  {
    hide Overwrite;
    DoNone(c, f, Tail(c)[1..], Do(c, f, Tail(c)[0], s));
  }

  lemma FourThenTail(c: Config, f: Fragment, ops: seq<Op>, s: Scratch)
    requires Proper(c, f, s) && |ops| >= 4 && ops[4..] == Tail(c)
    ensures DoAll(c, f, ops, s) ==
            var n := Do(c, f, ops[3], Do(c, f, ops[2], Do(c, f, ops[1], Do(c, f, ops[0], s))));
            if c.writeThrough then n.(back := Overwrite(n.back, f.offset, n.mem[..f.size])) else n
  {
    hide Do, DoAll, Tail, Overwrite;
    var s1 := DoFirst(c, f, ops, 0, s);
    var s2 := DoFirst(c, f, ops, 1, s1);
    var s3 := DoFirst(c, f, ops, 2, s2);
    var s4 := DoFirst(c, f, ops, 3, s3);
    assert ops[0..] == ops;
    DoTail(c, f, s4);
  }

  /** On a cached block a partial write copies the head of the cached block over fresh memory,
      and the whole of it over the request's buffer, past the end of the fragment. */
  lemma PartialHit(c: Config, p: Plan, s: Scratch)
    requires p.ask.io == Write && Proper(c, p.ask.f, s) && p.ask.f.size < c.bs && !p.miss && !c.readOnly
    ensures var f, n := p.ask.f, DoAll(c, p.ask.f, Compile(c, p), s);
            && n.cache == Overwrite(s.buf, f.offset, s.cache[..f.size]) && n.mem == s.cache
            && n.back == if c.writeThrough then Overwrite(s.back, f.offset, s.cache[..f.size]) else s.back
  {
    hide Overwrite;
    var ops := Compile(c, p);
    assert ops == [ReadBlockFromCache(true), WriteToBuffer, WriteBlockToCache(false), DemoteBlockBuffer] + Tail(c);
    FourThenTail(c, p.ask.f, ops, s);
  }

  /** On a block not in the cache it lays the request's bytes over fresh memory whose head is
      the backend's part of the range. */
  lemma PartialMiss(c: Config, p: Plan, s: Scratch)
    requires p.ask.io == Write && Proper(c, p.ask.f, s) && p.ask.f.size < c.bs && p.miss && !c.readOnly
    ensures var f, n := p.ask.f, DoAll(c, p.ask.f, Compile(c, p), s);
            && n.cache == Overwrite(s.back[f.offset..f.offset + f.size] + s.buf[f.size..], f.offset, s.mem[..f.size])
            && n.back == (if c.writeThrough then Overwrite(s.back, f.offset, s.mem[..f.size]) else s.back)
            && n.mem == s.mem
  {
    hide Overwrite;
    var ops := Compile(c, p);
    assert ops == [PromoteFromBackend, WriteToBuffer, WriteBlockToCache(false), DemoteBlockBuffer] + Tail(c);
    FourThenTail(c, p.ask.f, ops, s);
  }

  /** A whole-block write leaves its bytes. */
  lemma WholeWrite(c: Config, p: Plan, s: Scratch)
    requires ForWrite(c, p) && Proper(c, p.ask.f, s) && p.ask.f.size == c.bs && !c.readOnly
    ensures Left(c, p, s) == s.mem == Wanted(c, p, s)
  {
    hide Do;
    var ops := Compile(c, p);
    assert ops == [WriteBlockToCache(true)] + Tail(c);
    assert ops[0..] == ops && ops[1..] == Tail(c) && s.mem[..c.bs] == s.mem;
    var n := DoFirst(c, p.ask.f, ops, 0, s);
    assert n == s.(cache := s.mem) by {
      DoWriteBlock(c, p.ask.f, s);
    }
    DoTail(c, p.ask.f, n);
    assert Overwrite(Stands(Cached(p), s), 0, s.mem) == s.mem;
  }

  lemma DoWriteBlock(c: Config, f: Fragment, s: Scratch)
    requires Proper(c, f, s)
    ensures Do(c, f, WriteBlockToCache(true), s) == s.(cache := s.mem)
  {
  }

  /** Where the chain of a partial write goes wrong for certain memory contents. */
  lemma PartialIsWrong(c: Config, p: Plan) returns (s: Scratch)
    requires ForWrite(c, p) && p.ask.f.size < c.bs && !c.readOnly
    ensures Proper(c, p.ask.f, s) && Left(c, p, s) != Wanted(c, p, s)
  {
    hide Compile, DoAll;
    var f := p.ask.f;
    var at := if f.offset > 0 then 0 else f.size;
    var zeros: seq<Byte> := seq(c.bs, _ => 0);
    var block: seq<Byte> := zeros[at := 1];
    s := Scratch(block, block, zeros, zeros);
    assert Wanted(c, p, s)[at] == 1;
    if p.miss {
      PartialMiss(c, p, s);
      var buf := block[f.offset..f.offset + f.size] + zeros[f.size..];
      assert buf[at] == 0 by {
        assert at < f.size ==> buf[at] == block[f.offset + at];
        assert at >= f.size ==> buf[at] == zeros[at];
      }
      assert Overwrite(buf, f.offset, zeros[..f.size])[at] == 0;
    } else {
      PartialHit(c, p, s);
      assert Overwrite(zeros, f.offset, block[..f.size])[at] == 0;
    }
  }

  /** In the read-only mode a write reaches the backend only. */
  lemma ReadOnlyWrite(c: Config, p: Plan, s: Scratch)
    requires p.ask.io == Write && Proper(c, p.ask.f, s) && c.readOnly
    ensures DoAll(c, p.ask.f, Compile(c, p), s) ==
            s.(back := Overwrite(s.back, p.ask.f.offset, s.mem[..p.ask.f.size]))
  {
    hide Overwrite;
    var ops := Compile(c, p);
    assert ops == [WriteToBackend, BlockRequestComplete] && ops[0..] == ops && ops[1..] == [BlockRequestComplete];
    var n := DoFirst(c, p.ask.f, ops, 0, s);
    DoNone(c, p.ask.f, ops[1..], n);
  }

  /** So the old bytes stay in the cache. */
  lemma ReadOnlyIsWrong(c: Config, p: Plan) returns (s: Scratch)
    requires ForWrite(c, p) && c.readOnly && p.entry.At? && p.ask.f.size > 0
    ensures Proper(c, p.ask.f, s) && Left(c, p, s) != Wanted(c, p, s)
  {
    hide Compile, DoAll;
    var zeros: seq<Byte> := seq(c.bs, _ => 0);
    s := Scratch(zeros, zeros, zeros, seq(c.bs, _ => 1));
    ReadOnlyWrite(c, p, s);
    assert Wanted(c, p, s)[p.ask.f.offset] == 1;
    assert Left(c, p, s)[p.ask.f.offset] == 0;
  }

  lemma ReadOnlyIsRight(c: Config, p: Plan, s: Scratch)
    requires ForWrite(c, p) && Proper(c, p.ask.f, s) && c.readOnly && (p.entry.Null? || p.ask.f.size == 0)
    ensures Left(c, p, s) == Wanted(c, p, s)
  {
    hide Compile, DoAll;
    ReadOnlyWrite(c, p, s);
    if p.entry.At? {
      assert Overwrite(s.cache, p.ask.f.offset, []) == s.cache;
    }
  }

  /** A write's chain leaves the block right, whatever cache, backend and fresh memory hold, if
      and only if it covers the whole block, or in the read-only mode if and only if the block
      is not in the cache. */
  lemma WriteIsRightIff(c: Config, p: Plan)
    requires ForWrite(c, p)
    ensures (forall s :: Proper(c, p.ask.f, s) ==> Left(c, p, s) == Wanted(c, p, s))
            <==> if c.readOnly then p.entry.Null? || p.ask.f.size == 0 else p.ask.f.size == c.bs
  {
    hide Left, Wanted, Proper;
    if c.readOnly {
      if p.entry.At? && p.ask.f.size > 0 {
        var s := ReadOnlyIsWrong(c, p);
      } else {
        forall s | Proper(c, p.ask.f, s) ensures Left(c, p, s) == Wanted(c, p, s) {
          ReadOnlyIsRight(c, p, s);
        }
      }
    } else if p.ask.f.size < c.bs {
      var s := PartialIsWrong(c, p);
    } else {
      forall s | Proper(c, p.ask.f, s) ensures Left(c, p, s) == Wanted(c, p, s) {
        WholeWrite(c, p, s);
      }
    }
  }

  /* ---- discards ---- */

  lemma {:induction false} BackStays(c: Config, f: Fragment, ops: seq<Op>, s: Scratch)
    requires Proper(c, f, s)
    requires forall i :: 0 <= i < |ops| ==> ops[i] != WriteToBackend && ops[i] != DiscardBlockToBackend
    ensures DoAll(c, f, ops, s).back == s.back
  {
    if ops != [] {
      BackStays(c, f, ops[1..], Do(c, f, ops[0], s));
    }
  }

  lemma DiscardOps(c: Config, p: Plan)
    requires p.ask.io == Discard
    ensures var ops := Compile(c, p);
            && |ops| >= 1 && ops[0] == DiscardBlockToBackend
            && forall i :: 0 <= i < |ops[1..]| ==> ops[1..][i] != WriteToBackend && ops[1..][i] != DiscardBlockToBackend
  {
  }

  /** A discard leaves a hole of a whole block. */
  lemma DiscardErases(c: Config, p: Plan, s: Scratch)
    requires p.ask.io == Discard && Proper(c, p.ask.f, s)
    ensures DoAll(c, p.ask.f, Compile(c, p), s).back == c.hole
  {
    hide Compile, DoAll;
    var ops := Compile(c, p);
    DiscardOps(c, p);
    assert ops[0..] == ops;
    var n := DoFirst(c, p.ask.f, ops, 0, s);
    BackStays(c, p.ask.f, ops[1..], n);
  }

  /** The bytes outside the fragment are what they were; the block has no entry any more. */
  ghost predicate RestSurvives(c: Config, p: Plan, s: Scratch)
    requires Proper(c, p.ask.f, s)
  {
    forall i :: 0 <= i < c.bs && !(p.ask.f.offset <= i < p.ask.f.offset + p.ask.f.size) ==>
      DoAll(c, p.ask.f, Compile(c, p), s).back[i] == Stands(p.entry.At?, s)[i]
  }

  lemma PartialDiscardErases(c: Config, p: Plan) returns (s: Scratch)
    requires p.ask.io == Discard && p.ask.f.offset + p.ask.f.size <= c.bs == |c.hole| && p.ask.f.size < c.bs
    ensures Proper(c, p.ask.f, s) && !RestSurvives(c, p, s)
  {
    hide Compile, DoAll;
    var at := if p.ask.f.offset > 0 then 0 else p.ask.f.size;
    var block: seq<Byte> := seq(c.bs, _ => if c.hole[at] == 0 then 1 else 0);
    s := Scratch(block, block, block, block);
    DiscardErases(c, p, s);
    assert Stands(p.entry.At?, s)[at] != c.hole[at];
  }

  /** A discard spares the bytes outside its fragment, whatever they are, if and only if it
      covers the whole block. */
  lemma DiscardIsRightIff(c: Config, p: Plan)
    requires p.ask.io == Discard && p.ask.f.offset + p.ask.f.size <= c.bs == |c.hole|
    ensures (forall s :: Proper(c, p.ask.f, s) ==> RestSurvives(c, p, s)) <==> p.ask.f.size == c.bs
  {
    if p.ask.f.size < c.bs {
      var s := PartialDiscardErases(c, p);
    }
  }
}
