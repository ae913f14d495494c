/** `BlockGuard::create_block_requests`: a byte range becomes block fragments; and the
    request counter that waits for all of them. */
module Split {
  import opened Basics

  /** A piece of a request inside one block; `data` is its position in the request's buffer. */
  datatype Fragment = Fragment(block: nat, offset: nat, size: nat, data: nat)

  /** The fragment at the front of a range. */
  function First(offset: nat, left: nat, data: nat, bs: nat): (f: Fragment)
    requires bs > 0 && left > 0
    ensures 0 < f.size <= left && f.offset + f.size <= bs && f.data == data
    ensures f.block == offset / bs && bs * f.block + f.offset == offset
    ensures f.size < left ==> f.offset + f.size == bs
  {
    var inBlock := offset % bs;
    Fragment(offset / bs, inBlock, if bs - inBlock < left then bs - inBlock else left, data)
  }

  /** The fragments of the `left` bytes from `offset`, the first taken at `data`. */
  function Fragments(offset: nat, left: nat, data: nat, bs: nat): seq<Fragment>
    requires bs > 0
    decreases left
  {
    if left == 0 then []
    else
      var f := First(offset, left, data, bs);
      [f] + Fragments(offset + f.size, left - f.size, data + f.size, bs)
  }

  /** The count that the code computes up front. */
  function SharedCount(offset: nat, length: nat, bs: nat): nat
    requires bs > 0
  {
    var tmp := length + offset % bs;
    (if tmp % bs == 0 then 0 else 1) + tmp / bs
  }

  /** Consecutive pieces that cover `left` bytes of the volume from `offset`, each inside
      one block and not empty. */
  ghost predicate Partition(fs: seq<Fragment>, offset: nat, left: nat, data: nat, bs: nat)
    requires bs > 0
    decreases |fs|
  {
    if fs == [] then left == 0
    else
      var f := fs[0];
      && 0 < f.size <= left && f.offset + f.size <= bs
      && bs * f.block + f.offset == offset && f.data == data
      && (f.size < left ==> f.offset + f.size == bs)
      && Partition(fs[1..], offset + f.size, left - f.size, data + f.size, bs)
  }

  lemma {:induction false} FragmentsPartition(offset: nat, left: nat, data: nat, bs: nat)
    requires bs > 0
    ensures Partition(Fragments(offset, left, data, bs), offset, left, data, bs)
    decreases left
  {
    hide First;
    if left > 0 {
      var f := First(offset, left, data, bs);
      FragmentsPartition(offset + f.size, left - f.size, data + f.size, bs);
      assert Fragments(offset, left, data, bs)[1..] == Fragments(offset + f.size, left - f.size, data + f.size, bs);
    }
  }

  lemma DivOfMultiple(q: int, bs: int, k: int)
    requires bs > 0 && 0 <= k < bs
    ensures (bs * q + k) / bs == q && (bs * q + k) % bs == k
  {
    var a := bs * q + k;
    var d := a / bs - q;
    assert bs * d == k - a % bs;
    FarMultiple(bs, d);
  }

  lemma FarMultiple(n: int, d: int)
    requires n > 0
    ensures d >= 1 ==> n * d >= n
    ensures d <= -1 ==> n * d <= -n
    ensures d == 0 ==> n * d == 0
  {
  }

  lemma {:induction false} NextBlock(offset: nat, bs: nat)
    requires bs > 0
    ensures var next := offset + (bs - offset % bs);
            next % bs == 0 && next / bs == offset / bs + 1
  {
    var q := offset / bs;
    assert offset + (bs - offset % bs) == bs * (q + 1) + 0;
    DivOfMultiple(q + 1, bs, 0);
  }

  lemma BlockAfter(block: nat, bs: nat)
    requires bs > 0
    ensures (bs * (block + 1)) / bs == block + 1 && bs * (block + 1) == bs * block + bs
    ensures (bs * (block + 1)) % bs == 0
  {
    DivOfMultiple(block + 1, bs, 0);
  }

  lemma RoundUp(tmp: nat, bs: nat)
    requires bs > 0 && tmp >= bs
    ensures (tmp - bs) % bs == tmp % bs && (tmp - bs) / bs == tmp / bs - 1
  {
    assert tmp - bs == bs * (tmp / bs - 1) + tmp % bs;
    DivOfMultiple(tmp / bs - 1, bs, tmp % bs);
  }

  /** The number of fragments of a non-empty range is the count computed up front. */
  lemma {:induction false} CountIsShared(offset: nat, left: nat, data: nat, bs: nat)
    requires bs > 0 && left > 0
    ensures |Fragments(offset, left, data, bs)| == SharedCount(offset, left, bs)
    decreases left
  {
    var inBlock := offset % bs;
    var f := First(offset, left, data, bs);
    var tmp := left + inBlock;
    if f.size < left {
      NextBlock(offset, bs);
      CountIsShared(offset + f.size, left - f.size, data + f.size, bs);
      RoundUp(tmp, bs);
    } else {
      assert tmp <= bs;
      assert Fragments(offset + f.size, 0, data + f.size, bs) == [];
      if tmp == bs {
        DivOfMultiple(1, bs, 0);
      } else {
        DivOfMultiple(0, bs, tmp);
      }
    }
  }

  /** Over all lengths: the two counts agree unless an empty range starts inside a block. */
  lemma CountsAgreeIff(offset: nat, length: nat, bs: nat)
    requires bs > 0
    ensures |Fragments(offset, length, 0, bs)| == SharedCount(offset, length, bs) <==>
            (length > 0 || offset % bs == 0)
  {
    if length > 0 {
      CountIsShared(offset, length, 0, bs);
    } else if offset % bs == 0 {
      DivOfMultiple(0, bs, 0);
    } else {
      DivOfMultiple(0, bs, offset % bs);
    }
  }

  /** Blocks of successive fragments are successive, and only the ends may be partial. */
  lemma {:induction false} FragmentAt(offset: nat, left: nat, data: nat, bs: nat, i: nat)
    requires bs > 0 && i < |Fragments(offset, left, data, bs)|
    ensures var f := Fragments(offset, left, data, bs)[i];
            && f.block == offset / bs + i
            && 0 < f.size && f.offset + f.size <= bs
            && bs * f.block + f.offset == offset + (f.data - data) && f.data >= data
            && f.data - data + f.size <= left
            && (if i == 0 then f.data == data else f.offset == 0)
            && (i + 1 == |Fragments(offset, left, data, bs)| ==> f.data - data + f.size == left)
            && (i + 1 < |Fragments(offset, left, data, bs)| ==> f.offset + f.size == bs)
    decreases left
  {
    hide First;
    var f := First(offset, left, data, bs);
    if i > 0 {
      BlockAfter(f.block, bs);
      assert f.size < left ==> offset + f.size == bs * (f.block + 1);
      FragmentAt(offset + f.size, left - f.size, data + f.size, bs, i - 1);
    }
  }

  method NextFragment(offset: nat, left: nat, data: nat, bs: nat) returns (f: Fragment)
    requires bs > 0 && left > 0
    ensures f == First(offset, left, data, bs)
  {
    var inBlock := offset % bs;
    var size := if bs - inBlock < left then bs - inBlock else left;
    f := Fragment(offset / bs, inBlock, size, data);
  }

  /** The first fragment and those of the rest. */
  lemma NextFragments(offset: nat, left: nat, data: nat, bs: nat)
    requires bs > 0 && left > 0
    ensures var f := First(offset, left, data, bs);
            && 0 < f.size <= left
            && Fragments(offset, left, data, bs) == [f] + Fragments(offset + f.size, left - f.size, data + f.size, bs)
  {
  }

  /** The count before the loop. */
  method CountBlocks(reqOffset: nat, length: nat, bs: nat) returns (sharedCount: nat)
    requires bs > 0
    ensures sharedCount == SharedCount(reqOffset, length, bs)
  {
    var tmpLength := length + reqOffset % bs;
    sharedCount := if tmpLength % bs == 0 then 0 else 1;
    sharedCount := sharedCount + tmpLength / bs;
  }

  /** The loop of `create_block_requests`. */
  method CreateBlockRequests(reqOffset: nat, length: nat, bs: nat, ghost blockCount: nat)
    returns (frags: seq<Fragment>, sharedCount: nat)
    requires bs > 0 && reqOffset + length <= bs * blockCount
    ensures frags == Fragments(reqOffset, length, 0, bs)
    ensures sharedCount == SharedCount(reqOffset, length, bs)
    ensures forall i :: 0 <= i < |frags| ==> frags[i].block < blockCount
  {
    hide First, Fragments, SharedCount;
    FragmentsInVolume(reqOffset, length, bs, blockCount);
    sharedCount := CountBlocks(reqOffset, length, bs);
    var offset, left, data := reqOffset, length, 0;
    frags := [];
    while left > 0
      invariant 0 <= left && 0 <= data && offset + left == reqOffset + length
      invariant frags + Fragments(offset, left, data, bs) == Fragments(reqOffset, length, 0, bs)
      decreases left
    {
      NextFragments(offset, left, data, bs);
      var f := NextFragment(offset, left, data, bs);
      frags := frags + [f];
      data, left, offset := data + f.size, left - f.size, offset + f.size;
    }
    NoFragments(offset, data, bs);
  }

  lemma NoFragments(offset: nat, data: nat, bs: nat)
    requires bs > 0
    ensures Fragments(offset, 0, data, bs) == []
  {
  }

  lemma FragmentsInVolume(offset: nat, length: nat, bs: nat, blockCount: nat)
    requires bs > 0 && offset + length <= bs * blockCount
    ensures var fs := Fragments(offset, length, 0, bs); forall i :: 0 <= i < |fs| ==> fs[i].block < blockCount
  {
    var fs := Fragments(offset, length, 0, bs);
    forall i | 0 <= i < |fs| ensures fs[i].block < blockCount {
      FragmentAt(offset, length, 0, bs, i);
      BlockInVolume(fs[i].block, fs[i].offset, bs, blockCount);
    }
  }

  lemma BlockInVolume(block: nat, offset: nat, bs: nat, blockCount: nat)
    requires bs > 0 && bs * block + offset < bs * blockCount
    ensures block < blockCount
  {
    assert bs * block == bs * blockCount + bs * (block - blockCount);
    FarMultiple(bs, block - blockCount);
  }

  /* ---- the fan-in counter of Request.h ---- */

  /** `pending` is 32 bits wide; `fired` lists the statuses passed to the completion. */
  datatype Counter = Counter(pending: nat, status: int, fired: seq<int>)

  function Total(rs: seq<int>): int {
    if rs == [] then 0 else Total(rs[..|rs| - 1]) + rs[|rs| - 1]
  }

  function Completed(c: Counter, r: int): Counter {
    var pending := (c.pending + TWO32 - 1) % TWO32;
    var status := c.status + r;
    Counter(pending, status, if pending == 0 then c.fired + [status] else c.fired)
  }

  function CompletedAll(c: Counter, rs: seq<int>): Counter {
    if rs == [] then c else Completed(CompletedAll(c, rs[..|rs| - 1]), rs[|rs| - 1])
  }

  /** Of a request with `n` fragments, no proper part of the completions fires the callback,
      and all of them, in whatever order, fire it once, with the sum of the results. */
  lemma {:induction false} FiresOnceAfterLast(n: nat, rs: seq<int>)
    requires 0 < n < TWO32 && |rs| <= n
    ensures var c := CompletedAll(Counter(n, 0, []), rs);
            && c.pending == n - |rs| && c.status == Total(rs)
            && c.fired == if |rs| == n then [Total(rs)] else []
  {
    if rs != [] {
      FiresOnceAfterLast(n, rs[..|rs| - 1]);
    }
  }

  class Request {
    var pending: nat
    var status: int
    ghost var fired: seq<int>

    ghost function Value(): Counter
      reads this
    {
      Counter(pending, status, fired)
    }

    constructor ()
      ensures Value() == Counter(0, 0, [])
    {
      pending, status, fired := 0, 0, [];
    }

    /** One call per fragment, made while the fragments are created: one completion more is
        awaited. */
    method AddRequest()
      modifies this
      ensures Value() == old(Value()).(pending := pending)
      ensures old(pending) < TWO32 ==> pending < TWO32 && forall r :: Completed(Value(), r).pending == old(pending)
    {
      pending := (pending + 1) % TWO32;
    }

    method Complete(r: int)
      modifies this
      ensures Value() == Completed(old(Value()), r)
    {
      pending := (pending + TWO32 - 1) % TWO32;
      status := status + r;
      if pending == 0 {
        fired := fired + [status];
      }
    }
  }

  /** A request's life: one `add_request` per fragment, then one `complete` per fragment, in any
      order of results.  The completion is called once, at the end, with the sum. */
  method FanIn(results: seq<int>) returns (ghost firedBefore: seq<int>, ghost fired: seq<int>, status: int)
    requires 0 < |results| < TWO32
    ensures firedBefore == [] && fired == [Total(results)] && status == Total(results)
  {
    var n := |results|;
    var req := new Request();
    for i := 0 to n
      invariant req.Value() == Counter(i, 0, [])
    {
      req.AddRequest();
      assert Completed(req.Value(), 0).pending == i;
    }
    firedBefore := [];
    for i := 0 to n
      invariant req.Value() == CompletedAll(Counter(n, 0, []), results[..i])
      invariant i < n ==> req.fired == [] && firedBefore == []
      invariant firedBefore == []
    {
      FiresOnceAfterLast(n, results[..i]);
      firedBefore := req.fired;
      assert results[..i + 1][..i] == results[..i];
      req.Complete(results[i]);
      FiresOnceAfterLast(n, results[..i + 1]);
    }
    assert results[..n] == results;
    FiresOnceAfterLast(n, results);
    fired, status := req.fired, req.status;
  }
}
