/** Reads of the cache volume: a request's buffer, filled from what the blocks delivered, is the
    volume as it stood when the request arrived. */
module CacheRead {
  import opened Split
  import opened Volume
  import opened CacheChain
  import opened CacheBlock
  import opened CacheMachine
  import opened CacheSteps
  import opened Cache
  import opened CacheList
  import opened CacheOrder

  /* ---- what a block has delivered, also in the middle of a chain ---- */

  /** The operation delivers a reading. */
  function Outputs(op: Op): nat {
    if op == ReadBlockFromCache(true) || op == PromoteBlockFromBackend(true) || op == ReadFromBuffer then 1 else 0
  }

  function AllOutputs(ops: seq<Op>): nat {
    if ops == [] then 0 else Outputs(ops[0]) + AllOutputs(ops[1..])
  }

  lemma PerformOutputs(c: Config, p: Plan, op: Op, l: Local)
    requires Fits(c, p.ask)
    ensures l.out <= Perform(c, p, op, l).out && |Perform(c, p, op, l).out| <= |l.out| + Outputs(op)
  {
  }

  lemma {:induction false} OutGrows(c: Config, p: Plan, ops: seq<Op>, l: Local)
    requires Fits(c, p.ask)
    ensures l.out <= RunOps(c, p, ops, l).out && |RunOps(c, p, ops, l).out| <= |l.out| + AllOutputs(ops)
  {
    hide Perform, Outputs;
    if ops != [] {
      PerformOutputs(c, p, ops[0], l);
      OutGrows(c, p, ops[1..], Perform(c, p, ops[0], l));
    }
  }

  lemma {:induction false} SuffixOutputs(ops: seq<Op>, i: nat)
    requires i <= |ops|
    ensures AllOutputs(ops[i..]) <= AllOutputs(ops)
  {
    if i > 0 {
      SuffixOutputs(ops[1..], i - 1);
      assert ops[1..][i - 1..] == ops[i..];
    } else {
      assert ops[0..] == ops;
    }
  }

  /** A chain delivers at most one reading, and only for a read. */
  lemma ChainOutputs(c: Config, p: Plan)
    requires Fits(c, p.ask)
    ensures AllOutputs(Compile(c, p)) <= if p.ask.io == Read then 1 else 0
  {
    hide Outputs, AllOutputs;
    OutputsOf();
    FewOutputs(Compile(c, p));
  }

  lemma OutputsOf()
    ensures forall op :: Outputs(op) == 1 <==>
              op == ReadBlockFromCache(true) || op == PromoteBlockFromBackend(true) || op == ReadFromBuffer
    ensures forall op :: Outputs(op) <= 1
  {
  }

  lemma {:induction false} FewOutputs(ops: seq<Op>)
    requires forall i, j :: 0 <= i < j < |ops| ==> Outputs(ops[i]) == 0 || Outputs(ops[j]) == 0
    ensures AllOutputs(ops) <= 1
    ensures (forall i :: 0 <= i < |ops| ==> Outputs(ops[i]) == 0) ==> AllOutputs(ops) == 0
  {
    if ops != [] {
      FewOutputs(ops[1..]);
      if Outputs(ops[0]) != 0 {
        assert forall j :: 0 < j < |ops| ==> Outputs(ops[j]) == 0;
      }
    }
  }

  /** The reads a block is through with are answered, and at most the one in hand besides. */
  lemma DeliveredSoFar(c: Config, os: seq<Outside>, st: State, b: nat)
    requires Inv(c, os, st) && b < |st.blocks|
    ensures var blk, was, out := st.blocks[b], os[b], Loc(st, b).out;
            && 0 <= Done(blk) <= |blk.hist|
            && was.out + Answers(c, was.bytes, blk.hist[..Done(blk)]) <= out
  {
    hide Owned, Queue, QueueEnd, Held, After, Fits, Compile, RunOps, Answers, LastWrite;
    OwnedIsSized(st);
    var blk, l := st.blocks[b], Loc(st, b);
    assert BlkOk(c, blk, l, os[b]);
    if blk.jobs == [] {
      HoldsLastWrite(c, os, st, b);
    } else {
      assert Rests(c, blk, os[b], Soon(c, blk, l), Done(blk) + 1, blk.jobs[1..]);
      InHandDelivers(c, blk, l, os[b]);
    }
  }

  lemma InHandDelivers(c: Config, blk: Blk, l: Local, o: Outside)
    requires ConfigOk(c) && Shaped(c, blk) && blk.jobs != [] && |o.bytes| == c.bs
    requires Seen(Soon(c, blk, l)) == After(c, o, blk.hist[..Done(blk) + 1])
    ensures o.out + Answers(c, o.bytes, blk.hist[..Done(blk)]) <= l.out
  {
    hide Fits, Compile, RunOps, After, LastWrite, View, Answers;
    var k, p := Done(blk), blk.jobs[0];
    assert p.ask == blk.hist[|blk.hist| - |blk.jobs| + 0];
    assert blk.hist[..k + 1][..k] == blk.hist[..k];
    AfterIsLastWrite(c, o, blk.hist[..k + 1]);
    OutGrows(c, p, Compile(c, p)[blk.pc..], l);
    SuffixOutputs(Compile(c, p), blk.pc);
    ChainOutputs(c, p);
    OneMoreAnswer(c, o.bytes, blk.hist, k);
    Comparable(o.out + Answers(c, o.bytes, blk.hist[..k]), l.out, Soon(c, blk, l).out);
  }

  lemma Comparable(a: seq<Reading>, b: seq<Reading>, s: seq<Reading>)
    requires a <= s && b <= s && |a| <= |b|
    ensures a <= b
  {
  }

  /** Only a read adds an answer. */
  lemma OneMoreAnswer(c: Config, was: seq<Byte>, h: seq<Ask>, k: nat)
    requires ConfigOk(c) && |was| == c.bs && AllFit(c, h) && k < |h|
    ensures Answers(c, was, h[..k]) <= Answers(c, was, h[..k + 1])
    ensures |Answers(c, was, h[..k + 1])| == |Answers(c, was, h[..k])| + if h[k].io == Read then 1 else 0
  {
    hide LastWrite;
    assert h[..k + 1][..k] == h[..k];
    LastWriteFits(c, was, h[..k]);
    assert Fits(c, h[k]);
  }

  /** A read that a block is through with is among its answers. */
  lemma {:induction false} AnswerIn(c: Config, was: seq<Byte>, h: seq<Ask>, j: nat)
    requires j < |h| && h[j].io == Read && h[j].f.offset + h[j].f.size <= |LastWrite(c, was, h[..j])|
    ensures var f := h[j].f;
            Reading(h[j].rid, f, LastWrite(c, was, h[..j])[f.offset..f.offset + f.size]) in Answers(c, was, h)
  {
    hide LastWrite;
    var k := |h| - 1;
    if j < k {
      assert h[..k][..j] == h[..j] && h[..k][j] == h[j];
      AnswerIn(c, was, h[..k], j);
    }
  }

  lemma {:induction false} LastWriteFits(c: Config, was: seq<Byte>, h: seq<Ask>)
    requires ConfigOk(c) && |was| == c.bs && AllFit(c, h)
    ensures |LastWrite(c, was, h)| == c.bs
  {
    if h != [] {
      assert Fits(c, h[|h| - 1]);
      LastWriteFits(c, was, h[..|h| - 1]);
    }
  }

  /* ---- a request's fragments in the log ---- */

  /** From position `k` the log holds the fragments of read `rid`. */
  ghost predicate Logged(log: seq<Item>, k: nat, rid: nat, fs: seq<Fragment>) {
    k + |fs| <= |log| &&
    forall i :: 0 <= i < |fs| ==>
      var x := log[k + i]; x.b == fs[i].block && x.a.rid == rid && x.a.io == Read && x.a.f == fs[i]
  }

  /** What arrived for the block of fragment `i` before the request is what arrived before it. */
  lemma {:induction false} BeforeFragment(log: seq<Item>, k: nat, rid: nat, offset: nat, length: nat, bs: nat,
                                          i: nat, j: nat)
    requires bs > 0 && var fs := Fragments(offset, length, 0, bs); Logged(log, k, rid, fs) && j <= i < |fs|
    ensures Of(log[..k + j], Fragments(offset, length, 0, bs)[i].block) ==
            Of(log[..k], Fragments(offset, length, 0, bs)[i].block)
    decreases j
  {
    hide Fragments;
    if j > 0 {
      BeforeFragment(log, k, rid, offset, length, bs, i, j - 1);
      FragmentAt(offset, length, 0, bs, i);
      FragmentAt(offset, length, 0, bs, j - 1);
      assert log[..k + j][..k + j - 1] == log[..k + j - 1];
      assert log[k + (j - 1)].b == Fragments(offset, length, 0, bs)[j - 1].block;
    }
  }

  /** Its place among the requests of that block. */
  lemma PlaceInBlock(log: seq<Item>, p: nat, b: nat)
    requires p < |log| && log[p].b == b
    ensures var all, j := Of(log, b), |Of(log[..p], b)|;
            j < |all| && all[j] == log[p].a && all[..j] == Of(log[..p], b)
  {
    hide Of;
    assert log == log[..p] + log[p..];
    OfConcat(log[..p], log[p..], b);
    OfFirst(log[p..], b);
  }

  /** The block of fragment `i` is through with it. */
  ghost predicate ThroughWith(t: Front, k: nat, fs: seq<Fragment>, i: nat)
    requires i < |fs| && k + i <= |t.log|
  {
    fs[i].block < |t.st.blocks| &&
    |Of(t.log[..k + i], fs[i].block)| < Done(t.st.blocks[fs[i].block])
  }

  /** The buffer is filled with what the blocks delivered to request `rid` in this run. */
  ghost predicate FilledFrom(os: seq<Outside>, t: Front, rid: nat, buffer: seq<Byte>)
    requires Sized(t.st) && |os| == |t.st.blocks|
  {
    forall b, x :: 0 <= b < |os| && x in Delivers(os, t, b) && x.rid == rid ==> HoldsAt(buffer, x)
  }

  ghost function Delivers(os: seq<Outside>, t: Front, b: nat): seq<Reading>
    requires Sized(t.st) && b < |os| == |t.st.blocks|
  {
    var out := Loc(t.st, b).out;
    if |os[b].out| <= |out| then out[|os[b].out|..] else out
  }

  /** `vol` is the volume as what arrived before position `k` leaves it, block by block. */
  ghost predicate AsArrived(c: Config, os: seq<Outside>, log: seq<Item>, k: nat, vol: seq<Byte>)
    requires k <= |log|
  {
    && |vol| == c.bs * |os|
    && forall b :: 0 <= b < |os| ==>
         HasBlock(vol, b, c.bs) && Block(vol, b, c.bs) == LastWrite(c, os[b].bytes, Of(log[..k], b))
  }

  /** A block that is through with a request of its log has delivered the last write before it. */
  lemma BlockDelivers(c: Config, os: seq<Outside>, t: Front, b: nat, p: nat)
    requires ListInv(c, os, t) && Sized(t.st) && b < |t.st.blocks| == |os| && InOrder(t, b) && p < |t.log|
    requires t.log[p].b == b && t.log[p].a.io == Read && |Of(t.log[..p], b)| < Done(t.st.blocks[b])
    ensures var a, w := t.log[p].a, LastWrite(c, os[b].bytes, Of(t.log[..p], b));
            && a.f.offset + a.f.size <= |w| == c.bs
            && Reading(a.rid, a.f, w[a.f.offset..a.f.offset + a.f.size]) in Delivers(os, t, b)
  {
    hide Owned, Of, LastWrite, Answers, Loc, BlkOk, AllListable;
    var blk, all, j, a := t.st.blocks[b], Of(t.log, b), |Of(t.log[..p], b)|, t.log[p].a;
    PlaceInBlock(t.log, p, b);
    var h := blk.hist[..Done(blk)];
    BlockFits(c, os, t.st, b);
    assert h[j] == a && h[..j] == all[..j];
    LastWriteFits(c, os[b].bytes, h[..j]);
    assert Fits(c, h[j]);
    AnswerIn(c, os[b].bytes, h, j);
    DeliveredSoFar(c, os, t.st, b);
    PrefixTail(os[b].out, Answers(c, os[b].bytes, h), Loc(t.st, b).out);
  }

  lemma BlockFits(c: Config, os: seq<Outside>, st: State, b: nat)
    requires Inv(c, os, st) && b < |st.blocks|
    ensures AllFit(c, st.blocks[b].hist) && |os[b].bytes| == c.bs && ConfigOk(c)
  {
    OwnedIsSized(st);
    assert BlkOk(c, st.blocks[b], Loc(st, b), os[b]);
  }

  lemma PrefixTail(a: seq<Reading>, m: seq<Reading>, out: seq<Reading>)
    requires a + m <= out
    ensures forall x :: x in m ==> x in out[|a|..]
  {
    assert out[|a|..][..|m|] == m;
  }

  /** In every run in which requests wait as they should: once all blocks of a read are through
      with it, its buffer is the range of the volume as all that arrived before it leaves it. */
  lemma ReadReturnsArrived(c: Config, os: seq<Outside>, s: Front, t: Front, k: nat, rid: nat, offset: nat, length: nat,
                           vol: seq<Byte>, buffer: seq<Byte>)
    requires Begins(c, os, s) && Reaches(c, Waiting, s, t) && Sized(t.st) && |os| == |t.st.blocks|
    requires c.bs > 0 && offset + length <= c.bs * |os| && |buffer| == length
    requires var fs := Fragments(offset, length, 0, c.bs);
             Logged(t.log, k, rid, fs) && forall i :: 0 <= i < |fs| ==> ThroughWith(t, k, fs, i)
    requires AsArrived(c, os, t.log, k, vol) && FilledFrom(os, t, rid, buffer)
    ensures buffer == vol[offset..offset + length]
  {
    hide Begins, Reaches, Fragments, ThroughWith, AsArrived, FilledFrom, Delivered, ListInv;
    var fs := Fragments(offset, length, 0, c.bs);
    assert |vol| == c.bs * |os| by {
      SizeOfVolume(c, os, t.log, k, vol);
    }
    forall i | 0 <= i < |fs| ensures Delivered(offset, vol, buffer, fs[i]) {
      assert ThroughWith(t, k, fs, i);
      InRange(t, k, fs, i);
      ArrivalOrderKept(c, os, s, t, fs[i].block);
      OneFragment(c, os, t, k, rid, offset, length, vol, buffer, i);
    }
    Assembled(offset, length, vol, buffer, c.bs);
  }

  lemma SizeOfVolume(c: Config, os: seq<Outside>, log: seq<Item>, k: nat, vol: seq<Byte>)
    requires k <= |log| && AsArrived(c, os, log, k, vol)
    ensures |vol| == c.bs * |os|
  {
  }

  lemma InRange(t: Front, k: nat, fs: seq<Fragment>, i: nat)
    requires i < |fs| && k + i <= |t.log| && ThroughWith(t, k, fs, i)
    ensures fs[i].block < |t.st.blocks|
  {
  }

  lemma OneFragment(c: Config, os: seq<Outside>, t: Front, k: nat, rid: nat, offset: nat, length: nat,
                    vol: seq<Byte>, buffer: seq<Byte>, i: nat)
    requires ListInv(c, os, t) && Sized(t.st) && |os| == |t.st.blocks| && c.bs > 0
    requires var fs := Fragments(offset, length, 0, c.bs);
             && Logged(t.log, k, rid, fs) && i < |fs| && ThroughWith(t, k, fs, i) && InOrder(t, fs[i].block)
    requires AsArrived(c, os, t.log, k, vol) && FilledFrom(os, t, rid, buffer)
    ensures Delivered(offset, vol, buffer, Fragments(offset, length, 0, c.bs)[i])
  {
    hide Fragments, Of, Delivers, LastWrite, Block, HasBlock, HoldsAt, Delivered, InOrder, ListInv, Sized;
    var f := Fragments(offset, length, 0, c.bs)[i];
    assert t.log[k + i].b == f.block;
    BlockDelivers(c, os, t, f.block, k + i);
    BeforeFragment(t.log, k, rid, offset, length, c.bs, i, i);
    FragmentAt(offset, length, 0, c.bs, i);
    FragmentDelivered(c.bs, offset, vol, buffer, f.block, f, rid);
  }

  lemma FragmentDelivered(bs: nat, offset: nat, vol: seq<Byte>, buffer: seq<Byte>, b: nat, f: Fragment, rid: nat)
    requires HasBlock(vol, b, bs) && f.offset + f.size <= bs && bs * b + f.offset == offset + f.data
    requires HoldsAt(buffer, Reading(rid, f, Block(vol, b, bs)[f.offset..f.offset + f.size]))
    ensures Delivered(offset, vol, buffer, f)
  {
    SliceOfSlice(vol, bs * b, bs, f.offset, f.size);
  }
}
