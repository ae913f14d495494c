/** `CachePolicy::map` and the `send` methods of its block operations, in place. */
module CacheCode {
  import opened Volume
  import opened Lru
  import opened CacheChain
  import opened CacheBlock
  import opened CacheMachine
  import opened CacheSteps
  import Cache

  class CachePolicy {
    const c: Config
    var stat: seq<Status>
    var data: seq<seq<Byte>>
    var back: seq<seq<Byte>>
    var words: seq<Word>
    var free: seq<nat>
    var clean: seq<nat>
    var dirty: seq<nat>
    var blocks: seq<Blk>

    ghost function Value(): State
      reads this
    {
      State(stat, data, back, words, free, clean, dirty, blocks)
    }

    /** All entries on the free list, no block cached; entries are pushed in falling order, so
        number 0 is the first to be used. */
    constructor (c: Config, back: seq<seq<Byte>>, entries: nat)
      requires ConfigOk(c) && forall b :: 0 <= b < |back| ==> |back[b]| == c.bs
      ensures this.c == c && |Value().blocks| == |back| && |Value().stat| == entries
      ensures Value().free == seq(entries, k => k)
      ensures Cache.Starts(c, seq(|back|, b requires 0 <= b < |back| => Cache.Uncached(back[b])), Value())
    {
      this.c, this.back := c, back;
      stat := seq(entries, i => Unpromoted);
      data := seq(entries, i => []);
      clean, dirty := [], [];
      words := seq(|back|, i => NO_WORD);
      blocks := seq(|back|, i => Blk(Null, false, [], 0, [], [], []));
      var list: seq<nat> := [];
      var i := entries;
      while i > 0
        invariant 0 <= i <= entries && list == seq(entries - i, k => i + k)
      {
        i := i - 1;
        WithoutAbsent(list, i);
        list := Touched(list, i);
      }
      free := list;
      new;
      assert this.back == back && free == seq(entries, k => k);
      forall e ensures e in free <==> 0 <= e < entries {
        assert 0 <= e < entries ==> free[e] == e;
      }
      Cache.FreshStarts(c, Value());
    }

    /** `map`: takes a free entry on a miss, raises the discard flag, and returns the chain. */
    method Map(b: nat, a: Ask, ghost os: seq<Outside>) returns (chain: seq<Op>)
      requires Cache.Inv(c, os, Value()) && CanMap(c, Value(), b, a)
      modifies this
      ensures Value() == Mapped(old(Value()), b, a) && Cache.Inv(c, os, Value())
      ensures var js := blocks[b].jobs; js != [] && chain == Compile(c, js[|js| - 1])
    {
      hide Cache.Inv, Compile, Without, Fits;
      Cache.StepKeepsInv(c, os, Value(), Cache.Map(b, a));
      var block := blocks[b];
      var p := Plan(a, block.entry, false);
      match a.io {
        case Read =>
          if block.entry.Null? {
            var entry := free[0];
            free := Without(free, entry);
            block := block.(entry := At(entry));
            p := Plan(a, At(entry), true);
          }
        case Write =>
          if block.entry.Null? {
            var entry := free[0];
            free := Without(free, entry);
            block := block.(entry := At(entry));
            p := Plan(a, At(entry), true);
          }
        case Flush =>
        case Demote =>
          if block.entry.At? {
            block := block.(discarding := true);
          }
        case Discard =>
          block := block.(discarding := true);
        case Other =>
      }
      block := block.(jobs := block.jobs + [p], hist := block.hist + [a]);
      blocks := blocks[b := block];
      chain := CacheChain.Map(c, p);
    }

    /** `send` of the operation that block `b` is at. */
    method Send(b: nat, ghost os: seq<Outside>)
      requires Cache.Inv(c, os, Value()) && b < |blocks| && blocks[b].jobs != []
      modifies this
      ensures Sized(old(Value())) && Runnable(c, old(blocks)[b]) && Fits(c, old(blocks)[b].jobs[0].ask)
      ensures Value() == Stepped(c, old(Value()), b) && Cache.Inv(c, os, Value())
    {
      hide Cache.Inv, Compile, Stepped, Fits;
      CanSend(c, os, Value(), b);
      Cache.StepKeepsInv(c, os, Value(), Cache.Run(b));
      if UsesEntry(Compile(c, blocks[b].jobs[0])[blocks[b].pc]) {
        if Lists(Compile(c, blocks[b].jobs[0])[blocks[b].pc]) {
          SendToLists(b);
        } else {
          SendToEntry(b);
        }
      } else if OnBuffer(Compile(c, blocks[b].jobs[0])[blocks[b].pc]) {
        SendToBuffer(b);
      } else {
        SendToBlock(b);
      }
    }

    /** Operations on the lists. */
    method SendToLists(b: nat)
      requires Sendable(c, Value(), b) && Lists(Compile(c, blocks[b].jobs[0])[blocks[b].pc])
      requires blocks[b].jobs[0].entry.At? && blocks[b].jobs[0].entry.e < |stat|
      modifies this
      ensures Value() == Stepped(c, old(Value()), b)
    {
      hide Compile, Without, Touched, Fits;
      var block := blocks[b];
      var p := block.jobs[0];
      var e := p.entry.e;
      match Compile(c, p)[block.pc] {
        case UpdateLRU =>
          if stat[e] == Dirty {
            clean := Without(clean, b);
            dirty := Touched(dirty, b);
          } else {
            dirty := Without(dirty, b);
            clean := Touched(clean, b);
          }
        case UnlinkLRU =>
          clean := Without(clean, b);
          dirty := Without(dirty, b);
          free := Touched(free, e);
      }
      blocks := blocks[b := Ran(c, block, block.entry, block.buf, block.out)];
    }

    /** Operations on the block's entry and its status. */
    method SendToEntry(b: nat)
      requires Sendable(c, Value(), b) && UsesEntry(Compile(c, blocks[b].jobs[0])[blocks[b].pc])
      requires !Lists(Compile(c, blocks[b].jobs[0])[blocks[b].pc])
      requires blocks[b].jobs[0].entry.At? && blocks[b].jobs[0].entry.e < |stat|
      modifies this
      ensures Value() == Stepped(c, old(Value()), b)
    {
      hide Compile, Without, Touched, Fits;
      var block := blocks[b];
      var p := block.jobs[0];
      var e := p.entry.e;
      var entry, buf, out := block.entry, block.buf, block.out;
      match Compile(c, p)[block.pc] {
        case ReadBlockFromCache(toRequest) =>
          if toRequest {
            out := out + [Reading(p.ask.rid, p.ask.f, data[e])];
          } else {
            buf := data[e];
          }
        case WriteBlockToCache(fromRequest) =>
          data := data[e := if fromRequest then p.ask.bytes else buf];
        case UpdateCacheMeta(status) =>
          stat := stat[e := status];
          words := words[b := Word(status, e)];
        case FlushBlockToBackend =>
          if stat[e] == Dirty {
            back := back[b := data[e]];
          }
        case DemoteBlockToCache =>
          data := data[e := c.hole];
        case ResetCacheEntry =>
          stat := stat[e := Unpromoted];
          entry := Null;
      }
      blocks := blocks[b := Ran(c, block, entry, buf, out)];
    }

    /** Operations on the scratch buffer. */
    method SendToBuffer(b: nat)
      requires Sendable(c, Value(), b) && OnBuffer(Compile(c, blocks[b].jobs[0])[blocks[b].pc])
      modifies this
      ensures Value() == Stepped(c, old(Value()), b)
    {
      hide Compile, Fits, Stepped, Ran;
      BufferStep(c, Value(), b);
      var block := blocks[b];
      var p := block.jobs[0];
      var a := p.ask;
      var buf, out := block.buf, block.out;
      OpsAreStocked(c, p, block.pc);
      match Compile(c, p)[block.pc] {
        case PromoteBlockFromBackend(toRequest) =>
          buf := back[b];
          if toRequest {
            out := out + [Reading(a.rid, a.f, buf)];
          }
        case ReadFromBuffer =>
          out := out + [Reading(a.rid, a.f, buf[a.f.offset..a.f.offset + a.f.size])];
        case DemoteBlockBuffer =>
          buf := [];
      }
      blocks := blocks[b := Ran(c, block, block.entry, buf, out)];
    }

    /** Operations on the backend and the flag. */
    method SendToBlock(b: nat)
      requires Sendable(c, Value(), b)
      requires var op := Compile(c, blocks[b].jobs[0])[blocks[b].pc]; !UsesEntry(op) && !OnBuffer(op)
      modifies this
      ensures Value() == Stepped(c, old(Value()), b)
    {
      hide Compile, Fits, Without, Touched, Overwrite;
      var block := blocks[b];
      var p := block.jobs[0];
      assert InRange(Value(), block);
      OpsAreStocked(c, p, block.pc);
      match Compile(c, p)[block.pc] {
        case WriteToBackend =>
          back := back[b := Overwrite(back[b], p.ask.f.offset, p.ask.bytes)];
        case DiscardBlockToBackend =>
          back := back[b := c.hole];
        case ClearCacheMeta =>
          words := words[b := NO_WORD];
        case ReleaseDiscardBlock =>
        case DoNothing =>
        case BlockRequestComplete =>
      }
      blocks := blocks[b := Ran(c, block, block.entry, block.buf, block.out)];
    }
  }

  predicate Lists(op: Op) {
    op == UpdateLRU || op == UnlinkLRU
  }

  predicate OnBuffer(op: Op) {
    op.PromoteBlockFromBackend? || op == ReadFromBuffer || op == DemoteBlockBuffer
  }

  ghost predicate Sendable(c: Config, st: State, b: nat) {
    && Sized(st) && b < |st.blocks| && Runnable(c, st.blocks[b]) && Fits(c, st.blocks[b].jobs[0].ask)
    && |st.back[b]| == c.bs
    && (BufferInUse(c, st.blocks[b].jobs[0], st.blocks[b].pc) ==> |st.blocks[b].buf| == c.bs)
  }

  lemma CanSend(c: Config, os: seq<Outside>, st: State, b: nat)
    requires Cache.Inv(c, os, st) && b < |st.blocks| && st.blocks[b].jobs != []
    ensures Sendable(c, st, b)
    ensures var p := st.blocks[b].jobs[0];
            UsesEntry(Compile(c, p)[st.blocks[b].pc]) ==> p.entry.At? && p.entry.e < |st.stat|
  {
    hide Compile, Fits, Rests, Holding, Held, Owned;
    Cache.RunIsReady(c, os, st, b);
    OwnedIsSized(st);
    assert InRange(st, st.blocks[b]) && BlkOk(c, st.blocks[b], Loc(st, b), os[b]);
    if UsesEntry(Compile(c, st.blocks[b].jobs[0])[st.blocks[b].pc]) {
      UsedIsHeld(c, st.blocks[b]);
    }
  }

  /** An operation on the buffer changes nothing but its block. */
  lemma BufferStep(c: Config, st: State, b: nat)
    requires Sendable(c, st, b) && OnBuffer(Compile(c, st.blocks[b].jobs[0])[st.blocks[b].pc])
    ensures InRange(st, st.blocks[b])
    ensures var blk := st.blocks[b];
            var p := blk.jobs[0];
            var n := Perform(c, p, Compile(c, p)[blk.pc], Through(st, b, p.entry));
            Stepped(c, st, b) == st.(blocks := st.blocks[b := Ran(c, blk, blk.entry, n.buf, n.out)])
  {
    hide Compile, Fits, Without, Touched, Ran;
    assert InRange(st, st.blocks[b]);
  }

  /** What an operation on the buffer or the backend finds. */
  lemma OpsAreStocked(c: Config, p: Plan, i: nat)
    requires Fits(c, p.ask) && i < |Compile(c, p)|
    ensures Compile(c, p)[i] != WriteToBuffer && Compile(c, p)[i] != PromoteFromBackend
    ensures Compile(c, p)[i] == ReadFromBuffer ==> BufferInUse(c, p, i) && p.ask.f.offset + p.ask.f.size <= c.bs
    ensures Compile(c, p)[i] == WriteToBackend ==> p.ask.f.offset == 0 && |p.ask.bytes| == p.ask.f.size == c.bs
  {
  }
}
