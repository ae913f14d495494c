/** `CachePolicy::map`: the chain of block operations for one request, and what it does to the
    block. */
module CacheChain {
  import opened Split
  import opened Volume

  datatype IoType = Read | Write | Flush | Demote | Discard | Other

  /** A fragment of a request; a write brings the whole block in `bytes`. */
  datatype Ask = Ask(rid: nat, io: IoType, f: Fragment, bytes: seq<Byte>)

  datatype EntryPtr = Null | At(e: nat)

  /** The word that the store keeps for a block: a status and an entry number. */
  datatype Word = Word(status: Status, e: nat)

  const NO_WORD: Word := Word(Unpromoted, 0)

  /** What `map` fixed when it built the chain: the block's entry, and whether it was taken from
      the free list for this request. */
  datatype Plan = Plan(ask: Ask, entry: EntryPtr, miss: bool)

  /** `writeThrough` is a dirty timeout of zero, `readOnly` the mode that caches no writes; a
      discarded block reads as `hole`. */
  datatype Config = Config(bs: nat, writeThrough: bool, readOnly: bool, hole: seq<Byte>)

  datatype Op =
    | ReadBlockFromCache(toRequest: bool)
    | PromoteBlockFromBackend(toRequest: bool)
    | PromoteFromBackend
    | ReadFromBuffer
    | WriteToBuffer
    | DemoteBlockBuffer
    | WriteBlockToCache(fromRequest: bool)
    | WriteToBackend
    | UpdateCacheMeta(status: Status)
    | UpdateLRU
    | FlushBlockToBackend
    | DiscardBlockToBackend
    | DemoteBlockToCache
    | ResetCacheEntry
    | ClearCacheMeta
    | UnlinkLRU
    | ReleaseDiscardBlock
    | DoNothing
    | BlockRequestComplete

  /** The fragment lies in the block; a write covers it and may be cached, since the chains of
      others do not write what they should (`CachePartial.WriteIsRightIff`). */
  ghost predicate Fits(c: Config, a: Ask) {
    && a.f.offset + a.f.size <= c.bs
    && (a.io == Write ==> a.f.offset == 0 && a.f.size == c.bs && |a.bytes| == c.bs && !c.readOnly)
  }

  /** The chain for a plan. */
  function Compile(c: Config, p: Plan): seq<Op> {
    var partial := p.ask.f.size < c.bs;
    match p.ask.io
    case Read =>
      if !p.miss then
        (if partial then [ReadBlockFromCache(false), ReadFromBuffer, DemoteBlockBuffer]
         else [ReadBlockFromCache(true)]) + [UpdateLRU, BlockRequestComplete]
      else
        (if partial then [PromoteBlockFromBackend(false), WriteBlockToCache(false), ReadFromBuffer, DemoteBlockBuffer]
         else [PromoteBlockFromBackend(true), WriteBlockToCache(false)])
        + [UpdateCacheMeta(Flushed), UpdateLRU, BlockRequestComplete]
    case Write =>
      if c.readOnly then [WriteToBackend, BlockRequestComplete]
      else
        (if !partial then [WriteBlockToCache(true)]
         else [if p.miss then PromoteFromBackend else ReadBlockFromCache(true), WriteToBuffer, WriteBlockToCache(false),
               DemoteBlockBuffer])
        + (if c.writeThrough then [WriteToBackend, UpdateCacheMeta(Flushed)] else [UpdateCacheMeta(Dirty)])
        + [UpdateLRU, BlockRequestComplete]
    case Flush =>
      if p.entry.Null? then [BlockRequestComplete]
      else [FlushBlockToBackend, UpdateCacheMeta(Flushed), UpdateLRU, BlockRequestComplete]
    case Demote =>
      if p.entry.Null? then [BlockRequestComplete]
      else [FlushBlockToBackend, DemoteBlockToCache, ResetCacheEntry, ClearCacheMeta, UnlinkLRU, ReleaseDiscardBlock,
            BlockRequestComplete]
    case Discard =>
      if p.entry.Null? then [DiscardBlockToBackend, ReleaseDiscardBlock, BlockRequestComplete]
      else [DiscardBlockToBackend, DemoteBlockToCache, ResetCacheEntry, ClearCacheMeta, UnlinkLRU, ReleaseDiscardBlock,
            BlockRequestComplete]
    case Other => [DoNothing, BlockRequestComplete]
  }

  /** `CachePolicy::map` builds the chain from its end. */
  method Map(c: Config, p: Plan) returns (chain: seq<Op>)
    ensures chain == Compile(c, p)
  {
    chain := [BlockRequestComplete];
    match p.ask.io
    case Read =>
      chain := [UpdateLRU] + chain;
      if !p.miss {
        if p.ask.f.size < c.bs {
          chain := [DemoteBlockBuffer] + chain;
          chain := [ReadFromBuffer] + chain;
          chain := [ReadBlockFromCache(false)] + chain;
        } else {
          chain := [ReadBlockFromCache(true)] + chain;
        }
      } else {
        chain := [UpdateCacheMeta(Flushed)] + chain;
        if p.ask.f.size < c.bs {
          chain := [DemoteBlockBuffer] + chain;
          chain := [ReadFromBuffer] + chain;
          chain := [WriteBlockToCache(false)] + chain;
          chain := [PromoteBlockFromBackend(false)] + chain;
        } else {
          chain := [WriteBlockToCache(false)] + chain;
          chain := [PromoteBlockFromBackend(true)] + chain;
        }
      }
    case Write =>
      if c.readOnly {
        chain := [WriteToBackend] + chain;
      } else {
        chain := [UpdateLRU] + chain;
        if !c.writeThrough {
          chain := [UpdateCacheMeta(Dirty)] + chain;
        } else {
          chain := [UpdateCacheMeta(Flushed)] + chain;
          chain := [WriteToBackend] + chain;
        }
        if p.ask.f.size < c.bs {
          chain := [DemoteBlockBuffer] + chain;
          chain := [WriteBlockToCache(false)] + chain;
          chain := [WriteToBuffer] + chain;
          if !p.miss {
            chain := [ReadBlockFromCache(true)] + chain;
          } else {
            chain := [PromoteFromBackend] + chain;
          }
        } else {
          chain := [WriteBlockToCache(true)] + chain;
        }
      }
    case Flush =>
      if p.entry.At? {
        chain := [UpdateLRU] + chain;
        chain := [UpdateCacheMeta(Flushed)] + chain;
        chain := [FlushBlockToBackend] + chain;
      }
    case Demote =>
      if p.entry.At? {
        chain := [ReleaseDiscardBlock] + chain;
        chain := [UnlinkLRU] + chain;
        chain := [ClearCacheMeta] + chain;
        chain := [ResetCacheEntry] + chain;
        chain := [DemoteBlockToCache] + chain;
        chain := [FlushBlockToBackend] + chain;
      }
    case Discard =>
      chain := [ReleaseDiscardBlock] + chain;
      if p.entry.At? {
        chain := [UnlinkLRU] + chain;
        chain := [ClearCacheMeta] + chain;
        chain := [ResetCacheEntry] + chain;
        chain := [DemoteBlockToCache] + chain;
      }
      chain := [DiscardBlockToBackend] + chain;
    case Other =>
      chain := [DoNothing] + chain;
  }

  /* ---- one block on its own ---- */

  /** What belongs to one block: its entry with status and contents, the backend copy, scratch
      space, reads delivered, membership of the clean and dirty lists, and the stored word. */
  datatype Local = Local(entry: EntryPtr, stat: Status, data: seq<Byte>, back: seq<Byte>,
                         buf: seq<Byte>, out: seq<Reading>, clean: bool, dirty: bool, word: Word)

  function Perform(c: Config, p: Plan, op: Op, l: Local): Local
    requires Fits(c, p.ask)
  {
    var a := p.ask;
    match op
    case ReadBlockFromCache(toRequest) =>
      if toRequest then l.(out := l.out + [Reading(a.rid, a.f, l.data)]) else l.(buf := l.data)
    case PromoteBlockFromBackend(toRequest) =>
      if toRequest then l.(buf := l.back, out := l.out + [Reading(a.rid, a.f, l.back)]) else l.(buf := l.back)
    case ReadFromBuffer =>
      if |l.buf| == c.bs then l.(out := l.out + [Reading(a.rid, a.f, l.buf[a.f.offset..a.f.offset + a.f.size])]) else l
    case PromoteFromBackend =>
      if |l.buf| == |l.back| == c.bs then
        l.(buf := l.back[a.f.offset..a.f.offset + a.f.size] + l.buf[a.f.size..])
      else l
    case WriteToBuffer =>
      if |l.buf| == c.bs && |a.bytes| == a.f.size then l.(buf := Overwrite(l.buf, a.f.offset, a.bytes)) else l
    case DemoteBlockBuffer => l.(buf := [])
    case WriteBlockToCache(fromRequest) => l.(data := if fromRequest then a.bytes else l.buf)
    case WriteToBackend =>
      if |l.back| == c.bs && |a.bytes| == a.f.size then l.(back := Overwrite(l.back, a.f.offset, a.bytes)) else l
    case UpdateCacheMeta(status) => l.(stat := status, word := Word(status, if p.entry.At? then p.entry.e else 0))
    case UpdateLRU => l.(clean := l.stat != Dirty, dirty := l.stat == Dirty)
    case FlushBlockToBackend => if l.stat == Dirty then l.(back := l.data) else l
    case DiscardBlockToBackend => l.(back := c.hole)
    case DemoteBlockToCache => l.(data := c.hole)
    case ResetCacheEntry => l.(stat := Unpromoted, entry := Null)
    case ClearCacheMeta => l.(word := NO_WORD)
    case UnlinkLRU => l.(data := [], clean := false, dirty := false)
    case ReleaseDiscardBlock => l
    case DoNothing => l
    case BlockRequestComplete => l
  }

  ghost function RunOps(c: Config, p: Plan, ops: seq<Op>, l: Local): Local
    requires Fits(c, p.ask)
  {
    if ops == [] then l else RunOps(c, p, ops[1..], Perform(c, p, ops[0], l))
  }

  /** The bytes a block stands for: its entry's, once filled, and otherwise the backend's. */
  function View(l: Local): seq<Byte> {
    if l.entry.At? && l.stat != Unpromoted then l.data else l.back
  }

  /** Between chains: a flushed entry equals the backend, a filled entry is in exactly the
      list of its status, a block without a filled entry is in neither list, and the stored word
      says so. */
  ghost predicate Tidy(c: Config, l: Local) {
    && |l.back| == c.bs
    && (l.entry.Null? ==> l.stat == Unpromoted)
    && (l.stat != Unpromoted ==> |l.data| == c.bs)
    && (l.stat == Flushed ==> l.data == l.back)
    && l.dirty == (l.stat == Dirty) && l.clean == (l.stat == Flushed)
    && l.word == WordOf(l.entry, l.stat)
  }

  /** The word for a block: its status and entry, if that is filled. */
  function WordOf(entry: EntryPtr, stat: Status): Word {
    if entry.At? && stat != Unpromoted then Word(stat, entry.e) else NO_WORD
  }

  predicate Filled(l: Local) {
    l.stat != Unpromoted
  }

  /** A chain finds the entry as `map` expected it. */
  ghost predicate Expects(p: Plan, entry: EntryPtr, filled: bool) {
    match p.ask.io
    case Read => entry.At? && p.entry == entry && p.miss == !filled
    case Write => entry.At? && p.entry == entry && p.miss == !filled
    case _ => if p.entry.At? then p.entry == entry && filled else !filled
  }

  /** A block as a user and the backend see it: its bytes, what was read of it, the backend's
      copy, and whether it is cached and flushed. */
  datatype Outside = Outside(bytes: seq<Byte>, out: seq<Reading>, back: seq<Byte>, stat: Status)

  /** The reference: what a request is meant to do. */
  function Meant(c: Config, a: Ask, o: Outside): (n: Outside)
    requires Fits(c, a) && |o.bytes| == c.bs == |c.hole|
    ensures |n.bytes| == c.bs
  {
    match a.io
    case Read =>
      o.(out := o.out + [Reading(a.rid, a.f, o.bytes[a.f.offset..a.f.offset + a.f.size])],
         stat := if o.stat == Unpromoted then Flushed else o.stat)
    case Write =>
      if c.writeThrough then o.(bytes := a.bytes, back := a.bytes, stat := Flushed)
      else o.(bytes := a.bytes, stat := Dirty)
    case Flush => if o.stat == Unpromoted then o else o.(back := o.bytes, stat := Flushed)
    case Demote => o.(back := if o.stat == Dirty then o.bytes else o.back, stat := Unpromoted)
    case Discard => o.(bytes := c.hole, back := c.hole, stat := Unpromoted)
    case Other => o
  }

  function Seen(l: Local): Outside {
    Outside(View(l), l.out, l.back, l.stat)
  }

  /** The chain drops the entry. */
  predicate Drops(p: Plan) {
    p.entry.At? && (p.ask.io == Demote || p.ask.io == Discard)
  }

  function EntryAfter(p: Plan, entry: EntryPtr): EntryPtr {
    if Drops(p) then Null else entry
  }

  function FilledAfter(p: Plan, filled: bool): bool {
    if p.entry.At? then !Drops(p) else filled
  }

  /** `n` is tidy and is, seen from outside, what the request makes of `l`; the entry is kept
      unless the chain drops it, and is filled if the chain has one. */
  ghost predicate Achieves(c: Config, p: Plan, l: Local, n: Local)
    requires Fits(c, p.ask) && |c.hole| == c.bs && |View(l)| == c.bs
  {
    && Tidy(c, n) && Seen(n) == Meant(c, p.ask, Seen(l))
    && n.entry == EntryAfter(p, l.entry) && Filled(n) == FilledAfter(p, Filled(l))
  }

  /** A whole chain, started between chains on the entry it was built for. */
  lemma ChainMeaning(c: Config, p: Plan, l: Local)
    requires Fits(c, p.ask) && |c.hole| == c.bs && Tidy(c, l) && Expects(p, l.entry, Filled(l))
    ensures |View(l)| == c.bs && Achieves(c, p, l, RunOps(c, p, Compile(c, p), l))
  {
    hide Perform, Achieves, RunOps, Compile;
    match p.ask.io
    case Read =>
      if p.miss {
        ReadMissMeaning(c, p, l);
      } else {
        ReadHitMeaning(c, p, l);
      }
    case Write => WriteMeaning(c, p, l);
    case Flush => FlushMeaning(c, p, l);
    case Demote => DemoteMeaning(c, p, l);
    case Discard => DiscardMeaning(c, p, l);
    case Other => OtherMeaning(c, p, l);
  }

  lemma ReadHitMeaning(c: Config, p: Plan, l: Local)
    requires Fits(c, p.ask) && |c.hole| == c.bs && Tidy(c, l) && Expects(p, l.entry, Filled(l))
    requires p.ask.io == Read && !p.miss
    ensures |View(l)| == c.bs && Achieves(c, p, l, RunOps(c, p, Compile(c, p), l))
  {
    RunsInSteps(c, p, Compile(c, p), l);
    assert View(l)[0..c.bs] == View(l);
  }

  lemma ReadMissMeaning(c: Config, p: Plan, l: Local)
    requires Fits(c, p.ask) && |c.hole| == c.bs && Tidy(c, l) && Expects(p, l.entry, Filled(l))
    requires p.ask.io == Read && p.miss
    ensures |View(l)| == c.bs && Achieves(c, p, l, RunOps(c, p, Compile(c, p), l))
  {
    if p.ask.f.size < c.bs {
      var ops := [PromoteBlockFromBackend(false), WriteBlockToCache(false), ReadFromBuffer, DemoteBlockBuffer,
                  UpdateCacheMeta(Flushed), UpdateLRU, BlockRequestComplete];
      assert Compile(c, p) == ops;
      RunMissPart(c, p, l);
    } else {
      var ops := [PromoteBlockFromBackend(true), WriteBlockToCache(false), UpdateCacheMeta(Flushed), UpdateLRU,
                  BlockRequestComplete];
      assert Compile(c, p) == ops;
      RunMissWhole(c, p, l);
      assert l.back[0..c.bs] == l.back;
    }
  }

  lemma RunMissPart(c: Config, p: Plan, l: Local)
    requires Fits(c, p.ask) && |l.back| == c.bs && p.entry.At?
    ensures RunOps(c, p, [PromoteBlockFromBackend(false), WriteBlockToCache(false), ReadFromBuffer, DemoteBlockBuffer,
                          UpdateCacheMeta(Flushed), UpdateLRU, BlockRequestComplete], l) ==
            l.(buf := [], data := l.back, stat := Flushed, clean := true, dirty := false,
               word := Word(Flushed, p.entry.e),
               out := l.out + [Reading(p.ask.rid, p.ask.f, l.back[p.ask.f.offset..p.ask.f.offset + p.ask.f.size])])
  {
    RunsInSteps(c, p, [PromoteBlockFromBackend(false), WriteBlockToCache(false), ReadFromBuffer, DemoteBlockBuffer,
                       UpdateCacheMeta(Flushed), UpdateLRU, BlockRequestComplete], l);
  }

  lemma RunMissWhole(c: Config, p: Plan, l: Local)
    requires Fits(c, p.ask) && p.entry.At?
    ensures RunOps(c, p, [PromoteBlockFromBackend(true), WriteBlockToCache(false), UpdateCacheMeta(Flushed), UpdateLRU,
                          BlockRequestComplete], l) ==
            l.(buf := l.back, data := l.back, stat := Flushed, clean := true, dirty := false,
               word := Word(Flushed, p.entry.e),
               out := l.out + [Reading(p.ask.rid, p.ask.f, l.back)])
  {
    RunsInSteps(c, p, [PromoteBlockFromBackend(true), WriteBlockToCache(false), UpdateCacheMeta(Flushed), UpdateLRU,
                       BlockRequestComplete], l);
  }

  lemma WriteMeaning(c: Config, p: Plan, l: Local)
    requires Fits(c, p.ask) && |c.hole| == c.bs && Tidy(c, l) && Expects(p, l.entry, Filled(l)) && p.ask.io == Write
    ensures |View(l)| == c.bs && Achieves(c, p, l, RunOps(c, p, Compile(c, p), l))
  {
    RunsInSteps(c, p, Compile(c, p), l);
    assert Overwrite(l.back, 0, p.ask.bytes) == p.ask.bytes;
  }

  lemma FlushMeaning(c: Config, p: Plan, l: Local)
    requires Fits(c, p.ask) && |c.hole| == c.bs && Tidy(c, l) && Expects(p, l.entry, Filled(l)) && p.ask.io == Flush
    ensures |View(l)| == c.bs && Achieves(c, p, l, RunOps(c, p, Compile(c, p), l))
  {
    RunsInSteps(c, p, Compile(c, p), l);
  }

  lemma OtherMeaning(c: Config, p: Plan, l: Local)
    requires Fits(c, p.ask) && |c.hole| == c.bs && Tidy(c, l) && Expects(p, l.entry, Filled(l)) && p.ask.io == Other
    ensures |View(l)| == c.bs && Achieves(c, p, l, RunOps(c, p, Compile(c, p), l))
  {
    RunsInSteps(c, p, Compile(c, p), l);
  }

  /** The common end of the chains that give the entry back. */
  function DropTail(): seq<Op> {
    [DemoteBlockToCache, ResetCacheEntry, ClearCacheMeta, UnlinkLRU, ReleaseDiscardBlock, BlockRequestComplete]
  }

  lemma RunDropTail(c: Config, p: Plan, l: Local)
    requires Fits(c, p.ask)
    ensures RunOps(c, p, DropTail(), l) ==
            l.(data := [], stat := Unpromoted, entry := Null, clean := false, dirty := false, word := NO_WORD)
  {
    hide Overwrite;
    RunsInSteps(c, p, DropTail(), l);
  }

  lemma RunDrop(c: Config, p: Plan, op: Op, l: Local)
    requires Fits(c, p.ask)
    ensures RunOps(c, p, [op] + DropTail(), l) ==
            Perform(c, p, op, l).(data := [], stat := Unpromoted, entry := Null, clean := false, dirty := false,
                                  word := NO_WORD)
  {
    hide Perform;
    RunDropTail(c, p, Perform(c, p, op, l));
    assert ([op] + DropTail())[1..] == DropTail();
  }

  /** The entry that is given back is blank. */
  lemma DroppedIsBlank(c: Config, p: Plan, l: Local)
    requires Fits(c, p.ask) && Drops(p)
    ensures |Compile(c, p)| == 7 && Compile(c, p)[4] == UnlinkLRU
    ensures var n := RunOps(c, p, Compile(c, p)[..4], l); n.data == c.hole && n.stat == Unpromoted && n.word == NO_WORD
  {
    hide Overwrite;
    var ops := Compile(c, p)[..4];
    assert ops == [Compile(c, p)[0], DemoteBlockToCache, ResetCacheEntry, ClearCacheMeta];
    RunsInSteps(c, p, ops, l);
  }

  lemma DemoteMeaning(c: Config, p: Plan, l: Local)
    requires Fits(c, p.ask) && |c.hole| == c.bs && Tidy(c, l) && Expects(p, l.entry, Filled(l)) && p.ask.io == Demote
    ensures |View(l)| == c.bs && Achieves(c, p, l, RunOps(c, p, Compile(c, p), l))
  {
    hide Overwrite, RunOps;
    if p.entry.Null? {
      RunsInSteps(c, p, Compile(c, p), l);
    } else {
      assert Compile(c, p) == [FlushBlockToBackend] + DropTail();
      RunDrop(c, p, FlushBlockToBackend, l);
    }
  }

  lemma DiscardMeaning(c: Config, p: Plan, l: Local)
    requires Fits(c, p.ask) && |c.hole| == c.bs && Tidy(c, l) && Expects(p, l.entry, Filled(l)) && p.ask.io == Discard
    ensures |View(l)| == c.bs && Achieves(c, p, l, RunOps(c, p, Compile(c, p), l))
  {
    hide Overwrite, RunOps;
    if p.entry.Null? {
      RunsInSteps(c, p, Compile(c, p), l);
    } else {
      assert Compile(c, p) == [DiscardBlockToBackend] + DropTail();
      RunDrop(c, p, DiscardBlockToBackend, l);
    }
  }

  /** Up to seven operations, spelled out. */
  lemma RunsInSteps(c: Config, p: Plan, ops: seq<Op>, l: Local)
    requires Fits(c, p.ask) && 1 <= |ops| <= 7
    ensures var l1 := Perform(c, p, ops[0], l);
            RunOps(c, p, ops, l) ==
            if |ops| == 1 then l1 else
            var l2 := Perform(c, p, ops[1], l1);
            if |ops| == 2 then l2 else
            var l3 := Perform(c, p, ops[2], l2);
            if |ops| == 3 then l3 else
            var l4 := Perform(c, p, ops[3], l3);
            if |ops| == 4 then l4 else
            var l5 := Perform(c, p, ops[4], l4);
            if |ops| == 5 then l5 else
            var l6 := Perform(c, p, ops[5], l5);
            if |ops| == 6 then l6 else Perform(c, p, ops[6], l6)
  {
    hide Perform;
    if |ops| > 1 {
      RunsInSteps(c, p, ops[1..], Perform(c, p, ops[0], l));
    }
  }
}
