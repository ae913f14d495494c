/** The cache volume: entries, stores and lists shared by all blocks, and its two kinds of
    step, mapping a request and running one operation of a block's chain. */
module CacheMachine {
  import opened Basics
  import opened Volume
  import opened Lru
  import opened CacheChain
  import opened CacheBlock

  /** `stat` and `data` are indexed by entry, `back`, `words` and `blocks` by block; `free` lists
      entries, `clean` and `dirty` list blocks, the most recently used first. */
  datatype State = State(stat: seq<Status>, data: seq<seq<Byte>>, back: seq<seq<Byte>>,
                         words: seq<Word>, free: seq<nat>, clean: seq<nat>, dirty: seq<nat>, blocks: seq<Blk>)

  /** A dropped entry is on its way to the free list. */
  predicate InFlight(blk: Blk) {
    blk.entry.Null? && blk.jobs != [] && Drops(blk.jobs[0]) && (blk.pc == 3 || blk.pc == 4)
  }

  /** The entry that belongs to the block. */
  function Held(blk: Blk): EntryPtr {
    if blk.entry.At? then blk.entry else if InFlight(blk) then blk.jobs[0].entry else Null
  }

  ghost predicate InRange(st: State, blk: Blk) {
    && (blk.entry.At? ==> blk.entry.e < |st.stat|)
    && forall i :: 0 <= i < |blk.jobs| && blk.jobs[i].entry.At? ==> blk.jobs[i].entry.e < |st.stat|
  }

  ghost predicate Sized(st: State) {
    && |st.stat| == |st.data| && |st.back| == |st.blocks| == |st.words|
    && forall b :: 0 <= b < |st.blocks| ==> InRange(st, st.blocks[b])
  }

  /** The block's own part of the state, read through entry pointer `p`. */
  function Through(st: State, b: nat, p: EntryPtr): Local
    requires b < |st.blocks| == |st.back| == |st.words| && |st.stat| == |st.data| && (p.At? ==> p.e < |st.stat|)
  {
    var blk := st.blocks[b];
    Local(blk.entry, if p.At? then st.stat[p.e] else Unpromoted, if p.At? then st.data[p.e] else [], st.back[b],
          blk.buf, blk.out, b in st.clean, b in st.dirty, st.words[b])
  }

  lemma HeldInRange(st: State, b: nat)
    requires Sized(st) && b < |st.blocks|
    ensures Held(st.blocks[b]).At? ==> Held(st.blocks[b]).e < |st.stat|
  {
    assert InRange(st, st.blocks[b]);
  }

  function Loc(st: State, b: nat): Local
    requires Sized(st) && b < |st.blocks|
  {
    HeldInRange(st, b);
    Through(st, b, Held(st.blocks[b]))
  }

  predicate Runnable(c: Config, blk: Blk) {
    blk.jobs != [] && blk.pc < |Compile(c, blk.jobs[0])|
  }

  /** One operation of the chain in hand, on the entry fixed when the chain was built. */
  function Stepped(c: Config, st: State, b: nat): State
    requires Sized(st) && b < |st.blocks| && Runnable(c, st.blocks[b]) && Fits(c, st.blocks[b].jobs[0].ask)
  {
    var blk := st.blocks[b];
    var p := blk.jobs[0];
    var op := Compile(c, p)[blk.pc];
    assert InRange(st, blk);
    var n := Perform(c, p, op, Through(st, b, p.entry));
    State(if p.entry.At? then st.stat[p.entry.e := n.stat] else st.stat,
          if p.entry.At? && op != UnlinkLRU then st.data[p.entry.e := n.data] else st.data,
          st.back[b := n.back], st.words[b := n.word],
          if op == UnlinkLRU && p.entry.At? then Touched(st.free, p.entry.e) else st.free,
          match op
          case UpdateLRU => if n.stat == Dirty then Without(st.clean, b) else Touched(st.clean, b)
          case UnlinkLRU => Without(st.clean, b)
          case _ => st.clean,
          match op
          case UpdateLRU => if n.stat == Dirty then Touched(st.dirty, b) else Without(st.dirty, b)
          case UnlinkLRU => Without(st.dirty, b)
          case _ => st.dirty,
          st.blocks[b := Ran(c, blk, n.entry, n.buf, n.out)])
  }

  /** A request can be mapped: no discard holds the block back, and a miss finds a free entry. */
  ghost predicate CanMap(c: Config, st: State, b: nat, a: Ask) {
    b < |st.blocks| && !st.blocks[b].discarding && Fits(c, a) && (Misses(st.blocks[b], a) ==> st.free != [])
  }

  function Mapped(st: State, b: nat, a: Ask): State
    requires b < |st.blocks| && (Misses(st.blocks[b], a) ==> st.free != [])
  {
    if Misses(st.blocks[b], a) then
      st.(free := Without(st.free, st.free[0]), blocks := st.blocks[b := Queued(st.blocks[b], a, st.free[0])])
    else st.(blocks := st.blocks[b := Queued(st.blocks[b], a, 0)])
  }

  /* ---- who has which entry ---- */

  ghost predicate Apart(p: EntryPtr, q: EntryPtr) {
    p.At? && q.At? ==> p.e != q.e
  }

  ghost predicate HasOwner(st: State, e: nat) {
    exists b :: 0 <= b < |st.blocks| && Held(st.blocks[b]) == At(e)
  }

  /** Every entry is free or belongs to one block. */
  ghost predicate Owned(st: State) {
    && Sized(st) && Distinct(st.free) && Distinct(st.clean) && Distinct(st.dirty)
    && (forall e :: e in st.free ==> e < |st.stat| && st.stat[e] == Unpromoted)
    && (forall b :: 0 <= b < |st.blocks| && Held(st.blocks[b]).At? ==> Held(st.blocks[b]).e !in st.free)
    && (forall b, x :: 0 <= b < x < |st.blocks| ==> Apart(Held(st.blocks[b]), Held(st.blocks[x])))
    && (forall e :: 0 <= e < |st.stat| ==> e in st.free || HasOwner(st, e))
  }

  /* ---- a step, seen from each block ---- */

  /** Operations that look at or change the entry. */
  predicate UsesEntry(op: Op) {
    match op
    case ReadBlockFromCache(_) => true
    case WriteBlockToCache(_) => true
    case UpdateCacheMeta(_) => true
    case UpdateLRU => true
    case FlushBlockToBackend => true
    case DemoteBlockToCache => true
    case ResetCacheEntry => true
    case UnlinkLRU => true
    case _ => false
  }

  /** An operation that uses the entry finds it held by the block. */
  lemma UsedIsHeld(c: Config, blk: Blk)
    requires Shaped(c, blk) && InHand(blk) && blk.jobs != [] && UsesEntry(Compile(c, blk.jobs[0])[blk.pc])
    ensures blk.jobs[0].entry.At? && Held(blk) == blk.jobs[0].entry
  {
    assert PlanOk(blk.jobs[0]);
  }

  /** Only the last operation on a dropped entry lets go of it. */
  lemma HeldAfter(c: Config, blk: Blk, entry: EntryPtr, buf: seq<Byte>, out: seq<Reading>)
    requires Shaped(c, blk) && InHand(blk) && blk.jobs != []
    requires entry == if Compile(c, blk.jobs[0])[blk.pc] == ResetCacheEntry then Null else blk.entry
    ensures Held(Ran(c, blk, entry, buf, out)) ==
            if Compile(c, blk.jobs[0])[blk.pc] == UnlinkLRU then Null else Held(blk)
  {
    OpFacts(c, blk.jobs[0], blk.pc);
  }
}
