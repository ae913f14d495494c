/** One block of the cache volume: the chains queued on it and the invariant they keep. */
module CacheBlock {
  import opened Volume
  import opened CacheChain

  /** A block: its entry pointer, the discard flag that holds back further mapping, the chains
      mapped and not finished with the position in the first, its scratch buffer and the reads
      it delivered; `hist` lists what was ever mapped to it. */
  datatype Blk = Blk(entry: EntryPtr, discarding: bool, jobs: seq<Plan>, pc: nat, buf: seq<Byte>,
                     out: seq<Reading>, hist: seq<Ask>)

  ghost predicate ConfigOk(c: Config) {
    c.bs > 0 && |c.hole| == c.bs
  }

  ghost predicate AllFit(c: Config, h: seq<Ask>) {
    forall i :: 0 <= i < |h| ==> Fits(c, h[i])
  }

  /** The reference after a list of requests. */
  ghost function After(c: Config, o: Outside, h: seq<Ask>): (n: Outside)
    requires ConfigOk(c) && |o.bytes| == c.bs && AllFit(c, h)
    ensures |n.bytes| == c.bs
  {
    if h == [] then o else Meant(c, h[|h| - 1], After(c, o, h[..|h| - 1]))
  }

  /** The queued chains will find the entry as they expect it, one after the other. */
  ghost predicate Queue(entry: EntryPtr, filled: bool, js: seq<Plan>)
    decreases |js|
  {
    js != [] ==>
      Expects(js[0], entry, filled) && Queue(EntryAfter(js[0], entry), FilledAfter(js[0], filled), js[1..])
  }

  /** The entry after all of them, and whether it is filled. */
  ghost function QueueEnd(entry: EntryPtr, filled: bool, js: seq<Plan>): (EntryPtr, bool)
    decreases |js|
  {
    if js == [] then (entry, filled)
    else QueueEnd(EntryAfter(js[0], entry), FilledAfter(js[0], filled), js[1..])
  }

  /** Chains whose mapping raises the discard flag. */
  predicate Locks(p: Plan) {
    p.ask.io == Discard || (p.ask.io == Demote && p.entry.At?)
  }

  predicate PlanOk(p: Plan) {
    p.ask.io == Read || p.ask.io == Write ==> p.entry.At?
  }

  /** A chain in the queue holds the discard flag until its release operation has run. */
  ghost predicate Holding(c: Config, blk: Blk, i: int) {
    && 0 <= i < |blk.jobs| && Locks(blk.jobs[i])
    && (i == 0 ==> blk.pc + 1 < |Compile(c, blk.jobs[0])|)
  }

  /** The chain in hand works on the block's entry; a chain that drops it does so up to its
      third operation. */
  ghost predicate InHand(blk: Blk) {
    blk.jobs != [] && blk.jobs[0].entry.At? ==>
      var p := blk.jobs[0];
      if Drops(p) then (blk.pc <= 2 ==> blk.entry == p.entry) && (3 <= blk.pc <= 5 ==> blk.entry == Null)
      else blk.entry == p.entry
  }

  ghost predicate Shaped(c: Config, blk: Blk) {
    && (if blk.jobs == [] then blk.pc == 0 else blk.pc < |Compile(c, blk.jobs[0])|)
    && |blk.jobs| <= |blk.hist| && AllFit(c, blk.hist)
    && forall i :: 0 <= i < |blk.jobs| ==>
         PlanOk(blk.jobs[i]) && blk.jobs[i].ask == blk.hist[|blk.hist| - |blk.jobs| + i]
  }

  /** The number of requests the block is through with. */
  function Done(blk: Blk): int {
    |blk.hist| - |blk.jobs|
  }

  /** What the block is when the chain in hand is finished. */
  ghost function Soon(c: Config, blk: Blk, l: Local): Local
    requires Shaped(c, blk) && blk.jobs != []
  {
    assert Fits(c, blk.hist[|blk.hist| - |blk.jobs| + 0]);
    RunOps(c, blk.jobs[0], Compile(c, blk.jobs[0])[blk.pc..], l)
  }

  /** A local state between chains, after `k` requests, with `js` to come. */
  ghost predicate Rests(c: Config, blk: Blk, o: Outside, l: Local, k: int, js: seq<Plan>)
    requires ConfigOk(c) && |o.bytes| == c.bs
  {
    && 0 <= k <= |blk.hist| && AllFit(c, blk.hist[..k])
    && Tidy(c, l) && Seen(l) == After(c, o, blk.hist[..k])
    && Queue(l.entry, Filled(l), js)
    && QueueEnd(l.entry, Filled(l), js) == if blk.discarding then (Null, false) else (blk.entry, blk.entry.At?)
  }

  /** The scratch buffer of a partial read is filled and not yet used up. */
  predicate BufferInUse(c: Config, p: Plan, pc: nat) {
    p.ask.io == Read && p.ask.f.size < c.bs && (pc == 1 || (p.miss && pc == 2))
  }

  /** Stores and buffers hold whole blocks where an operation reads them. */
  ghost predicate Stocked(c: Config, blk: Blk, l: Local) {
    && |l.back| == c.bs
    && (blk.jobs != [] && BufferInUse(c, blk.jobs[0], blk.pc) ==> |l.buf| == c.bs)
  }

  /** The invariant of one block; `o` is the block seen from outside before the run. */
  ghost predicate BlkOk(c: Config, blk: Blk, l: Local, o: Outside)
    requires ConfigOk(c)
  {
    && |o.bytes| == c.bs && Shaped(c, blk) && InHand(blk) && Stocked(c, blk, l) && l.entry == blk.entry
    && (blk.discarding <==> Holding(c, blk, |blk.jobs| - 1))
    && (forall i :: Holding(c, blk, i) ==> i == |blk.jobs| - 1)
    && (blk.pc == 0 ==> Rests(c, blk, o, l, Done(blk), blk.jobs))
    && (blk.jobs != [] ==> Rests(c, blk, o, Soon(c, blk, l), Done(blk) + 1, blk.jobs[1..]))
  }

  /* ---- the queue ---- */

  lemma {:induction false} QueueAppend(entry: EntryPtr, filled: bool, js: seq<Plan>, p: Plan)
    requires Queue(entry, filled, js)
    requires var (en, f) := QueueEnd(entry, filled, js); Expects(p, en, f)
    ensures Queue(entry, filled, js + [p])
    ensures var (en, f) := QueueEnd(entry, filled, js);
            QueueEnd(entry, filled, js + [p]) == (EntryAfter(p, en), FilledAfter(p, f))
    decreases |js|
  {
    hide Expects, EntryAfter, FilledAfter;
    if js == [] {
      assert (js + [p])[1..] == [];
    } else {
      assert (js + [p])[1..] == js[1..] + [p];
      QueueAppend(EntryAfter(js[0], entry), FilledAfter(js[0], filled), js[1..], p);
    }
  }

  /** Chains queued on a block without an entry do not mind that it gets an empty one. */
  lemma {:induction false} QueueOfNull(js: seq<Plan>, e: nat)
    requires Queue(Null, false, js) && forall i :: 0 <= i < |js| ==> PlanOk(js[i])
    ensures Queue(At(e), false, js) && QueueEnd(At(e), false, js) == (At(e), false)
    ensures QueueEnd(Null, false, js) == (Null, false)
    decreases |js|
  {
    if js != [] {
      assert PlanOk(js[0]);
      QueueOfNull(js[1..], e);
    }
  }

  /* ---- running ---- */

  lemma {:induction false} AfterNext(c: Config, o: Outside, h: seq<Ask>, k: nat)
    requires ConfigOk(c) && |o.bytes| == c.bs && AllFit(c, h) && k < |h|
    ensures AllFit(c, h[..k]) && AllFit(c, h[..k + 1])
    ensures After(c, o, h[..k + 1]) == Meant(c, h[k], After(c, o, h[..k]))
  {
    assert h[..k + 1][..k] == h[..k];
  }

  /** A chain about to start ends between chains again. */
  lemma StartsWell(c: Config, blk: Blk, l: Local, o: Outside)
    requires ConfigOk(c) && |o.bytes| == c.bs && Shaped(c, blk) && blk.jobs != [] && blk.pc == 0
    requires Rests(c, blk, o, l, Done(blk), blk.jobs)
    ensures Rests(c, blk, o, Soon(c, blk, l), Done(blk) + 1, blk.jobs[1..])
  {
    hide RunOps, Compile, Tidy, Meant, Fits, View, EntryAfter, FilledAfter, After;
    var p, k := blk.jobs[0], Done(blk);
    assert PlanOk(blk.jobs[0]) && p.ask == blk.hist[k + 0];
    assert Fits(c, p.ask);
    AfterNext(c, o, blk.hist, k);
    assert Compile(c, p)[0..] == Compile(c, p);
    ChainMeaning(c, p, l);
  }

  /** The block after one operation; `entry`, `buf` and `out` come from the operation. */
  function Ran(c: Config, blk: Blk, entry: EntryPtr, buf: seq<Byte>, out: seq<Reading>): Blk
    requires blk.jobs != [] && blk.pc < |Compile(c, blk.jobs[0])|
  {
    var next := blk.(entry := entry, buf := buf, out := out,
                     discarding := blk.discarding && Compile(c, blk.jobs[0])[blk.pc] != ReleaseDiscardBlock);
    if blk.pc + 1 < |Compile(c, blk.jobs[0])| then next.(pc := blk.pc + 1) else next.(pc := 0, jobs := blk.jobs[1..])
  }

  lemma SoonStep(c: Config, blk: Blk, l: Local)
    requires Shaped(c, blk) && blk.jobs != []
    ensures Fits(c, blk.jobs[0].ask)
    ensures var n := Perform(c, blk.jobs[0], Compile(c, blk.jobs[0])[blk.pc], l);
            && Soon(c, blk, l) == RunOps(c, blk.jobs[0], Compile(c, blk.jobs[0])[blk.pc + 1..], n)
            && (blk.pc + 1 == |Compile(c, blk.jobs[0])| ==> Soon(c, blk, l) == n)
  {
    hide Perform, Compile, Fits;
    assert blk.jobs[0].ask == blk.hist[|blk.hist| - |blk.jobs| + 0];
    var ops := Compile(c, blk.jobs[0]);
    assert ops[blk.pc..][0] == ops[blk.pc] && ops[blk.pc..][1..] == ops[blk.pc + 1..];
    if blk.pc + 1 == |ops| {
      assert ops[blk.pc + 1..] == [];
    }
  }

  /** Where the operations of a chain stand. */
  lemma OpFacts(c: Config, p: Plan, i: nat)
    requires i < |Compile(c, p)|
    ensures Compile(c, p)[i] == BlockRequestComplete <==> i == |Compile(c, p)| - 1
    ensures Compile(c, p)[i] == ReleaseDiscardBlock <==> Locks(p) && i == |Compile(c, p)| - 2
    ensures Compile(c, p)[i] == ResetCacheEntry <==> Drops(p) && i == 2
    ensures Drops(p) ==> |Compile(c, p)| == 7 && Locks(p)
  {
  }

  lemma LockingIsLong(c: Config, p: Plan)
    ensures |Compile(c, p)| >= 1 && (Locks(p) ==> |Compile(c, p)| >= 3)
  {
  }

  lemma PerformEntry(c: Config, p: Plan, op: Op, l: Local)
    requires Fits(c, p.ask)
    ensures Perform(c, p, op, l).entry == if op == ResetCacheEntry then Null else l.entry
    ensures op == BlockRequestComplete || op == ReleaseDiscardBlock ==> Perform(c, p, op, l) == l
  {
  }

  lemma RanShaped(c: Config, blk: Blk, entry: EntryPtr, buf: seq<Byte>, out: seq<Reading>)
    requires Shaped(c, blk) && blk.jobs != []
    ensures Shaped(c, Ran(c, blk, entry, buf, out))
  {
    hide Fits, PlanOk;
    var m := Ran(c, blk, entry, buf, out);
    if m.jobs != blk.jobs {
      forall i | 0 <= i < |m.jobs|
        ensures PlanOk(m.jobs[i]) && m.jobs[i].ask == m.hist[|m.hist| - |m.jobs| + i]
      {
        assert m.jobs[i] == blk.jobs[i + 1];
      }
    }
  }

  /** The flag follows the chains that hold it. */
  lemma RanHolding(c: Config, blk: Blk, entry: EntryPtr, buf: seq<Byte>, out: seq<Reading>)
    requires Shaped(c, blk) && blk.jobs != []
    requires blk.discarding <==> Holding(c, blk, |blk.jobs| - 1)
    requires forall i :: Holding(c, blk, i) ==> i == |blk.jobs| - 1
    ensures var m := Ran(c, blk, entry, buf, out);
            && (m.discarding <==> Holding(c, m, |m.jobs| - 1))
            && (forall i :: Holding(c, m, i) ==> i == |m.jobs| - 1)
  {
    hide Compile, Locks, Fits, PlanOk;
    var m := Ran(c, blk, entry, buf, out);
    OpFacts(c, blk.jobs[0], blk.pc);
    if blk.pc + 1 < |Compile(c, blk.jobs[0])| {
      HoldingWithin(c, blk, m);
    } else {
      HoldingNext(c, blk, m);
    }
  }

  lemma HoldingWithin(c: Config, blk: Blk, m: Blk)
    requires blk.jobs != [] && m.jobs == blk.jobs && m.pc == blk.pc + 1 < |Compile(c, blk.jobs[0])|
    requires blk.discarding <==> Holding(c, blk, |blk.jobs| - 1)
    requires forall i :: Holding(c, blk, i) ==> i == |blk.jobs| - 1
    requires m.discarding == (blk.discarding && !(Locks(blk.jobs[0]) && blk.pc == |Compile(c, blk.jobs[0])| - 2))
    ensures m.discarding <==> Holding(c, m, |m.jobs| - 1)
    ensures forall i :: Holding(c, m, i) ==> i == |m.jobs| - 1
  {
    hide Compile, Locks;
    assert forall i :: Holding(c, m, i) ==> Holding(c, blk, i);
    if Locks(blk.jobs[0]) {
      assert Holding(c, blk, 0);
    }
  }

  lemma HoldingNext(c: Config, blk: Blk, m: Blk)
    requires blk.jobs != [] && m.jobs == blk.jobs[1..] && m.pc == 0 && blk.pc + 1 == |Compile(c, blk.jobs[0])|
    requires blk.discarding <==> Holding(c, blk, |blk.jobs| - 1)
    requires forall i :: Holding(c, blk, i) ==> i == |blk.jobs| - 1
    requires m.discarding == blk.discarding
    ensures m.discarding <==> Holding(c, m, |m.jobs| - 1)
    ensures forall i :: Holding(c, m, i) ==> i == |m.jobs| - 1
  {
    hide Compile, Locks;
    forall i | Holding(c, m, i) ensures Holding(c, blk, i + 1) {
    }
    if |m.jobs| > 0 {
      LockingIsLong(c, m.jobs[0]);
    }
  }

  lemma RanStocked(c: Config, blk: Blk, l: Local, o: Outside)
    requires ConfigOk(c) && BlkOk(c, blk, l, o) && blk.jobs != []
    ensures Fits(c, blk.jobs[0].ask)
    ensures var n := Perform(c, blk.jobs[0], Compile(c, blk.jobs[0])[blk.pc], l);
            Stocked(c, Ran(c, blk, n.entry, n.buf, n.out), n)
  {
    hide Queue, QueueEnd, After, Holding, InHand, Soon, View;
    var p := blk.jobs[0];
    assert p.ask == blk.hist[|blk.hist| - |blk.jobs| + 0];
    assert Fits(c, p.ask);
    if blk.pc == 0 {
      FirstExpects(l.entry, Filled(l), blk.jobs);
    }
    PerformStocks(c, p, blk.pc, l);
  }

  lemma FirstExpects(entry: EntryPtr, filled: bool, js: seq<Plan>)
    requires Queue(entry, filled, js) && js != []
    ensures Expects(js[0], entry, filled)
  {
  }

  lemma BackIsStocked(c: Config, p: Plan, pc: nat, l: Local)
    requires ConfigOk(c) && Fits(c, p.ask) && pc < |Compile(c, p)| && |l.back| == c.bs
    requires pc == 0 ==> Tidy(c, l) && Expects(p, l.entry, Filled(l))
    ensures |Perform(c, p, Compile(c, p)[pc], l).back| == c.bs
  {
    if Compile(c, p)[pc] == FlushBlockToBackend {
      FlushIsFirst(c, p, pc);
    }
    hide Compile;
  }

  lemma FlushIsFirst(c: Config, p: Plan, pc: nat)
    requires pc < |Compile(c, p)| && Compile(c, p)[pc] == FlushBlockToBackend
    ensures pc == 0
  {
  }

  lemma BufferIsStocked(c: Config, p: Plan, pc: nat, l: Local)
    requires ConfigOk(c) && Fits(c, p.ask) && pc < |Compile(c, p)| && |l.back| == c.bs
    requires pc == 0 ==> Tidy(c, l) && Expects(p, l.entry, Filled(l))
    requires BufferInUse(c, p, pc) ==> |l.buf| == c.bs
    ensures BufferInUse(c, p, pc + 1) ==> |Perform(c, p, Compile(c, p)[pc], l).buf| == c.bs
  {
    hide Overwrite;
    if p.ask.io == Read {
    }
  }

  lemma PerformStocks(c: Config, p: Plan, pc: nat, l: Local)
    requires ConfigOk(c) && Fits(c, p.ask) && pc < |Compile(c, p)| && |l.back| == c.bs
    requires pc == 0 ==> Tidy(c, l) && Expects(p, l.entry, Filled(l))
    requires BufferInUse(c, p, pc) ==> |l.buf| == c.bs
    ensures var n := Perform(c, p, Compile(c, p)[pc], l);
            |n.back| == c.bs && (BufferInUse(c, p, pc + 1) ==> |n.buf| == c.bs)
  {
    hide Compile, Perform, Fits, Tidy, Expects, BufferInUse;
    BackIsStocked(c, p, pc, l);
    BufferIsStocked(c, p, pc, l);
  }

  lemma WithinInHand(c: Config, blk: Blk, entry: EntryPtr, buf: seq<Byte>, out: seq<Reading>)
    requires Shaped(c, blk) && InHand(blk) && blk.jobs != [] && blk.pc + 1 < |Compile(c, blk.jobs[0])|
    requires entry == if Compile(c, blk.jobs[0])[blk.pc] == ResetCacheEntry then Null else blk.entry
    ensures InHand(Ran(c, blk, entry, buf, out))
  {
    hide Compile, Shaped;
    OpFacts(c, blk.jobs[0], blk.pc);
  }

  lemma WithinRests(c: Config, blk: Blk, l: Local, o: Outside, entry: EntryPtr, buf: seq<Byte>, out: seq<Reading>)
    requires ConfigOk(c) && BlkOk(c, blk, l, o) && blk.jobs != [] && blk.pc + 1 < |Compile(c, blk.jobs[0])|
    requires entry == if Compile(c, blk.jobs[0])[blk.pc] == ResetCacheEntry then Null else blk.entry
    ensures var m := Ran(c, blk, entry, buf, out);
            m.jobs == blk.jobs && m.pc == blk.pc + 1 && Rests(c, m, o, Soon(c, blk, l), Done(m) + 1, m.jobs[1..])
  {
    hide Compile, Shaped, Fits, Tidy, After, Queue, View, InHand, Stocked, Soon;
    OpFacts(c, blk.jobs[0], blk.pc);
    var op := Compile(c, blk.jobs[0])[blk.pc];
    if op == ResetCacheEntry || op == ReleaseDiscardBlock {
      assert Holding(c, blk, 0);
      if op == ReleaseDiscardBlock {
        ReleaseIsNearEnd(c, blk, l);
      }
    }
  }

  /** Within a chain. */
  lemma RanWithin(c: Config, blk: Blk, l: Local, o: Outside)
    requires ConfigOk(c) && BlkOk(c, blk, l, o) && blk.jobs != [] && blk.pc + 1 < |Compile(c, blk.jobs[0])|
    ensures Fits(c, blk.jobs[0].ask)
    ensures var n := Perform(c, blk.jobs[0], Compile(c, blk.jobs[0])[blk.pc], l);
            BlkOk(c, Ran(c, blk, n.entry, n.buf, n.out), n, o)
  {
    hide Stocked, Perform, Compile, Fits, Rests, InHand, Ran, PlanOk;
    SoonStep(c, blk, l);
    var p := blk.jobs[0];
    var n := Perform(c, p, Compile(c, p)[blk.pc], l);
    var m := Ran(c, blk, n.entry, n.buf, n.out);
    PerformEntry(c, p, Compile(c, p)[blk.pc], l);
    RanShaped(c, blk, n.entry, n.buf, n.out);
    RanStocked(c, blk, l, o);
    RanHolding(c, blk, n.entry, n.buf, n.out);
    RanEntry(c, blk, n.entry, n.buf, n.out);
    WithinInHand(c, blk, n.entry, n.buf, n.out);
    WithinRests(c, blk, l, o, n.entry, n.buf, n.out);
  }

  lemma RanEntry(c: Config, blk: Blk, entry: EntryPtr, buf: seq<Byte>, out: seq<Reading>)
    requires Shaped(c, blk) && blk.jobs != []
    ensures Ran(c, blk, entry, buf, out).entry == entry
  {
  }

  /** Only the completion follows a release. */
  lemma ReleaseIsNearEnd(c: Config, blk: Blk, l: Local)
    requires Shaped(c, blk) && blk.jobs != [] && Compile(c, blk.jobs[0])[blk.pc] == ReleaseDiscardBlock
    ensures Soon(c, blk, l) == l
  {
    hide Fits;
    SoonStep(c, blk, l);
    OpFacts(c, blk.jobs[0], blk.pc);
    OpFacts(c, blk.jobs[0], blk.pc + 1);
    CompletionIsEnd(c, blk.(pc := blk.pc + 1), l);
  }

  /** The chain in hand is at its completion, or does nothing anyway. */
  predicate NothingLeft(c: Config, blk: Blk)
    requires blk.jobs != []
  {
    blk.pc + 1 == |Compile(c, blk.jobs[0])| || blk.jobs[0].ask.io == Other
  }

  lemma CompletionIsEnd(c: Config, blk: Blk, l: Local)
    requires Shaped(c, blk) && blk.jobs != [] && NothingLeft(c, blk)
    ensures Soon(c, blk, l) == l
  {
    hide Fits;
    SoonStep(c, blk, l);
    OpFacts(c, blk.jobs[0], blk.pc);
    if blk.pc + 1 < |Compile(c, blk.jobs[0])| {
      RunsInSteps(c, blk.jobs[0], [BlockRequestComplete], l);
      assert Compile(c, blk.jobs[0])[1..] == [BlockRequestComplete];
    }
  }

  /** At the end of a chain. */
  lemma RanLast(c: Config, blk: Blk, l: Local, o: Outside)
    requires ConfigOk(c) && BlkOk(c, blk, l, o) && blk.jobs != [] && blk.pc + 1 == |Compile(c, blk.jobs[0])|
    ensures Fits(c, blk.jobs[0].ask)
    ensures var n := Perform(c, blk.jobs[0], Compile(c, blk.jobs[0])[blk.pc], l);
            BlkOk(c, Ran(c, blk, n.entry, n.buf, n.out), n, o)
  {
    hide Stocked, Perform, Compile, Fits, Tidy, After, View, PlanOk, Holding, Queue, QueueEnd;
    SoonStep(c, blk, l);
    var p := blk.jobs[0];
    var op := Compile(c, p)[blk.pc];
    var n := Perform(c, p, op, l);
    var m := Ran(c, blk, n.entry, n.buf, n.out);
    OpFacts(c, p, blk.pc);
    PerformEntry(c, p, op, l);
    RanShaped(c, blk, n.entry, n.buf, n.out);
    RanStocked(c, blk, l, o);
    RanHolding(c, blk, n.entry, n.buf, n.out);
    assert Rests(c, m, o, n, Done(m), m.jobs);
    if m.jobs != [] {
      StartsWell(c, m, n, o);
      QueuedEntry(n.entry, Filled(n), m.jobs);
    }
  }

  lemma QueuedEntry(entry: EntryPtr, filled: bool, js: seq<Plan>)
    requires Queue(entry, filled, js) && js != []
    ensures js[0].entry.At? ==> js[0].entry == entry
  {
  }

  /** One operation keeps the block's invariant. */
  lemma RanKeeps(c: Config, blk: Blk, l: Local, o: Outside)
    requires ConfigOk(c) && BlkOk(c, blk, l, o) && blk.jobs != []
    ensures Fits(c, blk.jobs[0].ask) && blk.pc < |Compile(c, blk.jobs[0])|
    ensures var n := Perform(c, blk.jobs[0], Compile(c, blk.jobs[0])[blk.pc], l);
            BlkOk(c, Ran(c, blk, n.entry, n.buf, n.out), n, o)
  {
    hide Compile, Perform, Ran, InHand, Rests, Holding, Fits, PlanOk;
    if blk.pc + 1 < |Compile(c, blk.jobs[0])| {
      RanWithin(c, blk, l, o);
    } else {
      RanLast(c, blk, l, o);
    }
  }

  /* ---- mapping ---- */

  /** The request needs an entry and the block has none. */
  predicate Misses(blk: Blk, a: Ask) {
    (a.io == Read || a.io == Write) && blk.entry.Null?
  }

  /** The plan `map` makes; `e` is the head of the free list, taken on a miss. */
  function PlanFor(blk: Blk, a: Ask, e: nat): Plan {
    if Misses(blk, a) then Plan(a, At(e), true) else Plan(a, blk.entry, false)
  }

  /** The block after `map`: the chain is queued, the entry taken, the flag raised. */
  function Queued(blk: Blk, a: Ask, e: nat): Blk {
    var p := PlanFor(blk, a, e);
    blk.(jobs := blk.jobs + [p], hist := blk.hist + [a], discarding := blk.discarding || Locks(p),
         entry := if Misses(blk, a) then At(e) else blk.entry)
  }

  lemma QueuedShaped(c: Config, blk: Blk, a: Ask, e: nat)
    requires Shaped(c, blk) && Fits(c, a)
    ensures Shaped(c, Queued(blk, a, e))
  {
    hide Fits;
    LockingIsLong(c, PlanFor(blk, a, e));
    var m := Queued(blk, a, e);
    forall i | 0 <= i < |m.jobs|
      ensures PlanOk(m.jobs[i]) && m.jobs[i].ask == m.hist[|m.hist| - |m.jobs| + i]
    {
      if i < |blk.jobs| {
        assert m.jobs[i] == blk.jobs[i];
      }
    }
  }

  lemma QueuedHolding(c: Config, blk: Blk, a: Ask, e: nat)
    requires Shaped(c, blk) && !blk.discarding && forall i :: !Holding(c, blk, i)
    ensures var m := Queued(blk, a, e);
            && (m.discarding <==> Holding(c, m, |m.jobs| - 1))
            && (forall i :: Holding(c, m, i) ==> i == |m.jobs| - 1)
  {
    hide Compile;
    LockingIsLong(c, PlanFor(blk, a, e));
    var m := Queued(blk, a, e);
    forall i | Holding(c, m, i) ensures i == |m.jobs| - 1 {
      assert !Holding(c, blk, i);
    }
  }

  lemma NoneHolding(c: Config, blk: Blk, l: Local, o: Outside)
    requires ConfigOk(c) && BlkOk(c, blk, l, o) && !blk.discarding
    ensures forall i :: !Holding(c, blk, i)
  {
    hide Holding, Rests;
  }

  /** A resting state with the new chain behind the others. */
  lemma RestsHit(c: Config, blk: Blk, o: Outside, l: Local, k: int, js: seq<Plan>, a: Ask, e: nat)
    requires ConfigOk(c) && |o.bytes| == c.bs && Rests(c, blk, o, l, k, js) && !blk.discarding && !Misses(blk, a)
    ensures Rests(c, Queued(blk, a, e), o, l, k, js + [PlanFor(blk, a, e)])
  {
    hide Tidy, After, Fits, View, Queue, QueueEnd;
    assert (blk.hist + [a])[..k] == blk.hist[..k];
    QueueAppend(l.entry, Filled(l), js, PlanFor(blk, a, e));
  }

  /** The same for a block that gets an empty entry. */
  lemma RestsMiss(c: Config, blk: Blk, o: Outside, l: Local, n: Local, k: int, js: seq<Plan>, a: Ask, e: nat)
    requires ConfigOk(c) && |o.bytes| == c.bs && Rests(c, blk, o, l, k, js) && !blk.discarding && Misses(blk, a)
    requires l.entry == Null && n.entry == At(e) && n == l.(entry := At(e), stat := Unpromoted, data := n.data)
    requires forall i :: 0 <= i < |js| ==> PlanOk(js[i])
    ensures Rests(c, Queued(blk, a, e), o, n, k, js + [PlanFor(blk, a, e)])
  {
    hide After, Fits, Queue, QueueEnd;
    assert (blk.hist + [a])[..k] == blk.hist[..k];
    QueueOfNull(js, e);
    QueueAppend(At(e), false, js, PlanFor(blk, a, e));
  }

  lemma SameSoon(c: Config, blk: Blk, m: Blk, l: Local)
    requires Shaped(c, blk) && Shaped(c, m) && blk.jobs != [] && m.jobs != []
    requires m.jobs[0] == blk.jobs[0] && m.pc == blk.pc
    ensures Soon(c, m, l) == Soon(c, blk, l)
  {
  }

  /** Mapping a request that finds what it needs keeps the block's invariant. */
  lemma MapKeepsHit(c: Config, blk: Blk, l: Local, o: Outside, a: Ask, e: nat)
    requires ConfigOk(c) && BlkOk(c, blk, l, o) && !blk.discarding && Fits(c, a) && !Misses(blk, a)
    ensures BlkOk(c, Queued(blk, a, e), l, o)
  {
    hide Rests, Fits, Holding, Compile, Soon, PlanOk, PlanFor;
    var m, p := Queued(blk, a, e), PlanFor(blk, a, e);
    NoneHolding(c, blk, l, o);
    QueuedShaped(c, blk, a, e);
    QueuedHolding(c, blk, a, e);
    QueuedInHand(c, blk, l, a, e);
    if blk.pc == 0 {
      RestsHit(c, blk, o, l, Done(blk), blk.jobs, a, e);
    }
    if blk.jobs == [] {
      StartsWell(c, m, l, o);
    } else {
      SameSoon(c, blk, m, l);
      RestsHit(c, blk, o, Soon(c, blk, l), Done(blk) + 1, blk.jobs[1..], a, e);
      assert m.jobs[1..] == blk.jobs[1..] + [p];
    }
  }

  lemma QueuedInHand(c: Config, blk: Blk, l: Local, a: Ask, e: nat)
    requires Shaped(c, blk) && InHand(blk) && !Misses(blk, a)
    ensures InHand(Queued(blk, a, e))
  {
  }

  /** A block without an entry and without the flag has nothing left to run that changes it. */
  lemma NullMeansComplete(c: Config, blk: Blk, l: Local, o: Outside)
    requires ConfigOk(c) && BlkOk(c, blk, l, o) && !blk.discarding && blk.entry == Null && blk.jobs != []
    ensures NothingLeft(c, blk)
    ensures blk.jobs[0].entry.At? ==> Drops(blk.jobs[0]) && blk.pc == 6
  {
    hide Rests;
    NoneHolding(c, blk, l, o);
    assert !Holding(c, blk, 0) && PlanOk(blk.jobs[0]);
  }

  /** Mapping a request that takes a free entry keeps the block's invariant. */
  lemma MapKeepsMiss(c: Config, blk: Blk, l: Local, n: Local, o: Outside, a: Ask, e: nat)
    requires ConfigOk(c) && BlkOk(c, blk, l, o) && !blk.discarding && Fits(c, a) && Misses(blk, a)
    requires n.entry == At(e) && n == l.(entry := At(e), stat := Unpromoted, data := n.data)
    ensures BlkOk(c, Queued(blk, a, e), n, o)
  {
    hide Rests, Fits, Holding, Compile, Soon, PlanOk, PlanFor;
    var m, p := Queued(blk, a, e), PlanFor(blk, a, e);
    NoneHolding(c, blk, l, o);
    QueuedShaped(c, blk, a, e);
    QueuedHolding(c, blk, a, e);
    if blk.pc == 0 {
      RestsMiss(c, blk, o, l, n, Done(blk), blk.jobs, a, e);
    }
    if blk.jobs == [] {
      PlanOfMiss(blk, a, e);
      StartsWell(c, m, n, o);
    } else {
      NullMeansComplete(c, blk, l, o);
      CompletionIsEnd(c, blk, l);
      CompletionIsEnd(c, m, n);
      RestsMiss(c, blk, o, l, n, Done(blk) + 1, blk.jobs[1..], a, e);
      assert m.jobs[1..] == blk.jobs[1..] + [p];
    }
  }

  lemma PlanOfMiss(blk: Blk, a: Ask, e: nat)
    requires Misses(blk, a)
    ensures PlanFor(blk, a, e) == Plan(a, At(e), true) && !Drops(PlanFor(blk, a, e))
  {
  }
}
