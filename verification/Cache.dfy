/** Main results for the cache policy in write-back mode, over every interleaving of mapping
    and block work. */
module Cache {
  import opened Basics
  import opened Volume
  import opened CacheChain
  import opened CacheBlock
  import opened CacheMachine
  import opened CacheSteps
  import opened CacheOwners

  datatype Event = Map(b: nat, a: Ask) | Run(b: nat)

  /** The invariant; `os` are the blocks as seen from outside before the run. */
  ghost predicate Inv(c: Config, os: seq<Outside>, st: State) {
    && ConfigOk(c) && Owned(st) && |os| == |st.blocks|
    && forall b :: 0 <= b < |st.blocks| ==> BlkOk(c, st.blocks[b], Loc(st, b), os[b])
  }

  /** What a step needs to be defined. */
  ghost predicate Enabled(c: Config, st: State, e: Event) {
    match e
    case Map(b, a) => CanMap(c, st, b, a)
    case Run(b) => Sized(st) && b < |st.blocks| && Runnable(c, st.blocks[b]) && Fits(c, st.blocks[b].jobs[0].ask)
  }

  ghost function Next(c: Config, st: State, e: Event): State
    requires Enabled(c, st, e)
  {
    match e
    case Map(b, a) => Mapped(st, b, a)
    case Run(b) => Stepped(c, st, b)
  }

  lemma UnlinkTail(c: Config, p: Plan, i: nat)
    requires i < |Compile(c, p)| && Compile(c, p)[i] == UnlinkLRU
    ensures Drops(p) && i == 4
    ensures Compile(c, p)[i..] == [UnlinkLRU, ReleaseDiscardBlock, BlockRequestComplete]
  {
  }

  lemma RunUnlinkTail(c: Config, p: Plan, l: Local)
    requires Fits(c, p.ask)
    ensures var n := RunOps(c, p, [UnlinkLRU, ReleaseDiscardBlock, BlockRequestComplete], l);
            n.stat == l.stat && n.entry == l.entry
  {
    RunsInSteps(c, p, [UnlinkLRU, ReleaseDiscardBlock, BlockRequestComplete], l);
  }

  /** An entry on its way to the free list is already marked unused. */
  lemma InFlightIsEmpty(c: Config, blk: Blk, l: Local, o: Outside)
    requires ConfigOk(c) && BlkOk(c, blk, l, o) && blk.jobs != [] && Compile(c, blk.jobs[0])[blk.pc] == UnlinkLRU
    ensures l.stat == Unpromoted
  {
    hide Fits, Queue, QueueEnd, After, Holding, Compile, Perform, RunOps;
    SoonStep(c, blk, l);
    UnlinkTail(c, blk.jobs[0], blk.pc);
    RunUnlinkTail(c, blk.jobs[0], l);
  }

  lemma RunIsReady(c: Config, os: seq<Outside>, st: State, b: nat)
    requires Inv(c, os, st) && b < |st.blocks| && st.blocks[b].jobs != []
    ensures Ready(c, st, b)
  {
    hide Queue, QueueEnd, After, Holding, Held, Owned, Compile, Rests;
    var blk := st.blocks[b];
    OwnedIsSized(st);
    assert BlkOk(c, blk, Loc(st, b), os[b]);
    assert blk.jobs[0].ask == blk.hist[|blk.hist| - |blk.jobs| + 0];
    if Compile(c, blk.jobs[0])[blk.pc] == UnlinkLRU {
      InFlightIsEmpty(c, blk, Loc(st, b), os[b]);
    }
  }

  lemma RunStep(c: Config, os: seq<Outside>, st: State, b: nat)
    requires Inv(c, os, st) && Enabled(c, st, Run(b))
    ensures Inv(c, os, Next(c, st, Run(b)))
  {
    hide BlkOk, Held, Compile, Perform, Stepped, Ran, Ready, Fits, Loc;
    RunIsReady(c, os, st, b);
    SteppedOwned(c, st, b);
    SteppedSelf(c, st, b);
    ReadyParts(c, st, b);
    var t := Stepped(c, st, b);
    forall x | 0 <= x < |t.blocks| ensures BlkOk(c, t.blocks[x], Loc(t, x), os[x]) {
      assert BlkOk(c, st.blocks[x], Loc(st, x), os[x]);
      if x == b {
        RanKeeps(c, st.blocks[b], Loc(st, b), os[b]);
      } else {
        SteppedOther(c, st, b, x);
      }
    }
  }

  lemma ReadyParts(c: Config, st: State, b: nat)
    requires Ready(c, st, b)
    ensures var blk := st.blocks[b];
            && Sized(st) && blk.jobs != [] && blk.pc < |Compile(c, blk.jobs[0])| && Fits(c, blk.jobs[0].ask)
            && Result(c, st, b) == Perform(c, blk.jobs[0], Compile(c, blk.jobs[0])[blk.pc], Loc(st, b))
            && var n := Result(c, st, b);
               Stepped(c, st, b).blocks == st.blocks[b := Ran(c, blk, n.entry, n.buf, n.out)]
  {
    hide Perform, Compile, Stepped, Ran;
    SteppedArrays(c, st, b);
  }

  /** A block that misses has no entry in flight. */
  lemma MissIsQuiet(c: Config, blk: Blk, l: Local, o: Outside, a: Ask)
    requires ConfigOk(c) && BlkOk(c, blk, l, o) && !blk.discarding && Misses(blk, a)
    ensures !InFlight(blk)
  {
    hide Rests;
    if blk.jobs != [] {
      NullMeansComplete(c, blk, l, o);
    }
  }

  lemma MapStep(c: Config, os: seq<Outside>, st: State, b: nat, a: Ask)
    requires Inv(c, os, st) && Enabled(c, st, Map(b, a))
    ensures Inv(c, os, Next(c, st, Map(b, a)))
  {
    hide BlkOk, Held, Queued, Fits, Loc, Misses, Sized, HasOwner, InFlight;
    var blk, t := st.blocks[b], Mapped(st, b, a);
    assert BlkOk(c, blk, Loc(st, b), os[b]);
    BlkOkShaped(c, blk, Loc(st, b), os[b]);
    if Misses(blk, a) {
      MissIsQuiet(c, blk, Loc(st, b), os[b], a);
    }
    MappedOwned(c, st, b, a);
    forall x | 0 <= x < |t.blocks| ensures BlkOk(c, t.blocks[x], Loc(t, x), os[x]) {
      assert BlkOk(c, st.blocks[x], Loc(st, x), os[x]);
      MappedLoc(c, st, b, a, x);
      if x == b {
        if Misses(blk, a) {
          MapKeepsMiss(c, blk, Loc(st, b), Loc(t, b), os[b], a, st.free[0]);
        } else {
          MapKeepsHit(c, blk, Loc(st, b), os[b], a, 0);
        }
      }
    }
  }

  lemma BlkOkShaped(c: Config, blk: Blk, l: Local, o: Outside)
    requires ConfigOk(c) && BlkOk(c, blk, l, o)
    ensures Shaped(c, blk)
  {
  }

  /** Every step keeps the invariant. */
  lemma StepKeepsInv(c: Config, os: seq<Outside>, st: State, e: Event)
    requires Inv(c, os, st) && Enabled(c, st, e)
    ensures Inv(c, os, Next(c, st, e))
  {
    hide Inv, Enabled, Next;
    match e
    case Map(b, a) => MapStep(c, os, st, b, a);
    case Run(b) => RunStep(c, os, st, b);
  }

  /* ---- whole runs ---- */

  ghost predicate StepTo(c: Config, st: State, e: Event, after: State) {
    Enabled(c, st, e) && after == Next(c, st, e)
  }

  ghost predicate IsRun(c: Config, sts: seq<State>, es: seq<Event>) {
    && |sts| == |es| + 1
    && forall i :: 0 <= i < |es| ==> StepTo(c, sts[i], es[i], sts[i + 1])
  }

  /** Nothing mapped, every entry accounted for, every block tidy with its entry filled. */
  ghost predicate Starts(c: Config, os: seq<Outside>, st: State) {
    && ConfigOk(c) && Owned(st) && |os| == |st.blocks|
    && forall b :: 0 <= b < |st.blocks| ==> StartsAt(c, st.blocks[b], Loc(st, b), os[b])
  }

  ghost predicate StartsAt(c: Config, blk: Blk, l: Local, o: Outside) {
    && blk.jobs == [] && blk.hist == [] && blk.pc == 0 && !blk.discarding
    && Tidy(c, l) && (Filled(l) <==> blk.entry.At?) && Seen(l) == o
  }

  /** A block that is not in the cache. */
  function Uncached(bytes: seq<Byte>): Outside {
    Outside(bytes, [], bytes, Unpromoted)
  }

  /** The volume at first use: all entries free, no block cached. */
  lemma FreshStarts(c: Config, st: State)
    requires ConfigOk(c) && |st.stat| == |st.data| && |st.back| == |st.blocks| == |st.words| && Distinct(st.free)
    requires st.clean == [] && st.dirty == []
    requires forall e :: e in st.free <==> 0 <= e < |st.stat|
    requires forall e :: 0 <= e < |st.stat| ==> st.stat[e] == Unpromoted
    requires forall b :: 0 <= b < |st.blocks| ==>
               st.blocks[b] == Blk(Null, false, [], 0, [], [], []) && |st.back[b]| == c.bs && st.words[b] == NO_WORD
    ensures Starts(c, seq(|st.blocks|, b requires 0 <= b < |st.blocks| => Uncached(st.back[b])), st)
  {
  }

  lemma StartIsInv(c: Config, os: seq<Outside>, st: State)
    requires Starts(c, os, st)
    ensures Inv(c, os, st)
  {
    hide Held, Owned, Fits, Compile;
    OwnedIsSized(st);
    forall b | 0 <= b < |st.blocks| ensures BlkOk(c, st.blocks[b], Loc(st, b), os[b]) {
      assert StartsAt(c, st.blocks[b], Loc(st, b), os[b]);
    }
  }

  lemma {:induction false} RunKeepsInv(c: Config, os: seq<Outside>, sts: seq<State>, es: seq<Event>, k: nat)
    requires IsRun(c, sts, es) && Starts(c, os, sts[0]) && k < |sts|
    ensures Inv(c, os, sts[k])
  {
    hide Inv, Starts, Enabled, Next;
    if k == 0 {
      StartIsInv(c, os, sts[0]);
    } else {
      RunKeepsInv(c, os, sts, es, k - 1);
      assert StepTo(c, sts[k - 1], es[k - 1], sts[k - 1 + 1]);
      StepKeepsInv(c, os, sts[k - 1], es[k - 1]);
    }
  }

  /* ---- what the runs guarantee ---- */

  /** The bytes a list of requests leaves in a block: the last write's, or a hole after a
      discard, or what was there. */
  ghost function LastWrite(c: Config, was: seq<Byte>, h: seq<Ask>): seq<Byte> {
    if h == [] then was
    else
      var a := h[|h| - 1];
      if a.io == Write then a.bytes else if a.io == Discard then c.hole else LastWrite(c, was, h[..|h| - 1])
  }

  /** What each read of a list of requests is answered. */
  ghost function Answers(c: Config, was: seq<Byte>, h: seq<Ask>): seq<Reading> {
    if h == [] then []
    else
      var k := |h| - 1;
      var w, f := LastWrite(c, was, h[..k]), h[k].f;
      Answers(c, was, h[..k]) +
      if h[k].io == Read && f.offset + f.size <= |w| then [Reading(h[k].rid, f, w[f.offset..f.offset + f.size])] else []
  }

  lemma {:induction false} AfterIsLastWrite(c: Config, o: Outside, h: seq<Ask>)
    requires ConfigOk(c) && |o.bytes| == c.bs && AllFit(c, h)
    ensures After(c, o, h).bytes == LastWrite(c, o.bytes, h)
    ensures After(c, o, h).out == o.out + Answers(c, o.bytes, h)
  {
    if h != [] {
      AfterIsLastWrite(c, o, h[..|h| - 1]);
      assert Fits(c, h[|h| - 1]);
    }
  }

  lemma HoldsLastWrite(c: Config, os: seq<Outside>, st: State, b: nat)
    requires Inv(c, os, st) && b < |st.blocks|
    ensures var l, d := Loc(st, b), Done(st.blocks[b]);
            st.blocks[b].pc == 0 ==>
              && 0 <= d <= |st.blocks[b].hist|
              && View(l) == LastWrite(c, os[b].bytes, st.blocks[b].hist[..d])
              && l.out == os[b].out + Answers(c, os[b].bytes, st.blocks[b].hist[..d])
              && (l.stat == Flushed ==> View(l) == l.back)
  {
    hide Owned, Queue, QueueEnd, Held, After, Fits;
    OwnedIsSized(st);
    var blk, l := st.blocks[b], Loc(st, b);
    assert BlkOk(c, blk, l, os[b]);
    if blk.pc == 0 {
      assert Rests(c, blk, os[b], l, Done(blk), blk.jobs);
      AfterIsLastWrite(c, os[b], blk.hist[..Done(blk)]);
    }
  }

  /** In every run, a block between chains holds the last write it is through with, has
      answered its reads accordingly, and if flushed equals the backend. */
  lemma CacheHoldsLastWrite(c: Config, os: seq<Outside>, sts: seq<State>, es: seq<Event>, k: nat, b: nat)
    requires IsRun(c, sts, es) && Starts(c, os, sts[0]) && k < |sts| && b < |sts[k].blocks|
    ensures Inv(c, os, sts[k])
    ensures var st := sts[k];
            var l, d := Loc(st, b), Done(st.blocks[b]);
            st.blocks[b].pc == 0 ==>
              && 0 <= d <= |st.blocks[b].hist|
              && View(l) == LastWrite(c, os[b].bytes, st.blocks[b].hist[..d])
              && l.out == os[b].out + Answers(c, os[b].bytes, st.blocks[b].hist[..d])
              && (l.stat == Flushed ==> View(l) == l.back)
  {
    hide IsRun, Starts, Owned, BlkOk, LastWrite, Answers;
    RunKeepsInv(c, os, sts, es, k);
    HoldsLastWrite(c, os, sts[k], b);
  }

  /* ---- what reaches the backend ---- */

  /** A block is, to the user and to the backend, what its requests are meant to make it, and the
      stored word says so. */
  lemma BlockIsAsMeant(c: Config, os: seq<Outside>, st: State, b: nat)
    requires Inv(c, os, st) && b < |st.blocks| && st.blocks[b].pc == 0
    ensures var blk, l := st.blocks[b], Loc(st, b);
            && 0 <= Done(blk) <= |blk.hist| && ConfigOk(c) && |os[b].bytes| == c.bs && AllFit(c, blk.hist[..Done(blk)])
            && Seen(l) == After(c, os[b], blk.hist[..Done(blk)])
            && st.words[b] == (if l.stat == Unpromoted then NO_WORD else Word(l.stat, l.entry.e))
            && (l.stat != Unpromoted ==> l.entry.At?)
            && (b in st.dirty <==> l.stat == Dirty) && (b in st.clean <==> l.stat == Flushed)
  {
    hide Owned, Queue, QueueEnd, Held, After, Fits;
    OwnedIsSized(st);
    assert BlkOk(c, st.blocks[b], Loc(st, b), os[b]);
    assert Rests(c, st.blocks[b], os[b], Loc(st, b), Done(st.blocks[b]), st.blocks[b].jobs);
  }

  /** What the last of a list of requests leaves in the backend and as status. */
  lemma LastRequest(c: Config, o: Outside, h: seq<Ask>)
    requires ConfigOk(c) && |o.bytes| == c.bs && AllFit(c, h) && h != []
    ensures var n, was := After(c, o, h), After(c, o, h[..|h| - 1]);
            match h[|h| - 1].io
            case Flush => if was.stat == Unpromoted then n == was else n.back == n.bytes && n.stat == Flushed
            case Write => if c.writeThrough then n.back == n.bytes && n.stat == Flushed
                          else n.back == was.back && n.stat == Dirty
            case Demote => n.back == (if was.stat == Dirty then n.bytes else was.back) && n.stat == Unpromoted
            case Discard => n.back == c.hole && n.stat == Unpromoted
            case Read => n.back == was.back && n.stat == if was.stat == Unpromoted then Flushed else was.stat
            case Other => n == was
  {
    assert Fits(c, h[|h| - 1]);
  }

  /** Only a dirty block differs from the backend; with a dirty timeout of zero none is dirty. */
  lemma {:induction false} OnlyDirtyDiffers(c: Config, o: Outside, h: seq<Ask>)
    requires ConfigOk(c) && |o.bytes| == c.bs && AllFit(c, h) && (o.stat == Dirty || o.back == o.bytes)
    ensures var n := After(c, o, h);
            && (n.stat != Dirty ==> n.back == n.bytes)
            && (c.writeThrough && o.stat != Dirty ==> n.stat != Dirty)
  {
    if h != [] {
      OnlyDirtyDiffers(c, o, h[..|h| - 1]);
      assert Fits(c, h[|h| - 1]);
    }
  }

  /** In every run, a block between chains whose last request was a flush, if it is cached, is the
      last write in the backend too, flushed and in the clean list; so it is after a write if the
      dirty timeout is zero, and a demote leaves it in the backend and not in the cache. */
  lemma LastWriteReachesBackend(c: Config, os: seq<Outside>, sts: seq<State>, es: seq<Event>, k: nat, b: nat)
    requires IsRun(c, sts, es) && Starts(c, os, sts[0]) && k < |sts| && b < |sts[k].blocks|
    requires sts[k].blocks[b].pc == 0 && Done(sts[k].blocks[b]) > 0
    ensures Inv(c, os, sts[k])
    ensures var st := sts[k];
            var l, d := Loc(st, b), Done(st.blocks[b]);
            && d <= |st.blocks[b].hist|
            && var last, now := st.blocks[b].hist[d - 1].io, LastWrite(c, os[b].bytes, st.blocks[b].hist[..d]);
               && ((last == Flush && l.stat != Unpromoted) || (last == Write && c.writeThrough) ==>
                     l.back == now && l.stat == Flushed && b in st.clean && b !in st.dirty)
               && (last == Write && !c.writeThrough ==> l.stat == Dirty && b in st.dirty && b !in st.clean)
               && (last == Demote ==> l.back == now && l.stat == Unpromoted && b !in st.dirty && b !in st.clean)
               && (last == Discard ==> l.back == c.hole == now && l.stat == Unpromoted)
  {
    hide IsRun, Owned, BlkOk, After, Fits, LastWrite, Answers;
    RunKeepsInv(c, os, sts, es, k);
    var st := sts[k];
    BlockIsAsMeant(c, os, st, b);
    var h := st.blocks[b].hist[..Done(st.blocks[b])];
    StartIsSaved(c, os, sts[0], b);
    RunKeepsBlocks(c, os, sts, es, k);
    AfterIsLastWrite(c, os[b], h);
    LastRequest(c, os[b], h);
    assert AllFit(c, h[..|h| - 1]) by {
      assert forall i :: 0 <= i < |h| - 1 ==> h[..|h| - 1][i] == h[i];
    }
    OnlyDirtyDiffers(c, os[b], h[..|h| - 1]);
    OnlyDirtyDiffers(c, os[b], h);
    AfterIsLastWrite(c, os[b], h[..|h| - 1]);
    LastOfDiscard(c, os[b].bytes, h);
  }

  lemma LastOfDiscard(c: Config, was: seq<Byte>, h: seq<Ask>)
    requires h != []
    ensures h[|h| - 1].io == Discard ==> LastWrite(c, was, h) == c.hole
    ensures h[|h| - 1].io == Demote || h[|h| - 1].io == Flush ==>
              LastWrite(c, was, h) == LastWrite(c, was, h[..|h| - 1])
  {
  }

  lemma StartIsSaved(c: Config, os: seq<Outside>, st: State, b: nat)
    requires Starts(c, os, st) && b < |st.blocks|
    ensures os[b].stat == Dirty || os[b].back == os[b].bytes
  {
    hide Held, Owned, Fits;
    OwnedIsSized(st);
    assert StartsAt(c, st.blocks[b], Loc(st, b), os[b]);
  }

  lemma {:induction false} RunKeepsBlocks(c: Config, os: seq<Outside>, sts: seq<State>, es: seq<Event>, k: nat)
    requires IsRun(c, sts, es) && Starts(c, os, sts[0]) && k < |sts|
    ensures |sts[k].blocks| == |sts[0].blocks|
  {
    hide Starts, Owned;
    RunKeepsInv(c, os, sts, es, k);
    RunKeepsInv(c, os, sts, es, 0);
  }

  /** Block `b` has entry `e`. */
  ghost predicate Has(st: State, b: nat, e: nat) {
    b < |st.blocks| && st.blocks[b].entry == At(e)
  }

  /** Block `b` is giving entry `e` back. */
  ghost predicate Returns(st: State, b: nat, e: nat) {
    b < |st.blocks| && InFlight(st.blocks[b]) && st.blocks[b].jobs[0].entry == At(e)
  }

  /** In every run, each entry is free, in one block, or on its way back from one block, and
      only one of the three. */
  lemma EntriesAreConserved(c: Config, os: seq<Outside>, sts: seq<State>, es: seq<Event>, k: nat, e: nat)
    requires IsRun(c, sts, es) && Starts(c, os, sts[0]) && k < |sts| && e < |sts[k].stat|
    ensures e in sts[k].free || exists b :: Has(sts[k], b, e) || Returns(sts[k], b, e)
    ensures forall b :: Has(sts[k], b, e) || Returns(sts[k], b, e) ==> e !in sts[k].free
    ensures forall b, x ::
              (Has(sts[k], b, e) || Returns(sts[k], b, e)) && (Has(sts[k], x, e) || Returns(sts[k], x, e)) ==> b == x
    ensures forall b :: !(Has(sts[k], b, e) && Returns(sts[k], b, e))
    ensures forall i, j :: 0 <= i < j < |sts[k].free| ==> sts[k].free[i] != sts[k].free[j]
  {
    hide IsRun, Starts, BlkOk, Loc;
    RunKeepsInv(c, os, sts, es, k);
    var st := sts[k];
    forall b: nat | b < |st.blocks| ensures Held(st.blocks[b]) == At(e) <==> Has(st, b, e) || Returns(st, b, e) {
    }
    forall b: nat, x: nat | (Has(st, b, e) || Returns(st, b, e)) && (Has(st, x, e) || Returns(st, x, e))
      ensures b == x
    {
      if b != x {
        HeldApart(st, b, x);
      }
    }
    if e !in st.free {
      var b :| 0 <= b < |st.blocks| && Held(st.blocks[b]) == At(e);
      assert Has(st, b, e) || Returns(st, b, e);
    }
  }

  /** In every run, a block with no chain running is in the dirty list exactly when it has an
      unflushed entry, and in the clean list exactly when it has a flushed one. */
  lemma ListsFollowStatus(c: Config, os: seq<Outside>, sts: seq<State>, es: seq<Event>, k: nat, b: nat)
    requires IsRun(c, sts, es) && Starts(c, os, sts[0]) && k < |sts| && b < |sts[k].blocks|
    ensures Inv(c, os, sts[k])
    ensures var st := sts[k];
            var l := Loc(st, b);
            st.blocks[b].jobs == [] ==>
              && (b in st.dirty <==> st.blocks[b].entry.At? && l.stat == Dirty)
              && (b in st.clean <==> st.blocks[b].entry.At? && l.stat == Flushed)
              && (b in st.dirty || b in st.clean <==> st.blocks[b].entry.At?)
  {
    hide IsRun, Starts, Owned, Held, After, Fits;
    RunKeepsInv(c, os, sts, es, k);
    var st := sts[k];
    OwnedIsSized(st);
    var blk, l := st.blocks[b], Loc(st, b);
    assert BlkOk(c, blk, l, os[b]);
    if blk.jobs == [] {
      assert Rests(c, blk, os[b], l, Done(blk), blk.jobs);
    }
  }
}
