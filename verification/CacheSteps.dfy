/** A step of the cache volume acts on one block as its chain says, leaves every other block
    alone, and keeps the entries accounted for. */
module CacheSteps {
  import opened Basics
  import opened Volume
  import opened Lru
  import opened CacheChain
  import opened CacheBlock
  import opened CacheMachine

  lemma PerformBlind(c: Config, p: Plan, op: Op, l: Local, stat: Status, data: seq<Byte>)
    requires Fits(c, p.ask) && !UsesEntry(op)
    ensures Perform(c, p, op, l.(stat := stat, data := data)) == Perform(c, p, op, l).(stat := stat, data := data)
    ensures Perform(c, p, op, l).stat == l.stat && Perform(c, p, op, l).data == l.data
    ensures Perform(c, p, op, l).clean == l.clean && Perform(c, p, op, l).dirty == l.dirty
  {
  }

  ghost predicate Ready(c: Config, st: State, b: nat) {
    && Owned(st) && b < |st.blocks|
    && Shaped(c, st.blocks[b]) && InHand(st.blocks[b]) && st.blocks[b].jobs != []
    && Runnable(c, st.blocks[b]) && Fits(c, st.blocks[b].jobs[0].ask)
    && (Compile(c, st.blocks[b].jobs[0])[st.blocks[b].pc] == UnlinkLRU ==> Loc(st, b).stat == Unpromoted)
  }

  /** The operation in hand. */
  function Now(c: Config, blk: Blk): Op
    requires Runnable(c, blk)
  {
    Compile(c, blk.jobs[0])[blk.pc]
  }

  /** What the operation makes of the block's own part. */
  ghost function Result(c: Config, st: State, b: nat): Local
    requires Ready(c, st, b)
  {
    Perform(c, st.blocks[b].jobs[0], Now(c, st.blocks[b]), Loc(st, b))
  }

  /** The entry fixed in the chain is the block's own wherever the operation looks at it. */
  lemma ThroughIsLoc(c: Config, st: State, b: nat)
    requires Ready(c, st, b)
    ensures var blk := st.blocks[b];
            var p, op := blk.jobs[0], Now(c, blk);
            && InRange(st, blk)
            && var n := Perform(c, p, op, Through(st, b, p.entry));
               && n.entry == Result(c, st, b).entry && n.buf == Result(c, st, b).buf
               && n.out == Result(c, st, b).out && n.back == Result(c, st, b).back && n.word == Result(c, st, b).word
               && (UsesEntry(op) ==> p.entry.At? && p.entry == Held(blk) && n == Result(c, st, b))
               && (!UsesEntry(op) ==> n.stat == Through(st, b, p.entry).stat && n.data == Through(st, b, p.entry).data)
  {
    hide Perform, Compile, Fits, InHand, Shaped, Owned;
    var blk := st.blocks[b];
    var p, op := blk.jobs[0], Now(c, blk);
    assert Sized(st) by {
      OwnedIsSized(st);
    }
    assert InRange(st, blk);
    if UsesEntry(op) {
      UsedIsHeld(c, blk);
    } else {
      var t := Through(st, b, p.entry);
      PerformBlind(c, p, op, Loc(st, b), t.stat, t.data);
      PerformBlind(c, p, op, t, t.stat, t.data);
    }
  }

  lemma OwnedIsSized(st: State)
    requires Owned(st)
    ensures Sized(st)
  {
  }

  /** The arrays after a step: only the block's own entry and backend block may change. */
  lemma SteppedArrays(c: Config, st: State, b: nat)
    requires Ready(c, st, b)
    ensures var t, n, h := Stepped(c, st, b), Result(c, st, b), Held(st.blocks[b]);
            && |t.stat| == |st.stat| == |t.data| && |t.back| == |st.back| && |t.words| == |st.words|
            && |t.blocks| == |st.blocks|
            && t.blocks == st.blocks[b := Ran(c, st.blocks[b], n.entry, n.buf, n.out)]
            && t.back == st.back[b := n.back] && t.words == st.words[b := n.word]
            && (forall e :: 0 <= e < |st.stat| && h != At(e) ==> t.stat[e] == st.stat[e] && t.data[e] == st.data[e])
            && (h.At? && Now(c, st.blocks[b]) != UnlinkLRU ==>
                  h.e < |st.stat| && t.stat[h.e] == n.stat && t.data[h.e] == n.data)
            && (Now(c, st.blocks[b]) == UnlinkLRU ==> h.At? && t.free == Touched(st.free, h.e) && t.stat == st.stat)
            && (Now(c, st.blocks[b]) != UnlinkLRU ==> t.free == st.free)
  {
    hide Perform, Compile, Fits, InHand, Shaped, Owned, Ran;
    ThroughIsLoc(c, st, b);
    OwnedIsSized(st);
    HeldInRange(st, b);
    UnlinkKeepsStat(c, st, b);
    if !UsesEntry(Now(c, st.blocks[b])) {
      ResultKeeps(c, st, b);
    }
  }

  lemma ResultKeeps(c: Config, st: State, b: nat)
    requires Ready(c, st, b) && !UsesEntry(Now(c, st.blocks[b]))
    ensures Result(c, st, b).stat == Loc(st, b).stat && Result(c, st, b).data == Loc(st, b).data
  {
    hide Perform, Compile;
    PerformBlind(c, st.blocks[b].jobs[0], Now(c, st.blocks[b]), Loc(st, b), Unpromoted, []);
  }

  lemma UnlinkKeepsStat(c: Config, st: State, b: nat)
    requires Ready(c, st, b)
    ensures Now(c, st.blocks[b]) == UnlinkLRU ==> Result(c, st, b).stat == Loc(st, b).stat
  {
  }

  /** Membership of the lists after a step. */
  lemma SteppedClean(c: Config, st: State, b: nat, x: nat)
    requires Ready(c, st, b)
    ensures var t := Stepped(c, st, b);
            Distinct(t.clean) && (x in t.clean <==> if x == b then Result(c, st, b).clean else x in st.clean)
  {
    hide Compile, Fits, InHand, Shaped, Held, Ran, Distinct, Without;
    ThroughIsLoc(c, st, b);
    WithoutSound(st.clean, b);
    TouchedSound(st.clean, b);
    ListsOf(c, st, b);
  }

  lemma SteppedDirty(c: Config, st: State, b: nat, x: nat)
    requires Ready(c, st, b)
    ensures var t := Stepped(c, st, b);
            Distinct(t.dirty) && (x in t.dirty <==> if x == b then Result(c, st, b).dirty else x in st.dirty)
  {
    hide Compile, Fits, InHand, Shaped, Held, Ran, Distinct, Without;
    ThroughIsLoc(c, st, b);
    WithoutSound(st.dirty, b);
    TouchedSound(st.dirty, b);
    ListsOf(c, st, b);
  }

  lemma SteppedLists(c: Config, st: State, b: nat, x: nat)
    requires Ready(c, st, b)
    ensures var t := Stepped(c, st, b);
            && Distinct(t.clean) && Distinct(t.dirty)
            && (x in t.clean <==> if x == b then Result(c, st, b).clean else x in st.clean)
            && (x in t.dirty <==> if x == b then Result(c, st, b).dirty else x in st.dirty)
  {
    hide Ready, Stepped, Result;
    SteppedClean(c, st, b, x);
    SteppedDirty(c, st, b, x);
  }

  lemma ListsOf(c: Config, st: State, b: nat)
    requires Ready(c, st, b)
    ensures Loc(st, b).clean == (b in st.clean) && Loc(st, b).dirty == (b in st.dirty)
  {
  }

  lemma SteppedSized(c: Config, st: State, b: nat)
    requires Ready(c, st, b)
    ensures Sized(Stepped(c, st, b))
  {
    hide Perform, Compile, Fits, InHand, Shaped, Result, Held;
    SteppedArrays(c, st, b);
    var t, blk := Stepped(c, st, b), st.blocks[b];
    assert InRange(st, blk);
    EntryOfResult(c, st, b);
    forall x | 0 <= x < |t.blocks| ensures InRange(t, t.blocks[x]) {
      assert InRange(st, st.blocks[x]);
      if x == b {
        forall i | 0 <= i < |t.blocks[b].jobs| && t.blocks[b].jobs[i].entry.At?
          ensures t.blocks[b].jobs[i].entry.e < |t.stat|
        {
          assert t.blocks[b].jobs[i] == blk.jobs[if t.blocks[b].jobs == blk.jobs then i else i + 1];
        }
      }
    }
  }

  lemma EntryOfResult(c: Config, st: State, b: nat)
    requires Ready(c, st, b)
    ensures Result(c, st, b).entry == if Now(c, st.blocks[b]) == ResetCacheEntry then Null else st.blocks[b].entry
  {
    hide Compile;
    PerformEntry(c, st.blocks[b].jobs[0], Now(c, st.blocks[b]), Loc(st, b));
  }

  /** Who holds what after a step: nothing changes unless a dropped entry is let go. */
  lemma SteppedHeld(c: Config, st: State, b: nat, x: nat)
    requires Ready(c, st, b) && x < |st.blocks|
    ensures |Stepped(c, st, b).blocks| == |st.blocks|
    ensures Held(Stepped(c, st, b).blocks[x]) ==
            if x == b && Now(c, st.blocks[b]) == UnlinkLRU then Null else Held(st.blocks[x])
  {
    hide Perform, Compile, Fits, Owned, Result, Ran, Held, InHand, Shaped;
    SteppedArrays(c, st, b);
    EntryOfResult(c, st, b);
    var n := Result(c, st, b);
    HeldAfter(c, st.blocks[b], n.entry, n.buf, n.out);
  }

  /** The block's own part after a step is what the operation makes of it. */
  lemma SteppedSelf(c: Config, st: State, b: nat)
    requires Ready(c, st, b)
    ensures Sized(Stepped(c, st, b)) && |Stepped(c, st, b).blocks| == |st.blocks|
    ensures Loc(Stepped(c, st, b), b) == Result(c, st, b)
  {
    hide Compile, Fits, Ran, Held, InHand, Shaped, Owned, Perform, Stepped;
    OwnedIsSized(st);
    SteppedSized(c, st, b);
    SteppedArrays(c, st, b);
    SteppedHeld(c, st, b, b);
    SteppedLists(c, st, b, b);
    var t, n := Stepped(c, st, b), Result(c, st, b);
    RanFields(c, st.blocks[b], n.entry, n.buf, n.out);
    HeldInRange(st, b);
    NullIsEmpty(c, st, b);
  }

  lemma RanFields(c: Config, blk: Blk, entry: EntryPtr, buf: seq<Byte>, out: seq<Reading>)
    requires Runnable(c, blk)
    ensures var m := Ran(c, blk, entry, buf, out);
            m.entry == entry && m.buf == buf && m.out == out && m.hist == blk.hist
  {
  }

  /** A block that holds no entry after the step has the empty values. */
  lemma NullIsEmpty(c: Config, st: State, b: nat)
    requires Ready(c, st, b)
    ensures Now(c, st.blocks[b]) == UnlinkLRU || Held(st.blocks[b]).Null? ==>
              Result(c, st, b).stat == Unpromoted && Result(c, st, b).data == []
  {
    hide Compile, Held;
    var blk := st.blocks[b];
    if UsesEntry(Now(c, blk)) {
      UsedIsHeld(c, blk);
    }
  }

  /** Every other block's part is untouched. */
  lemma SteppedOther(c: Config, st: State, b: nat, x: nat)
    requires Ready(c, st, b) && x < |st.blocks| && x != b
    ensures Sized(Stepped(c, st, b)) && |Stepped(c, st, b).blocks| == |st.blocks|
    ensures Stepped(c, st, b).blocks[x] == st.blocks[x]
    ensures Loc(Stepped(c, st, b), x) == Loc(st, x)
  {
    hide Compile, Fits, Ran, Held, InHand, Shaped, Perform, Stepped, HasOwner;
    SteppedSized(c, st, b);
    SteppedArrays(c, st, b);
    SteppedLists(c, st, b, x);
    HeldInRange(st, x);
    HeldApart(st, b, x);
    var t, h := Stepped(c, st, b), Held(st.blocks[x]);
    if h.At? {
      assert Held(st.blocks[b]) != At(h.e);
      assert t.stat[h.e] == st.stat[h.e] && t.data[h.e] == st.data[h.e];
    }
  }

  lemma HeldApart(st: State, b: nat, x: nat)
    requires Owned(st) && b < |st.blocks| && x < |st.blocks| && x != b
    ensures Apart(Held(st.blocks[b]), Held(st.blocks[x]))
  {
    hide Held, Sized;
    if b < x {
      assert Apart(Held(st.blocks[b]), Held(st.blocks[x]));
    } else {
      assert Apart(Held(st.blocks[x]), Held(st.blocks[b]));
    }
  }
}
