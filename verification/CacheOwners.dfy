/** Entries are conserved by every step. */
module CacheOwners {
  import opened Basics
  import opened Volume
  import opened Lru
  import opened CacheChain
  import opened CacheBlock
  import opened CacheMachine
  import opened CacheSteps

  /** Running an operation moves an entry from its block to the free list, or nothing. */
  lemma SteppedOwned(c: Config, st: State, b: nat)
    requires Ready(c, st, b)
    ensures Owned(Stepped(c, st, b))
  {
    hide Compile, Fits, Ran, Held, InHand, Shaped, Perform, Stepped, Sized, HasOwner, Distinct, Loc;
    var t, h, op := Stepped(c, st, b), Held(st.blocks[b]), Now(c, st.blocks[b]);
    SteppedSized(c, st, b);
    SteppedArrays(c, st, b);
    SteppedLists(c, st, b, b);
    forall x | 0 <= x < |st.blocks|
      ensures Held(t.blocks[x]) == if x == b && op == UnlinkLRU then Null else Held(st.blocks[x])
    {
      SteppedHeld(c, st, b, x);
    }
    FreeAfterStep(c, st, b);
    forall e | 0 <= e < |t.stat| ensures e in t.free || HasOwner(t, e) {
      OwnerAfterStep(c, st, b, e);
    }
    forall x | 0 <= x < |t.blocks| && Held(t.blocks[x]).At? ensures Held(t.blocks[x]).e !in t.free {
      if x != b {
        HeldApart(st, b, x);
      }
    }
  }

  lemma FreeAfterStep(c: Config, st: State, b: nat)
    requires Ready(c, st, b)
    ensures var t, h := Stepped(c, st, b), Held(st.blocks[b]);
            && Distinct(t.free) && |t.stat| == |st.stat|
            && (Now(c, st.blocks[b]) == UnlinkLRU ==> h.At?)
            && (forall e :: e in t.free <==> e in st.free || (Now(c, st.blocks[b]) == UnlinkLRU && e == h.e))
            && (forall e :: e in t.free ==> e < |t.stat| && t.stat[e] == Unpromoted)
  {
    hide Compile, Fits, Ran, Held, InHand, Shaped, Perform, Stepped, HasOwner, Result;
    SteppedArrays(c, st, b);
    var h := Held(st.blocks[b]);
    HeldInRange(st, b);
    if Now(c, st.blocks[b]) == UnlinkLRU {
      TouchedSound(st.free, h.e);
    }
  }

  lemma OwnerAfterStep(c: Config, st: State, b: nat, e: nat)
    requires Ready(c, st, b) && e < |st.stat|
    ensures e in Stepped(c, st, b).free || HasOwner(Stepped(c, st, b), e)
  {
    hide Compile, Fits, Ran, Held, InHand, Shaped, Perform, Stepped, Sized, Distinct, Loc;
    FreeAfterStep(c, st, b);
    var t := Stepped(c, st, b);
    if e !in st.free {
      var x :| 0 <= x < |st.blocks| && Held(st.blocks[x]) == At(e);
      SteppedHeld(c, st, b, x);
      assert e in t.free || Held(t.blocks[x]) == At(e);
    }
  }

  /* ---- mapping ---- */

  lemma QueuedHeld(c: Config, blk: Blk, a: Ask, e: nat)
    requires Shaped(c, blk) && !blk.discarding
    requires Misses(blk, a) ==> !InFlight(blk)
    ensures Held(Queued(blk, a, e)) == if Misses(blk, a) then At(e) else Held(blk)
  {
    LockingIsLong(c, PlanFor(blk, a, e));
  }

  /** Mapping takes the head of the free list for the block, or nothing. */
  lemma MappedSized(st: State, b: nat, a: Ask)
    requires Owned(st) && b < |st.blocks| && (Misses(st.blocks[b], a) ==> st.free != [])
    ensures Sized(Mapped(st, b, a))
  {
    hide HasOwner, Held, Distinct, Apart;
    var t := Mapped(st, b, a);
    assert InRange(st, st.blocks[b]);
    assert Misses(st.blocks[b], a) ==> st.free[0] in st.free && st.free[0] < |st.stat|;
    forall x | 0 <= x < |t.blocks| ensures InRange(t, t.blocks[x]) {
      assert InRange(st, st.blocks[x]);
      forall i | 0 <= i < |t.blocks[x].jobs| && t.blocks[x].jobs[i].entry.At?
        ensures t.blocks[x].jobs[i].entry.e < |t.stat|
      {
        if i < |st.blocks[x].jobs| {
          assert t.blocks[x].jobs[i] == st.blocks[x].jobs[i];
        }
      }
    }
  }

  lemma MappedOwned(c: Config, st: State, b: nat, a: Ask)
    requires Owned(st) && CanMap(c, st, b, a) && Shaped(c, st.blocks[b])
    requires Misses(st.blocks[b], a) ==> !InFlight(st.blocks[b])
    ensures Owned(Mapped(st, b, a))
  {
    hide Held, Sized, HasOwner, Queued, InFlight, Shaped, Fits, Misses;
    var t, blk := Mapped(st, b, a), st.blocks[b];
    MappedSized(st, b, a);
    QueuedHeld(c, blk, a, if Misses(blk, a) then st.free[0] else 0);
    if Misses(blk, a) {
      WithoutSound(st.free, st.free[0]);
    }
    forall e | 0 <= e < |t.stat| ensures e in t.free || HasOwner(t, e) {
      OwnerAfterMap(c, st, b, a, e);
    }
  }

  lemma OwnerAfterMap(c: Config, st: State, b: nat, a: Ask, e: nat)
    requires Owned(st) && CanMap(c, st, b, a) && Shaped(c, st.blocks[b]) && e < |st.stat|
    requires Misses(st.blocks[b], a) ==> !InFlight(st.blocks[b])
    ensures e in Mapped(st, b, a).free || HasOwner(Mapped(st, b, a), e)
  {
    hide Sized, Queued, Shaped, Fits;
    var t, blk := Mapped(st, b, a), st.blocks[b];
    QueuedHeld(c, blk, a, if Misses(blk, a) then st.free[0] else 0);
    if Misses(blk, a) {
      WithoutSound(st.free, st.free[0]);
      if e == st.free[0] {
        assert Held(t.blocks[b]) == At(e);
      }
    }
    if e !in st.free {
      var x :| 0 <= x < |st.blocks| && Held(st.blocks[x]) == At(e);
      assert Held(t.blocks[x]) == At(e);
    }
  }

  /** The parts of the blocks after mapping: a miss gives the block an empty entry. */
  lemma MappedLoc(c: Config, st: State, b: nat, a: Ask, x: nat)
    requires Owned(st) && CanMap(c, st, b, a) && Shaped(c, st.blocks[b]) && x < |st.blocks|
    requires Misses(st.blocks[b], a) ==> !InFlight(st.blocks[b])
    ensures Sized(Mapped(st, b, a))
    ensures var l, n := Loc(st, x), Loc(Mapped(st, b, a), x);
            if x == b && Misses(st.blocks[b], a) then
              n.entry == At(st.free[0]) && n == l.(entry := At(st.free[0]), stat := Unpromoted, data := n.data)
            else n == l
  {
    hide Shaped, Fits, HasOwner, Distinct;
    var blk := st.blocks[b];
    MappedSized(st, b, a);
    QueuedHeld(c, blk, a, if Misses(blk, a) then st.free[0] else 0);
  }
}
