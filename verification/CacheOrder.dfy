/** Main results on the list in front of the cache volume: when requests keep their order on a
    block, what the volume then holds, and how an older write can win. */
module CacheOrder {
  import opened CacheChain
  import opened CacheBlock
  import opened CacheMachine
  import opened CacheSteps
  import opened Cache
  import opened CacheList

  /* ---- runs ---- */

  /** Which arrivals a run may have: any, those that wait, or none. */
  datatype Arrivals = Any | Waiting | Quiet

  ghost predicate Admits(m: Arrivals, s: Front, e: Move) {
    e.Come? ==> m == Any || (m == Waiting && Waited(s, e.items))
  }

  ghost predicate Leads(c: Config, m: Arrivals, s: Front, es: seq<Move>, t: Front)
    decreases |es|
  {
    if es == [] then s == t
    else CanMove(c, s, es[0]) && Admits(m, s, es[0]) && Leads(c, m, Moved(c, s, es[0]), es[1..], t)
  }

  ghost predicate Reaches(c: Config, m: Arrivals, s: Front, t: Front) {
    exists es :: Leads(c, m, s, es, t)
  }

  lemma {:induction false} LeadsOn(c: Config, m: Arrivals, s: Front, es: seq<Move>, t: Front, e: Move)
    requires Leads(c, m, s, es, t) && CanMove(c, t, e) && Admits(m, t, e)
    ensures Leads(c, m, s, es + [e], Moved(c, t, e))
    decreases |es|
  {
    hide CanMove, Moved, Admits;
    if es == [] {
      assert (es + [e])[1..] == [];
    } else {
      LeadsOn(c, m, Moved(c, s, es[0]), es[1..], t, e);
      assert (es + [e])[1..] == es[1..] + [e];
    }
  }

  lemma {:induction false} LeadsKeepsInv(c: Config, os: seq<Outside>, m: Arrivals, s: Front, es: seq<Move>, t: Front)
    requires ListInv(c, os, s) && Leads(c, m, s, es, t)
    ensures ListInv(c, os, t)
    decreases |es|
  {
    hide CanMove, Moved, Admits, ListInv;
    if es != [] {
      MoveKeepsInv(c, os, s, es[0]);
      LeadsKeepsInv(c, os, m, Moved(c, s, es[0]), es[1..], t);
    }
  }

  lemma AllStayOrderly(c: Config, s: Front, e: Move)
    requires CanMove(c, s, e) && AllOrderly(s) && (e.Come? ==> Waited(s, e.items))
    ensures AllOrderly(Moved(c, s, e)) && |Moved(c, s, e).st.blocks| == |s.st.blocks|
  {
    hide CanMove, Moved, Orderly, Waited;
    if s.st.blocks != [] {
      MoveKeepsOrder(c, s, e, 0);
    } else {
      NoBlocksStay(c, s, e);
    }
    forall b | 0 <= b < |Moved(c, s, e).st.blocks| ensures Orderly(Moved(c, s, e), b) {
      MoveKeepsOrder(c, s, e, b);
    }
  }

  lemma NoBlocksStay(c: Config, s: Front, e: Move)
    requires CanMove(c, s, e)
    ensures |Moved(c, s, e).st.blocks| == |s.st.blocks|
  {
    hide Compile, Perform, Fits;
  }

  lemma {:induction false} LeadsKeepsOrder(c: Config, m: Arrivals, s: Front, es: seq<Move>, t: Front)
    requires m != Any && AllOrderly(s) && Leads(c, m, s, es, t)
    ensures AllOrderly(t) && |t.st.blocks| == |s.st.blocks|
    decreases |es|
  {
    hide CanMove, Moved, AllOrderly, Waited;
    if es != [] {
      AllStayOrderly(c, s, es[0]);
      LeadsKeepsOrder(c, m, Moved(c, s, es[0]), es[1..], t);
    }
  }

  /** Nothing has arrived yet. */
  ghost predicate Begins(c: Config, os: seq<Outside>, s: Front) {
    Starts(c, os, s.st) && s.passed == s.ahead == s.log == []
  }

  lemma BeginIsOrderly(c: Config, os: seq<Outside>, s: Front)
    requires Begins(c, os, s)
    ensures ListInv(c, os, s) && AllOrderly(s)
  {
    hide Tidy, Filled, Inv, Owned;
    StartIsInv(c, os, s.st);
    OwnedIsSized(s.st);
    forall b | 0 <= b < |s.st.blocks| ensures Orderly(s, b) {
      assert StartsAt(c, s.st.blocks[b], Loc(s.st, b), os[b]);
    }
  }

  /* ---- what waiting guarantees ---- */

  /** If no request arrives for a block that is being discarded and has another in the list,
      then in every interleaving requests are mapped in arrival order. */
  lemma ArrivalOrderKept(c: Config, os: seq<Outside>, s: Front, t: Front, b: nat)
    requires Begins(c, os, s) && Reaches(c, Waiting, s, t) && b < |t.st.blocks|
    ensures ListInv(c, os, t) && Orderly(t, b) && InOrder(t, b)
  {
    hide ListInv, Orderly, InOrder, Begins, Leads;
    var es :| Leads(c, Waiting, s, es, t);
    BeginIsOrderly(c, os, s);
    LeadsKeepsInv(c, os, Waiting, s, es, t);
    LeadsKeepsOrder(c, Waiting, s, es, t);
    OrderlyIsInOrder(t, b);
  }

  /** Under the same condition a block between chains holds the last write, in arrival order, of
      the requests it is through with, and with nothing left to do the last that arrived. */
  lemma CacheHoldsLastArrived(c: Config, os: seq<Outside>, s: Front, t: Front, b: nat)
    requires Begins(c, os, s) && Reaches(c, Waiting, s, t) && b < |t.st.blocks|
    ensures ListInv(c, os, t)
    ensures var blk, l, all := t.st.blocks[b], Loc(t.st, b), Of(t.log, b);
            blk.pc == 0 ==>
              && 0 <= Done(blk) <= |all|
              && View(l) == LastWrite(c, os[b].bytes, all[..Done(blk)])
              && l.out == os[b].out + Answers(c, os[b].bytes, all[..Done(blk)])
              && (blk.jobs == [] && Of(t.passed, b) == [] && Of(t.ahead, b) == [] ==> all[..Done(blk)] == all)
  {
    hide Owned, BlkOk, LastWrite, Answers, Of, Begins, Reaches;
    ArrivalOrderKept(c, os, s, t, b);
    HoldsLastWrite(c, os, t.st, b);
    var blk, all := t.st.blocks[b], Of(t.log, b);
    if blk.pc == 0 {
      assert all[..Done(blk)] == blk.hist[..Done(blk)];
    }
  }

  /* ---- a held request waits for another to arrive ---- */

  /** Between passes and without arrivals nothing is mapped any more, whatever the blocks do. */
  lemma {:induction false} HeldUntilArrival(c: Config, s: Front, es: seq<Move>, t: Front, b: nat)
    requires s.ahead == [] && Leads(c, Quiet, s, es, t) && b < |s.st.blocks|
    ensures t.passed == s.passed && t.ahead == [] && t.log == s.log
    ensures |t.st.blocks| == |s.st.blocks| && t.st.blocks[b].hist == s.st.blocks[b].hist
    decreases |es|
  {
    hide Enabled, Next;
    if es != [] {
      var n := Moved(c, s, es[0]);
      EventOnBlock(c, s.st, Run(es[0].b), b);
      HeldUntilArrival(c, n, es[1..], t, b);
    }
  }
}
