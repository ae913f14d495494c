/** Runs of the pool with waits in one step, and states in which every thread waits for good. */
module TierJam {
  import opened Volume
  import opened TierChain
  import opened TierFlat
  import opened TierMachine
  import opened TierRuns
  import opened TierWork
  import opened Tier
  import opened TierProgress
  import opened TierPool

  /* ---- runs ---- */

  ghost predicate Leads(c: Config, t: nat, p: Pool, es: seq<PoolEvent>, q: Pool)
    decreases |es|
  {
    if es == [] then p == q
    else CanHappen(c, t, p, es[0]) && Leads(c, t, Happens(c, t, p, es[0]), es[1..], q)
  }

  ghost predicate Reaches(c: Config, t: nat, p: Pool, q: Pool) {
    exists es :: Leads(c, t, p, es, q)
  }

  lemma {:induction false} LeadsOn(c: Config, t: nat, p: Pool, es: seq<PoolEvent>, q: Pool, e: PoolEvent)
    requires Leads(c, t, p, es, q) && CanHappen(c, t, q, e)
    ensures Leads(c, t, p, es + [e], Happens(c, t, q, e))
    decreases |es|
  {
    hide CanHappen, Happens;
    if es == [] {
      assert (es + [e])[1..] == [];
    } else {
      LeadsOn(c, t, Happens(c, t, p, es[0]), es[1..], q, e);
      assert (es + [e])[1..] == es[1..] + [e];
    }
  }

  lemma {:induction false} LeadsKeepsInv(c: Config, t: nat, vs: seq<View>, p: Pool, es: seq<PoolEvent>, q: Pool)
    requires PoolInv(c, t, vs, p) && Leads(c, t, p, es, q)
    ensures PoolInv(c, t, vs, q)
    decreases |es|
  {
    hide CanHappen, Happens, PoolInv;
    if es != [] {
      PoolStep(c, t, vs, p, es[0]);
      LeadsKeepsInv(c, t, vs, Happens(c, t, p, es[0]), es[1..], q);
    }
  }

  /** A run from `p0` is at `p`. */
  ghost predicate At(c: Config, t: nat, vs: seq<View>, p0: Pool, p: Pool) {
    Reaches(c, t, p0, p) && PoolInv(c, t, vs, p)
  }

  lemma Advance(c: Config, t: nat, vs: seq<View>, p0: Pool, p: Pool, e: PoolEvent)
    requires At(c, t, vs, p0, p) && CanHappen(c, t, p, e)
    ensures At(c, t, vs, p0, Happens(c, t, p, e))
  {
    hide CanHappen, Happens, PoolInv;
    var es :| Leads(c, t, p0, es, p);
    LeadsOn(c, t, p0, es, p, e);
    PoolStep(c, t, vs, p, e);
  }

  /** Idle blocks, no requests yet and all threads free. */
  ghost predicate Begins(c: Config, v0: seq<Byte>, vs: seq<View>, p: Pool) {
    Starts(c, v0, vs, p.st) && p.holders == {} && p.tasks == []
  }

  lemma BeginIsAt(c: Config, t: nat, v0: seq<Byte>, vs: seq<View>, p: Pool)
    requires Begins(c, v0, vs, p)
    ensures At(c, t, vs, p, p)
  {
    StartIsInv(c, v0, vs, p.st);
    assert Leads(c, t, p, [], p);
    forall b: nat ensures !Busy(p.st, b) {
      assert b < c.n ==> StartsAt(c, v0, vs[b], b, p.st.blocks[b]);
    }
  }

  /* ---- a jam never resolves ---- */

  /** Every thread waits at a barrier that is not full. */
  ghost predicate Jammed(c: Config, t: nat, p: Pool) {
    && Shape(c, p.st) && |p.holders| == t
    && forall b :: b in p.holders ==> b < c.n && Busy(p.st, b) && !MayPass(c, p.st.board, p.st.blocks[b])
  }

  /** No event resolves a jam: all that happens any more is that requests arrive and are mapped. */
  lemma JamStays(c: Config, t: nat, vs: seq<View>, p: Pool, e: PoolEvent)
    requires PoolInv(c, t, vs, p) && Jammed(c, t, p) && CanHappen(c, t, p, e)
    ensures (e.Enter? || e.MapOne?) && Jammed(c, t, Happens(c, t, p, e))
  {
    hide Good, Listed, Full, Waits, JobOn, Touches, Target, Pieces;
    PoolStep(c, t, vs, p, e);
    var q := Happens(c, t, p, e);
    InvIsShaped(c, vs, q.st);
    match e
    case Take => assert false;
    case Run(b) => assert false;
    case Enter(r) =>
      forall b | b in q.holders ensures !MayPass(c, q.st.board, q.st.blocks[b]) {
        assert !MayPass(c, p.st.board, p.st.blocks[b]);
        assert Runnable(c, p.st.board, p.st.blocks[b]);
      }
    case MapOne =>
      MapChanges(c, p.st.board, 0, 0);
      forall b | b in q.holders
        ensures b < c.n && Busy(q.st, b) && !MayPass(c, q.st.board, q.st.blocks[b])
      {
        assert !MayPass(c, p.st.board, p.st.blocks[b]);
        WaitsAfterQueue(c.bs, p.st.blocks[b], q.st.blocks[b]);
      }
  }

  lemma WaitsAfterQueue(bs: nat, w: Worker, m: Worker)
    requires w.jobs != [] && m.pc == w.pc && |m.jobs| >= |w.jobs| && m.jobs[0] == w.jobs[0]
    ensures Waits(bs, m) <==> Waits(bs, w)
  {
  }

  lemma {:induction false} JamIsForEver(c: Config, t: nat, vs: seq<View>, p: Pool, es: seq<PoolEvent>, q: Pool)
    requires PoolInv(c, t, vs, p) && Jammed(c, t, p) && Leads(c, t, p, es, q)
    ensures Jammed(c, t, q)
    decreases |es|
  {
    hide CanHappen, Happens, PoolInv, Jammed;
    if es != [] {
      JamStays(c, t, vs, p, es[0]);
      PoolStep(c, t, vs, p, es[0]);
      JamIsForEver(c, t, vs, Happens(c, t, p, es[0]), es[1..], q);
    }
  }

  /** With all requests mapped a jam is a stop. */
  lemma JamIsStuck(c: Config, t: nat, vs: seq<View>, p: Pool)
    requires PoolInv(c, t, vs, p) && Jammed(c, t, p) && t > 0 && AllMapped(c, p.st.board)
    ensures Stuck(c, t, p)
  {
    hide Good, MayPass, Listed;
    assert p.holders != {};
    var b :| b in p.holders;
    assert Busy(p.st, b);
  }
}
