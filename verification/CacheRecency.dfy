/** The lists are in order of use: in every run, of two blocks in the clean or the dirty list the
    one before the other was used later, and of two free entries the one dropped later.  So a
    miss takes the entry that was dropped last. */
module CacheRecency {
  import opened Lru
  import opened CacheChain
  import opened CacheBlock
  import opened CacheMachine
  import opened Cache

  /** Reads, writes and flushes of a cached block use it once, right before they complete. */
  lemma UseIsNextToLast(c: Config, p: Plan, i: nat)
    requires i < |Compile(c, p)|
    ensures Compile(c, p)[i] == UpdateLRU <==>
            && i == |Compile(c, p)| - 2
            && (p.ask.io == Read || (p.ask.io == Write && !c.readOnly) || (p.ask.io == Flush && p.entry.At?))
  {
  }

  /** Demotions and discards of a cached block drop its entry. */
  lemma DropIsLate(c: Config, p: Plan, i: nat)
    requires i < |Compile(c, p)|
    ensures Compile(c, p)[i] == UnlinkLRU <==>
            i == |Compile(c, p)| - 3 && (p.ask.io == Demote || p.ask.io == Discard) && p.entry.At?
  {
  }

  /** What moves something to the front of a list: a use of a block, or the drop of an entry. */
  datatype Mark = Use | Drop

  /** The event is a use of block `x`, or the drop of entry `x`. */
  ghost predicate Marks(c: Config, st: State, e: Event, mark: Mark, x: nat) {
    && e.Run? && e.b < |st.blocks| && Runnable(c, st.blocks[e.b])
    && var p, op := st.blocks[e.b].jobs[0], Compile(c, st.blocks[e.b].jobs[0])[st.blocks[e.b].pc];
       if mark == Use then op == UpdateLRU && e.b == x else op == UnlinkLRU && p.entry == At(x)
  }

  /** The step of the run at which this last happened to `x` before state `k`, or -1. */
  ghost function LastMark(c: Config, sts: seq<State>, es: seq<Event>, mark: Mark, k: nat, x: nat): (u: int)
    requires k <= |es| <= |sts|
    ensures -1 <= u < k
  {
    if k == 0 then -1
    else if Marks(c, sts[k - 1], es[k - 1], mark, x) then k - 1
    else LastMark(c, sts, es, mark, k - 1, x)
  }

  ghost predicate Later(c: Config, sts: seq<State>, es: seq<Event>, mark: Mark, k: nat, x: nat, y: nat)
    requires k <= |es| <= |sts|
  {
    LastMark(c, sts, es, mark, k, x) > LastMark(c, sts, es, mark, k, y) || LastMark(c, sts, es, mark, k, y) == -1
  }

  ghost predicate LatestFirst(c: Config, sts: seq<State>, es: seq<Event>, mark: Mark, k: nat, list: seq<nat>)
    requires k <= |es| <= |sts|
  {
    forall i, j :: 0 <= i < j < |list| ==> Later(c, sts, es, mark, k, list[i], list[j])
  }

  lemma {:induction false} WithoutInOrder(c: Config, sts: seq<State>, es: seq<Event>, mark: Mark, k: nat,
                                          list: seq<nat>, x: nat)
    requires k <= |es| <= |sts| && LatestFirst(c, sts, es, mark, k, list)
    ensures LatestFirst(c, sts, es, mark, k, Without(list, x))
    ensures forall y :: y in Without(list, x) ==> y in list && y != x
  {
    hide Later;
    if list != [] {
      WithoutInOrder(c, sts, es, mark, k, list[1..], x);
      var rest := Without(list[1..], x);
      assert forall y :: y in rest ==> y in list[1..];
      assert forall y :: y in list[1..] ==> Later(c, sts, es, mark, k, list[0], y);
    }
  }

  /** A step that marks none of these does not change their order. */
  lemma SameOrder(c: Config, sts: seq<State>, es: seq<Event>, mark: Mark, k: nat, list: seq<nat>)
    requires k < |es| <= |sts| && LatestFirst(c, sts, es, mark, k, list)
    requires forall x :: x in list ==> !Marks(c, sts[k], es[k], mark, x)
    ensures LatestFirst(c, sts, es, mark, k + 1, list)
  {
    hide Marks;
    forall i, j | 0 <= i < j < |list| ensures Later(c, sts, es, mark, k + 1, list[i], list[j]) {
      assert Later(c, sts, es, mark, k, list[i], list[j]);
    }
  }

  lemma MarkedComesFirst(c: Config, sts: seq<State>, es: seq<Event>, mark: Mark, k: nat, list: seq<nat>, x: nat)
    requires k < |es| <= |sts| && LatestFirst(c, sts, es, mark, k, list) && Marks(c, sts[k], es[k], mark, x)
    ensures LatestFirst(c, sts, es, mark, k + 1, Touched(list, x))
    ensures LatestFirst(c, sts, es, mark, k + 1, Without(list, x))
  {
    WithoutInOrder(c, sts, es, mark, k, list, x);
    SameOrder(c, sts, es, mark, k, Without(list, x));
  }

  /** What a step does to one of the lists. */
  ghost predicate Kept(c: Config, st: State, e: Event, mark: Mark, was: seq<nat>, now: seq<nat>) {
    if exists x :: Marks(c, st, e, mark, x) then
      exists x :: Marks(c, st, e, mark, x) && (now == Touched(was, x) || now == Without(was, x))
    else now == was || exists y :: now == Without(was, y)
  }

  lemma MapOnLists(c: Config, st: State, e: Event)
    requires Enabled(c, st, e) && e.Map?
    ensures var t := Next(c, st, e);
            && t.clean == st.clean && t.dirty == st.dirty
            && (t.free == st.free || exists y :: t.free == Without(st.free, y))
  {
    hide Compile, Without, Queued;
    if Misses(st.blocks[e.b], e.a) {
      assert Next(c, st, e).free == Without(st.free, st.free[0]);
    }
  }

  lemma RunOnLists(c: Config, st: State, e: Event)
    requires Enabled(c, st, e) && e.Run?
    ensures var t := Next(c, st, e);
            && Kept(c, st, e, Use, st.clean, t.clean) && Kept(c, st, e, Use, st.dirty, t.dirty)
            && Kept(c, st, e, Drop, st.free, t.free)
  {
    hide Compile, Perform, Without, Touched;
    var p, op := st.blocks[e.b].jobs[0], Compile(c, st.blocks[e.b].jobs[0])[st.blocks[e.b].pc];
    if op == UpdateLRU {
      assert Marks(c, st, e, Use, e.b);
    } else if op == UnlinkLRU && p.entry.At? {
      assert Marks(c, st, e, Drop, p.entry.e);
    }
  }

  lemma StepOnLists(c: Config, st: State, e: Event)
    requires Enabled(c, st, e)
    ensures var t := Next(c, st, e);
            && Kept(c, st, e, Use, st.clean, t.clean) && Kept(c, st, e, Use, st.dirty, t.dirty)
            && Kept(c, st, e, Drop, st.free, t.free)
  {
    hide Next, Enabled;
    match e
    case Map(_, _) => MapOnLists(c, st, e);
    case Run(_) => RunOnLists(c, st, e);
  }

  lemma NothingMarked(c: Config, sts: seq<State>, es: seq<Event>, mark: Mark, list: seq<nat>)
    requires |es| <= |sts|
    ensures LatestFirst(c, sts, es, mark, 0, list)
  {
  }

  lemma ListStep(c: Config, sts: seq<State>, es: seq<Event>, mark: Mark, i: nat, was: seq<nat>, now: seq<nat>)
    requires i < |es| <= |sts| && LatestFirst(c, sts, es, mark, i, was) && Kept(c, sts[i], es[i], mark, was, now)
    ensures LatestFirst(c, sts, es, mark, i + 1, now)
  {
    hide Later;
    if x: nat :| Marks(c, sts[i], es[i], mark, x) && (now == Touched(was, x) || now == Without(was, x)) {
      MarkedComesFirst(c, sts, es, mark, i, was, x);
    } else {
      if y: nat :| now == Without(was, y) {
        WithoutInOrder(c, sts, es, mark, i, was, y);
      }
      SameOrder(c, sts, es, mark, i, now);
    }
  }

  /** In every run the clean and the dirty list are in order of use and the free list in order of
      being dropped, the latest first. */
  lemma {:induction false} ListsByUse(c: Config, os: seq<Outside>, sts: seq<State>, es: seq<Event>, k: nat)
    requires IsRun(c, sts, es) && Starts(c, os, sts[0]) && k < |sts|
    ensures LatestFirst(c, sts, es, Use, k, sts[k].clean) && LatestFirst(c, sts, es, Use, k, sts[k].dirty)
    ensures LatestFirst(c, sts, es, Drop, k, sts[k].free)
  {
    hide Starts, Enabled, Next, Touched, Without, Marks, Later, Kept;
    if k == 0 {
      NothingMarked(c, sts, es, Use, sts[0].clean);
      NothingMarked(c, sts, es, Use, sts[0].dirty);
      NothingMarked(c, sts, es, Drop, sts[0].free);
    } else {
      var i := k - 1;
      ListsByUse(c, os, sts, es, i);
      assert StepTo(c, sts[i], es[i], sts[i + 1]);
      StepOnLists(c, sts[i], es[i]);
      ListStep(c, sts, es, Use, i, sts[i].clean, sts[k].clean);
      ListStep(c, sts, es, Use, i, sts[i].dirty, sts[k].dirty);
      ListStep(c, sts, es, Drop, i, sts[i].free, sts[k].free);
    }
  }

  /** A miss takes the entry that was dropped last of all that are free. */
  lemma MissTakesLatest(c: Config, os: seq<Outside>, sts: seq<State>, es: seq<Event>, k: nat)
    requires IsRun(c, sts, es) && Starts(c, os, sts[0]) && k < |es| && es[k].Map?
    requires es[k].b < |sts[k].blocks| == |sts[k + 1].blocks| && Misses(sts[k].blocks[es[k].b], es[k].a)
    ensures var blk := sts[k + 1].blocks[es[k].b];
            && blk.entry.At? && blk.entry.e in sts[k].free && blk.entry.e !in sts[k + 1].free
            && forall e :: e in sts[k].free && e != blk.entry.e ==> Later(c, sts, es, Drop, k, blk.entry.e, e)
  {
    hide Starts, Later;
    ListsByUse(c, os, sts, es, k);
    assert StepTo(c, sts[k], es[k], sts[k + 1]);
    WithoutInOrder(c, sts, es, Drop, k, sts[k].free, sts[k].free[0]);
  }
}
