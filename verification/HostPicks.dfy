/** Which hosts are picked from a stream of draws: slot after slot, the first draw of the slot's
    window that is up and not picked yet. */
module HostPicks {
  import opened Basics
  import opened CrushTypes

  /** The first of the `n` ranks from `from` on that draws a host that is up and not taken. */
  function NextRank(draw: nat -> int, up: set<int>, taken: seq<int>, from: nat, n: nat): (r: Option<nat>)
    ensures r.Some? ==>
              && from <= r.value < from + n && draw(r.value) in up && draw(r.value) !in taken
              && forall s :: from <= s < r.value && draw(s) in up ==> draw(s) in taken
    ensures r.None? ==> forall s :: from <= s < from + n && draw(s) in up ==> draw(s) in taken
    decreases n
  {
    if n == 0 then None
    else if draw(from) in up && draw(from) !in taken then Some(from)
    else NextRank(draw, up, taken, from + 1, n - 1)
  }

  /** The picks once slots `rep` to `slots - 1` have had their turn. */
  function Picks(draw: nat -> int, up: set<int>, tries: nat, slots: nat, rep: nat, taken: seq<int>): (p: seq<int>)
    ensures taken <= p && |p| <= |taken| + (if slots > rep then slots - rep else 0)
    decreases if slots > rep then slots - rep else 0
  {
    if rep >= slots then taken
    else
      var r := NextRank(draw, up, taken, rep, tries);
      Picks(draw, up, tries, slots, rep + 1, if r.Some? then taken + [draw(r.value)] else taken)
  }

  /** What is picked is up, and picked once. */
  lemma {:induction false} PicksAreUp(draw: nat -> int, up: set<int>, tries: nat, slots: nat, rep: nat, taken: seq<int>)
    requires Distinct(taken) && forall k :: k in taken ==> k in up
    ensures var p := Picks(draw, up, tries, slots, rep, taken); Distinct(p) && forall k :: k in p ==> k in up
    decreases if slots > rep then slots - rep else 0
  {
    if rep < slots {
      var r := NextRank(draw, up, taken, rep, tries);
      PicksAreUp(draw, up, tries, slots, rep + 1, if r.Some? then taken + [draw(r.value)] else taken);
    }
  }

  /** The picks from slot `rep` on, given what the slot finds. */
  lemma PicksNext(draw: nat -> int, up: set<int>, tries: nat, slots: nat, rep: nat, taken: seq<int>)
    requires rep < slots
    ensures var r := NextRank(draw, up, taken, rep, tries);
            Picks(draw, up, tries, slots, rep, taken) ==
            Picks(draw, up, tries, slots, rep + 1, if r.Some? then taken + [draw(r.value)] else taken)
  {
  }

  /** Some host is picked exactly when one of the ranks that the slots look at draws one that is
      up. */
  lemma {:induction false} SomePickIff(draw: nat -> int, up: set<int>, tries: nat, slots: nat, rep: nat)
    requires tries >= 1
    ensures Picks(draw, up, tries, slots, rep, []) != [] <==>
            rep < slots && exists r :: rep <= r < slots - 1 + tries && draw(r) in up
    decreases if slots > rep then slots - rep else 0
  {
    if rep < slots {
      var r := NextRank(draw, up, [], rep, tries);
      if r.None? {
        SomePickIff(draw, up, tries, slots, rep + 1);
      } else {
        assert [draw(r.value)] <= Picks(draw, up, tries, slots, rep + 1, [] + [draw(r.value)]);
      }
    }
  }

  /** The first pick is the first draw that is up. */
  lemma {:induction false} FirstPick(draw: nat -> int, up: set<int>, tries: nat, slots: nat, rep: nat, r: nat)
    requires rep <= r < slots - 1 + tries && rep < slots && tries >= 1 && draw(r) in up
    requires forall s :: rep <= s < r ==> draw(s) !in up
    ensures var p := Picks(draw, up, tries, slots, rep, []); p != [] && p[0] == draw(r)
    decreases slots - rep
  {
    var n := NextRank(draw, up, [], rep, tries);
    if n.None? {
      FirstPick(draw, up, tries, slots, rep + 1, r);
    } else {
      assert n.value == r;
      assert [draw(r)] <= Picks(draw, up, tries, slots, rep + 1, [] + [draw(r)]);
    }
  }

  ghost function Drawn(draw: nat -> int, up: set<int>, from: nat, n: nat): (s: set<int>)
    ensures forall k :: k in s <==> k in up && exists r :: from <= r < from + n && draw(r) == k
  {
    set k | k in up && exists r :: from <= r < from + n && draw(r) == k
  }

  /** A slot stays empty only if all that its window draws is taken. */
  lemma {:induction false} ShortMeansExhausted(draw: nat -> int, up: set<int>, tries: nat, slots: nat, rep: nat,
                                               taken: seq<int>)
    requires |Picks(draw, up, tries, slots, rep, taken)| < |taken| + slots - rep && rep < slots
    ensures exists q :: rep <= q < slots && AllPicked(draw, up, tries, q, Picks(draw, up, tries, slots, rep, taken))
    decreases slots - rep
  {
    var r := NextRank(draw, up, taken, rep, tries);
    var p := Picks(draw, up, tries, slots, rep, taken);
    if r.None? {
      assert AllPicked(draw, up, tries, rep, p);
    } else {
      ShortMeansExhausted(draw, up, tries, slots, rep + 1, taken + [draw(r.value)]);
    }
  }

  ghost predicate AllPicked(draw: nat -> int, up: set<int>, tries: nat, q: nat, p: seq<int>) {
    Drawn(draw, up, q, tries) <= Elements(p)
  }

  function Elements(p: seq<int>): (s: set<int>)
    ensures forall k :: k in s <==> k in p
  {
    set k | k in p
  }

  lemma {:induction false} ElementsCount(p: seq<int>)
    ensures |Elements(p)| <= |p|
  {
    if p != [] {
      ElementsCount(p[..|p| - 1]);
      assert Elements(p) == Elements(p[..|p| - 1]) + {p[|p| - 1]};
    }
  }

  /** Every slot is filled if the ranks that all windows share draw enough hosts that are up. */
  lemma FilledIfEnoughDrawn(draw: nat -> int, up: set<int>, tries: nat, slots: nat)
    requires 1 <= slots <= tries && |Drawn(draw, up, slots - 1, tries - slots + 1)| >= slots
    ensures |Picks(draw, up, tries, slots, 0, [])| == slots
  {
    var p := Picks(draw, up, tries, slots, 0, []);
    if |p| < slots {
      ShortMeansExhausted(draw, up, tries, slots, 0, []);
      var q :| 0 <= q < slots && AllPicked(draw, up, tries, q, p);
      ElementsCount(p);
      assert Drawn(draw, up, slots - 1, tries - slots + 1) <= Drawn(draw, up, q, tries);
      SubsetSize(Drawn(draw, up, slots - 1, tries - slots + 1), Elements(p));
    }
  }
}
