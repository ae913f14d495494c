/** Runs that jam every pool with fewer threads than blocks. */
module TierJamRun {
  import opened Split
  import opened TierChain
  import opened TierFlat
  import opened TierMachine
  import opened TierRuns
  import opened TierWork
  import opened Tier
  import opened TierPool
  import opened TierJam

  /* ---- requests for whole blocks ---- */

  /** Blocks `a` to `a + k - 1`. */
  function Whole(bs: nat, io: IoType, a: nat, k: nat): Req {
    Req(io, bs * a, bs * k, seq(bs * k, _ => 0))
  }

  lemma WholeCount(bs: nat, io: IoType, a: nat, k: nat)
    requires bs > 0 && k > 0
    ensures var r := Whole(bs, io, a, k);
            && r.offset / bs == a && |Pieces(r, bs)| == k && SharedCount(r.offset, r.length, bs) == k
            && forall b :: Touches(r, b, bs) <==> a <= b < a + k
  {
    hide Fragments;
    DivOfMultiple(a, bs, 0);
    DivOfMultiple(k, bs, 0);
    FarMultiple(bs, k);
    CountIsShared(bs * a, bs * k, 0, bs);
  }

  /** Each of its fragments is a whole block. */
  lemma WholeJob(bs: nat, io: IoType, a: nat, k: nat, rid: nat, b: nat)
    requires bs > 0 && a <= b < a + k
    ensures var r := Whole(bs, io, a, k);
            Touches(r, b, bs) && JobOn(rid, r, b, bs).f.size == bs
  {
    hide Fragments, SharedCount;
    var r := Whole(bs, io, a, k);
    WholeCount(bs, io, a, k);
    FragmentAt(bs * a, bs * k, 0, bs, b - a);
    var f := PieceOn(r, b, bs);
    assert f.block == b && bs * b + f.offset == bs * a + f.data;
    if b - a + 1 == k {
      assert bs * b + bs == bs * a + bs * k;
    }
  }

  lemma WholeEnters(c: Config, io: IoType, a: nat, k: nat)
    requires c.bs > 0 && k > 0 && a + k <= c.n && (io == Write ==> k <= 255)
    ensures InVolume(Whole(c.bs, io, a, k), c.bs, c.n) && Countable(c.bs, Whole(c.bs, io, a, k))
  {
    hide SharedCount;
    WholeCount(c.bs, io, a, k);
    FarMultiple(c.bs, c.n - a - k);
    assert c.bs * a + c.bs * k == c.bs * c.n - c.bs * (c.n - a - k);
  }

  /* ---- a request enters and is mapped ---- */

  /** A block's queue once the first `i` fragments of request `k` are mapped. */
  ghost function Upon(bs: nat, w: Worker, k: nat, r: Req, b: nat, i: nat): Worker
    requires bs > 0 && |r.data| == r.length
  {
    if Touches(r, b, bs) && b - r.offset / bs < i then w.(jobs := w.jobs + [JobOn(k, r, b, bs)]) else w
  }

  /** Of the `i` blocks from `first` on, those without work. */
  ghost function Newly(blocks: seq<Worker>, first: nat, i: nat): seq<nat>
    requires first + i <= |blocks|
  {
    if i == 0 then []
    else Newly(blocks, first, i - 1) + if blocks[first + i - 1].jobs == [] then [first + i - 1] else []
  }

  lemma {:induction false} AllNewly(blocks: seq<Worker>, first: nat, i: nat, k: nat)
    requires first + i <= |blocks| && forall b :: first <= b < first + i ==> blocks[b].jobs == []
    ensures |Newly(blocks, first, i)| == i && (k < i ==> Newly(blocks, first, i)[k] == first + k)
  {
    if i > 0 {
      AllNewly(blocks, first, i - 1, k);
    }
  }

  /** From `p`, request `r` has entered and `i` of its fragments are mapped. */
  ghost predicate Mapping(c: Config, p: Pool, r: Req, i: nat, q: Pool) {
    && c.bs > 0 && |r.data| == r.length && |p.st.blocks| == |q.st.blocks| == c.n
    && q.st.board == Board(p.st.board.reqs + [r], i, p.st.board.arrived + [{}])
    && q.holders == p.holders && r.offset / c.bs + i <= c.n
    && q.tasks == p.tasks + Newly(p.st.blocks, r.offset / c.bs, i)
    && forall b :: 0 <= b < c.n ==> q.st.blocks[b] == Upon(c.bs, p.st.blocks[b], |p.st.board.reqs|, r, b, i)
  }

  lemma MapOneMore(c: Config, t: nat, vs: seq<View>, p0: Pool, p: Pool, r: Req, i: nat, q: Pool) returns (m: Pool)
    requires At(c, t, vs, p0, q) && Mapping(c, p, r, i, q) && i < |Pieces(r, c.bs)|
    ensures At(c, t, vs, p0, m) && Mapping(c, p, r, i + 1, m)
  {
    hide Good, Listed, JobOn, Pieces, Reaches;
    InvIsShaped(c, vs, q.st);
    assert CanHappen(c, t, q, MapOne);
    Advance(c, t, vs, p0, q, MapOne);
    m := Happens(c, t, q, MapOne);
    MapChanges(c, q.st.board, 0, 0);
    var x := Target(c, q.st.board);
    assert x == r.offset / c.bs + i;
    assert q.st.blocks[x] == p.st.blocks[x];
    forall b | 0 <= b < c.n
      ensures m.st.blocks[b] == Upon(c.bs, p.st.blocks[b], |p.st.board.reqs|, r, b, i + 1)
    {
      assert q.st.blocks[b] == Upon(c.bs, p.st.blocks[b], |p.st.board.reqs|, r, b, i);
    }
  }

  lemma EnterOne(c: Config, t: nat, vs: seq<View>, p0: Pool, p: Pool, r: Req) returns (q: Pool)
    requires At(c, t, vs, p0, p) && AllMapped(c, p.st.board) && r.length > 0
    requires InVolume(r, c.bs, c.n) && Countable(c.bs, r) && r.io != Discard
    ensures At(c, t, vs, p0, q) && Mapping(c, p, r, 0, q)
  {
    hide Good, Listed, Pieces, Reaches, Countable, AllMapped;
    InvIsShaped(c, vs, p.st);
    Advance(c, t, vs, p0, p, Enter(r));
    q := Happens(c, t, p, Enter(r));
    SomePiece(r, c.bs);
    PieceAt(r, 0, c.bs);
    PieceInVolume(r, r.offset / c.bs, c.bs, c.n);
  }

  /** A request enters and all its fragments are mapped. */
  lemma EnterAndMap(c: Config, t: nat, vs: seq<View>, p0: Pool, p: Pool, r: Req) returns (q: Pool)
    requires At(c, t, vs, p0, p) && AllMapped(c, p.st.board) && r.length > 0
    requires InVolume(r, c.bs, c.n) && Countable(c.bs, r) && r.io != Discard
    ensures At(c, t, vs, p0, q) && Mapping(c, p, r, |Pieces(r, c.bs)|, q) && AllMapped(c, q.st.board)
  {
    hide At, Pieces, Upon, Newly, Countable;
    q := EnterOne(c, t, vs, p0, p, r);
    var i := 0;
    while i < |Pieces(r, c.bs)|
      invariant i <= |Pieces(r, c.bs)|
      invariant At(c, t, vs, p0, q) && Mapping(c, p, r, i, q)
    {
      q := MapOneMore(c, t, vs, p0, p, r, i, q);
      i := i + 1;
    }
  }

  /* ---- threads take tasks ---- */

  /** The first `i` tasks, which are blocks `first` on, are taken. */
  lemma TakeSome(c: Config, t: nat, vs: seq<View>, p0: Pool, p: Pool, first: nat, i: nat) returns (q: Pool)
    requires At(c, t, vs, p0, p) && p.holders == {} && i <= t && i <= |p.tasks|
    requires forall k :: 0 <= k < i ==> p.tasks[k] == first + k
    ensures At(c, t, vs, p0, q) && q == Pool(p.st, Range(first, i), p.tasks[i..])
  {
    hide Inv, Shape, Reaches, Staffed;
    if i == 0 {
      q := p;
    } else {
      var m := TakeSome(c, t, vs, p0, p, first, i - 1);
      InvIsShaped(c, vs, m.st);
      assert m.tasks[0] == first + i - 1;
      Advance(c, t, vs, p0, m, Take);
      q := Happens(c, t, m, Take);
      assert Range(first, i) == Range(first, i - 1) + {first + i - 1};
    }
  }

  /* ---- threads run ---- */

  /** A step of a thread that is at no barrier and keeps its block. */
  lemma PlainRun(c: Config, t: nat, vs: seq<View>, p0: Pool, p: Pool, h: nat) returns (q: Pool)
    requires At(c, t, vs, p0, p) && h in p.holders && h < |p.st.blocks| == c.n
    requires var w := p.st.blocks[h];
             && WorkerOk(c.bs, w) && w.jobs != [] && !HandsOver(c.bs, w) && !Waits(c.bs, w)
             && Worked(c.bs, w).jobs != []
    ensures At(c, t, vs, p0, q)
    ensures q == Pool(State(p.st.board, p.st.blocks[h := Worked(c.bs, p.st.blocks[h])]), p.holders, p.tasks)
  {
    hide Good, Listed, Staffed, Reaches, Worked, HandsOver, Waits, WorkerOk;
    InvIsShaped(c, vs, p.st);
    assert CanHappen(c, t, p, Run(h));
    Advance(c, t, vs, p0, p, Run(h));
    q := Happens(c, t, p, Run(h));
  }

  /** A hand-over that does not fill the barrier. */
  lemma HandRun(c: Config, t: nat, vs: seq<View>, p0: Pool, p: Pool, h: nat) returns (q: Pool)
    requires At(c, t, vs, p0, p) && h in p.holders && h < |p.st.blocks| == c.n && c.bs > 0
    requires WorkerOk(c.bs, p.st.blocks[h]) && HandsOver(c.bs, p.st.blocks[h])
    requires var g, rid := p.st.board, p.st.blocks[h].jobs[0].rid;
             rid < |g.reqs| == |g.arrived| && !Full(c.bs, g.reqs[rid], g.arrived[rid] + {h})
    ensures At(c, t, vs, p0, q) && q.holders == p.holders && q.tasks == p.tasks
    ensures var g, w := p.st.board, p.st.blocks[h];
            q.st == State(HandedOver(g, w.jobs[0].rid, h), p.st.blocks[h := Worked(c.bs, w)])
  {
    hide Good, Listed, Staffed, Reaches, Full, WorkerOk;
    InvIsShaped(c, vs, p.st);
    var w := p.st.blocks[h];
    assert MayPass(c, p.st.board, w);
    assert CanHappen(c, t, p, Run(h));
    Advance(c, t, vs, p0, p, Run(h));
    q := Happens(c, t, p, Run(h));
    var m := HandedOver(p.st.board, w.jobs[0].rid, h);
    var blocks := p.st.blocks[h := Worked(c.bs, w)];
    assert q.st.blocks == AllAtSubmission(c, m, w.jobs[0].rid, blocks) == blocks;
    JobsAfterWork(c, p.st, h, h);
    StillHandedOver(c.bs, w);
  }

  lemma StillHandedOver(bs: nat, w: Worker)
    requires WorkerOk(bs, w) && HandsOver(bs, w)
    ensures Worked(bs, w).jobs == w.jobs && Worked(bs, w).pc == w.pc + 1
  {
  }

  /** A block with a whole read first and then a whole write of request `h`. */
  ghost predicate Ready(bs: nat, w: Worker, h: nat) {
    && |w.jobs| >= 2 && w.pc == 0 && w.jobs[0].io == Read && w.jobs[0].f.size == bs
    && w.jobs[1].io == Write && w.jobs[1].rid == h && w.jobs[1].f.size == bs
  }

  /** A block that waits for the submission of request `h`. */
  ghost predicate Blocked(bs: nat, w: Worker, h: nat) {
    Waits(bs, w) && w.jobs[0].rid == h
  }

  /** Request `h` is a write on two blocks, of which `a` have been handed over. */
  ghost predicate Pair(c: Config, g: Board, h: nat, a: set<nat>) {
    && c.bs > 0 && h < |g.reqs| == |g.arrived| && SharedCount(g.reqs[h].offset, g.reqs[h].length, c.bs) == 2
    && g.arrived[h] == a
  }

  lemma ReadTwice(bs: nat, w: Worker, h: nat)
    requires bs > 0 && WorkerOk(bs, w) && Ready(bs, w, h)
    ensures !HandsOver(bs, w) && !Waits(bs, w)
    ensures var m := Worked(bs, w);
            && m.jobs == w.jobs && m.pc == 1 && WorkerOk(bs, m) && !HandsOver(bs, m) && !Waits(bs, m)
            && var k := Worked(bs, m); k.jobs == w.jobs[1..] && k.pc == 0 && WorkerOk(bs, k) && HandsOver(bs, k)
  {
  }

  /** A thread runs the read of its block, hands it over and waits. */
  lemma RunToBarrier(c: Config, t: nat, vs: seq<View>, p0: Pool, p: Pool, h: nat) returns (q: Pool)
    requires At(c, t, vs, p0, p) && h in p.holders && h < |p.st.blocks| == c.n
    requires Ready(c.bs, p.st.blocks[h], h) && Pair(c, p.st.board, h, {})
    ensures At(c, t, vs, p0, q) && q.holders == p.holders && |q.st.blocks| == c.n
    ensures q.st.board == p.st.board.(arrived := p.st.board.arrived[h := {h}])
    ensures Blocked(c.bs, q.st.blocks[h], h)
    ensures forall x :: 0 <= x < c.n && x != h ==> q.st.blocks[x] == p.st.blocks[x]
  {
    hide At, Worked, WorkerOk, SharedCount;
    var w := p.st.blocks[h];
    AtIsOk(c, t, vs, p0, p, h);
    ReadTwice(c.bs, w, h);
    var m := PlainRun(c, t, vs, p0, p, h);
    var k := PlainRun(c, t, vs, p0, m, h);
    assert p.st.board.arrived[h] + {h} == {h};
    q := HandRun(c, t, vs, p0, k, h);
    StillHandedOver(c.bs, k.st.blocks[h]);
  }

  lemma AtIsOk(c: Config, t: nat, vs: seq<View>, p0: Pool, p: Pool, h: nat)
    requires At(c, t, vs, p0, p) && h < c.n
    ensures |p.st.blocks| == c.n && WorkerOk(c.bs, p.st.blocks[h])
  {
    assert Good(c, p.st.board, h, p.st.blocks[h], vs[h]);
  }
}
