/** The cache policy's start on a store that was in use: blocks get their entries back from the
    stored words, each of which names a status and an entry. */
module CacheReload {
  import opened Basics
  import opened Volume
  import opened Lru
  import opened CacheChain
  import opened CacheBlock
  import opened CacheMachine
  import opened CacheSteps
  import Cache

  /** What the first loop notes at the place of an entry number. */
  datatype Note = Nothing | Noted(b: nat, status: Status)

  /** What the second loop sets up: each block's entry, the entries' status, and the lists. */
  datatype Loaded = Loaded(ptr: seq<EntryPtr>, stat: seq<Status>, free: seq<nat>, clean: seq<nat>, dirty: seq<nat>)

  predicate Used(w: Word) {
    w.status != Unpromoted
  }

  /** Words in use name different entries of the `n` there are. */
  ghost predicate WordsOk(words: seq<Word>, n: nat) {
    && (forall b :: 0 <= b < |words| && Used(words[b]) ==> words[b].e < n)
    && (forall b, x :: 0 <= b < x < |words| && Used(words[b]) && Used(words[x]) ==> words[b].e != words[x].e)
  }

  /** The note at place `i` is the block, of the first `k`, whose word names it. */
  ghost predicate NoteOk(words: seq<Word>, k: nat, i: nat, note: Note)
    requires k <= |words|
  {
    match note
    case Nothing => forall b :: 0 <= b < k && Used(words[b]) ==> words[b].e != i
    case Noted(b, status) => b < k && Used(words[b]) && words[b] == Word(status, i)
  }

  method ReadWords(words: seq<Word>, n: nat) returns (notes: seq<Note>)
    requires WordsOk(words, n)
    ensures |notes| == n && forall i :: 0 <= i < n ==> NoteOk(words, |words|, i, notes[i])
  {
    notes := seq(n, _ => Nothing);
    for b := 0 to |words|
      invariant |notes| == n && forall i :: 0 <= i < n ==> NoteOk(words, b, i, notes[i])
    {
      if words[b].status != Unpromoted {
        notes := notes[words[b].e := Noted(b, words[b].status)];
      }
    }
  }

  /** Block `b` once the first `i` entries are set up. */
  ghost predicate BlockLoaded(words: seq<Word>, n: nat, i: nat, l: Loaded, b: nat)
    requires b < |words| == |l.ptr| && |l.stat| == n && WordsOk(words, n)
  {
    var w := words[b];
    if Used(w) && w.e < i then
      && l.ptr[b] == At(n - 1 - w.e) && l.stat[n - 1 - w.e] == w.status
      && (b in l.dirty <==> w.status == Dirty) && (b in l.clean <==> w.status == Flushed)
    else l.ptr[b] == Null && b !in l.dirty && b !in l.clean
  }

  /** Entry `id` once the first `i` are set up. */
  ghost predicate EntryLoaded(words: seq<Word>, n: nat, i: nat, l: Loaded, id: nat)
    requires id < |l.stat| == n
  {
    && (id in l.free ==> l.stat[id] == Unpromoted)
    && (id in l.free <==>
        n - 1 - id < i && forall b :: 0 <= b < |words| && Used(words[b]) ==> words[b].e != n - 1 - id)
  }

  ghost predicate SetUp(words: seq<Word>, n: nat, i: nat, l: Loaded) {
    && WordsOk(words, n) && |l.ptr| == |words| && |l.stat| == n
    && Distinct(l.free) && Distinct(l.clean) && Distinct(l.dirty)
    && (forall id :: id in l.free ==> id < n)
    && (forall b :: 0 <= b < |words| ==> BlockLoaded(words, n, i, l, b))
    && (forall id :: 0 <= id < n ==> EntryLoaded(words, n, i, l, id))
    && (forall id :: 0 <= id < n - i ==> l.stat[id] == Unpromoted)
  }

  /** One entry of the second loop.  Entries are numbered downwards, but place `i` is the `i`-th
      of them. */
  function SetUpOne(n: nat, i: nat, note: Note, l: Loaded): Loaded
    requires i < n == |l.stat| && (note.Noted? ==> note.b < |l.ptr|)
  {
    var id: nat := n - 1 - i;
    match note
    case Nothing => l.(free := Touched(l.free, id))
    case Noted(b, status) =>
      l.(ptr := l.ptr[b := At(id)], stat := l.stat[id := status],
         dirty := if status == Dirty then Touched(l.dirty, b) else l.dirty,
         clean := if status == Flushed then Touched(l.clean, b) else l.clean)
  }

  lemma SetUpNext(words: seq<Word>, n: nat, i: nat, note: Note, l: Loaded)
    requires SetUp(words, n, i, l) && i < n && NoteOk(words, |words|, i, note)
    ensures SetUp(words, n, i + 1, SetUpOne(n, i, note, l))
  {
    hide Touched, Distinct;
    var id: nat, k: nat, m := n - 1 - i, i + 1, SetUpOne(n, i, note, l);
    if note.Nothing? {
      TouchedSound(l.free, id);
    } else {
      TouchedSound(l.dirty, note.b);
      TouchedSound(l.clean, note.b);
    }
    forall b | 0 <= b < |words| ensures BlockLoaded(words, n, k, m, b) {
      assert BlockLoaded(words, n, i, l, b);
    }
    forall x | 0 <= x < n ensures EntryLoaded(words, n, k, m, x) {
      assert EntryLoaded(words, n, i, l, x);
    }
  }

  /** The loading part of the constructor. */
  method Load(words: seq<Word>, n: nat) returns (l: Loaded)
    requires WordsOk(words, n)
    ensures SetUp(words, n, n, l)
  {
    hide SetUp, NoteOk, SetUpOne;
    var notes := ReadWords(words, n);
    l := Loaded(seq(|words|, _ => Null), seq(n, _ => Unpromoted), [], [], []);
    NothingSetUp(words, n, l);
    for i := 0 to n
      invariant SetUp(words, n, i, l)
    {
      assert NoteOk(words, |words|, i, notes[i]);
      NoteInRange(words, n, i, notes[i], l);
      SetUpNext(words, n, i, notes[i], l);
      l := SetUpOne(n, i, notes[i], l);
    }
  }

  lemma NoteInRange(words: seq<Word>, n: nat, i: nat, note: Note, l: Loaded)
    requires SetUp(words, n, i, l) && NoteOk(words, |words|, i, note)
    ensures |l.stat| == n && (note.Noted? ==> note.b < |l.ptr|)
  {
  }

  lemma NothingSetUp(words: seq<Word>, n: nat, l: Loaded)
    requires WordsOk(words, n)
    requires l == Loaded(seq(|words|, _ => Null), seq(n, _ => Unpromoted), [], [], [])
    ensures SetUp(words, n, 0, l)
  {
  }

  /* ---- what a restart keeps ---- */

  /** The bytes block `b` stands for, from the stored contents of entries and backend. */
  function Contents(p: EntryPtr, data: seq<seq<Byte>>, back: seq<Byte>): seq<Byte>
    requires p.At? ==> p.e < |data|
  {
    if p.At? then data[p.e] else back
  }

  /** What the block stood for. */
  function Stood(w: Word, data: seq<seq<Byte>>, back: seq<Byte>): Outside
    requires Before(w).At? ==> Before(w).e < |data|
  {
    Outside(Contents(Before(w), data, back), [], back, w.status)
  }

  /** The entry a block had when its word was stored. */
  function Before(w: Word): EntryPtr {
    if Used(w) then At(w.e) else Null
  }

  /** Entries in use and the backend hold blocks of `bs` bytes. */
  ghost predicate Stored(words: seq<Word>, n: nat, bs: nat, data: seq<seq<Byte>>, back: seq<seq<Byte>>) {
    && WordsOk(words, n) && |data| == n && |back| == |words|
    && (forall b :: 0 <= b < |words| && Used(words[b]) ==> |data[words[b].e]| == bs)
    && (forall b :: 0 <= b < |back| ==> |back[b]| == bs)
  }

  /** The entry that loading gives to block `b`: the mirror image of the one its word names. */
  function Loads(words: seq<Word>, n: nat, l: Loaded, b: nat): (p: EntryPtr)
    requires SetUp(words, n, n, l) && b < |words|
    ensures p == if Used(words[b]) then At(n - 1 - words[b].e) else Null
  {
    assert BlockLoaded(words, n, n, l, b);
    l.ptr[b]
  }

  /** No block is in the cache but in the middle one of the entries. */
  ghost predicate Central(words: seq<Word>, n: nat) {
    forall b :: 0 <= b < |words| && Used(words[b]) ==> 2 * words[b].e + 1 == n
  }

  /** After a restart every block stands for what it did before, whatever the entries hold, if
      and only if no block is in the cache but in the middle one of the entries. */
  lemma RestartKeepsIff(words: seq<Word>, n: nat, bs: nat, l: Loaded, back: seq<seq<Byte>>)
    requires SetUp(words, n, n, l) && bs > 0 && |back| == |words| && forall b :: 0 <= b < |back| ==> |back[b]| == bs
    ensures (forall data, b :: Stored(words, n, bs, data, back) && 0 <= b < |words| ==>
               Contents(Loads(words, n, l, b), data, back[b]) == Contents(Before(words[b]), data, back[b]))
            <==> Central(words, n)
  {
    if b :| 0 <= b < |words| && Used(words[b]) && 2 * words[b].e + 1 != n {
      var ones: seq<Byte>, zeros: seq<Byte> := seq(bs, _ => 1), seq(bs, _ => 0);
      var data: seq<seq<Byte>> := seq(n, i => if i == words[b].e then ones else zeros);
      assert BlockLoaded(words, n, n, l, b);
      assert Stored(words, n, bs, data, back);
      assert Contents(Loads(words, n, l, b), data, back[b])[0] == 0 != ones[0];
    } else {
      forall data, b | Stored(words, n, bs, data, back) && 0 <= b < |words|
        ensures Contents(Loads(words, n, l, b), data, back[b]) == Contents(Before(words[b]), data, back[b])
      {
        assert BlockLoaded(words, n, n, l, b);
      }
    }
  }

  /* ---- runs from there ---- */

  function StateOf(l: Loaded, words: seq<Word>, data: seq<seq<Byte>>, back: seq<seq<Byte>>): State {
    State(l.stat, data, back, words, l.free, l.clean, l.dirty,
          seq(|l.ptr|, b requires 0 <= b < |l.ptr| => Blk(l.ptr[b], false, [], 0, [], [], [])))
  }

  /** Flushed blocks were stored with the backend's bytes, and unused words are zero. */
  ghost predicate CleanWords(words: seq<Word>, data: seq<seq<Byte>>, back: seq<seq<Byte>>) {
    && |back| == |words|
    && (forall b :: 0 <= b < |words| && words[b].status == Flushed ==>
          words[b].e < |data| && data[words[b].e] == back[b])
    && (forall b :: 0 <= b < |words| && !Used(words[b]) ==> words[b] == NO_WORD)
  }

  lemma LoadedIsOwned(words: seq<Word>, n: nat, bs: nat, l: Loaded, data: seq<seq<Byte>>, back: seq<seq<Byte>>)
    requires SetUp(words, n, n, l) && Stored(words, n, bs, data, back)
    ensures Owned(StateOf(l, words, data, back))
  {
    hide Distinct;
    var st := StateOf(l, words, data, back);
    forall b | 0 <= b < |words| ensures Held(st.blocks[b]) == Loads(words, n, l, b) {
    }
    forall e | e in st.free ensures e < |st.stat| && st.stat[e] == Unpromoted {
      assert EntryLoaded(words, n, n, l, e);
    }
    forall b | 0 <= b < |words| && Held(st.blocks[b]).At? ensures Held(st.blocks[b]).e !in st.free {
      assert EntryLoaded(words, n, n, l, n - 1 - words[b].e);
    }
    forall e | 0 <= e < n ensures e in st.free || HasOwner(st, e) {
      assert EntryLoaded(words, n, n, l, e);
      if e !in st.free {
        var b :| 0 <= b < |words| && Used(words[b]) && words[b].e == n - 1 - e;
        assert Held(st.blocks[b]) == At(e);
      }
    }
  }

  /** Where the condition holds, the cache starts as a volume that stands for what was stored, so
      all that holds of its runs holds across the restart. */
  lemma RestartStarts(c: Config, words: seq<Word>, n: nat, l: Loaded, data: seq<seq<Byte>>, back: seq<seq<Byte>>)
    requires ConfigOk(c) && SetUp(words, n, n, l) && Stored(words, n, c.bs, data, back)
    requires Central(words, n) && CleanWords(words, data, back)
    ensures Cache.Starts(c, seq(|words|, b requires 0 <= b < |words| =>
                                  Stood(words[b], data, back[b])), StateOf(l, words, data, back))
  {
    hide SetUp, Owned, Held;
    var os := seq(|words|, b requires 0 <= b < |words| => Stood(words[b], data, back[b]));
    var st := StateOf(l, words, data, back);
    LoadedIsOwned(words, n, c.bs, l, data, back);
    OwnedIsSized(st);
    SetUpSizes(words, n, l);
    forall b | 0 <= b < |words| ensures Cache.StartsAt(c, st.blocks[b], Loc(st, b), os[b]) {
      BlockStarts(c, words, n, l, data, back, b);
    }
  }

  lemma SetUpSizes(words: seq<Word>, n: nat, l: Loaded)
    requires SetUp(words, n, n, l)
    ensures |l.ptr| == |words| && |l.stat| == n
  {
  }

  lemma BlockStarts(c: Config, words: seq<Word>, n: nat, l: Loaded, data: seq<seq<Byte>>, back: seq<seq<Byte>>, b: nat)
    requires ConfigOk(c) && SetUp(words, n, n, l) && Stored(words, n, c.bs, data, back)
    requires Central(words, n) && CleanWords(words, data, back) && b < |words|
    requires Sized(StateOf(l, words, data, back))
    ensures var st := StateOf(l, words, data, back);
            Cache.StartsAt(c, st.blocks[b], Loc(st, b), Stood(words[b], data, back[b]))
  {
    assert BlockLoaded(words, n, n, l, b);
    var st := StateOf(l, words, data, back);
    assert Held(st.blocks[b]) == l.ptr[b];
  }

  /* ---- a restart after a run ---- */

  ghost predicate AllIdle(st: State) {
    forall b :: 0 <= b < |st.blocks| ==> st.blocks[b].jobs == []
  }

  lemma IdleBlock(c: Config, os: seq<Outside>, st: State, b: nat)
    requires Cache.Inv(c, os, st) && AllIdle(st) && b < |st.blocks|
    ensures Sized(st) && st.blocks[b].pc == 0 && Held(st.blocks[b]) == st.blocks[b].entry
    ensures var w, l := st.words[b], Loc(st, b);
            && (Used(w) <==> st.blocks[b].entry.At?) && (Used(w) ==> At(w.e) == st.blocks[b].entry && w.e < |st.data|)
            && (!Used(w) ==> w == NO_WORD) && w.status == l.stat && |l.back| == c.bs && st.back[b] == l.back
            && (Used(w) ==> |st.data[w.e]| == c.bs) && (w.status == Flushed ==> st.data[w.e] == st.back[b])
            && View(l) == Contents(Before(w), st.data, st.back[b])
  {
    hide Owned, Queue, After, Fits, Holding, Soon;
    OwnedIsSized(st);
    var blk := st.blocks[b];
    assert BlkOk(c, blk, Loc(st, b), os[b]);
    assert Rests(c, blk, os[b], Loc(st, b), Done(blk), blk.jobs);
    assert InRange(st, blk);
  }

  /** What a run leaves in the store, with all its work done, is what loading expects. */
  lemma RunLeavesWords(c: Config, os: seq<Outside>, st: State)
    requires Cache.Inv(c, os, st) && AllIdle(st)
    ensures Stored(st.words, |st.stat|, c.bs, st.data, st.back) && CleanWords(st.words, st.data, st.back)
  {
    hide Loc, Contents;
    OwnedIsSized(st);
    forall b | 0 <= b < |st.words|
      ensures Used(st.words[b]) ==> st.words[b].e < |st.data| && |st.data[st.words[b].e]| == c.bs
      ensures |st.back[b]| == c.bs && (!Used(st.words[b]) ==> st.words[b] == NO_WORD)
      ensures st.words[b].status == Flushed ==> st.data[st.words[b].e] == st.back[b]
    {
      IdleBlock(c, os, st, b);
    }
    forall b, x | 0 <= b < x < |st.words| && Used(st.words[b]) && Used(st.words[x])
      ensures st.words[b].e != st.words[x].e
    {
      IdleBlock(c, os, st, b);
      IdleBlock(c, os, st, x);
      assert Apart(Held(st.blocks[b]), Held(st.blocks[x]));
    }
  }

  /** After a run and a restart under that condition, the volume starts with every block standing
      for the last write of the run. */
  lemma RunRestarts(c: Config, os: seq<Outside>, st: State, l: Loaded)
    requires Cache.Inv(c, os, st) && AllIdle(st) && SetUp(st.words, |st.stat|, |st.stat|, l)
    requires Central(st.words, |st.stat|)
    ensures var after := StateOf(l, st.words, st.data, st.back);
            exists ns: seq<Outside> :: Cache.Starts(c, ns, after) && |ns| == |os| &&
              forall b :: 0 <= b < |os| ==>
                ns[b].bytes == Cache.LastWrite(c, os[b].bytes, st.blocks[b].hist) && ns[b].out == []
  {
    hide Cache.Starts, SetUp, Cache.LastWrite, Stored, CleanWords, Central, Loc;
    RunLeavesWords(c, os, st);
    OwnedIsSized(st);
    StoredBounds(st.words, |st.stat|, c.bs, st.data, st.back);
    RestartStarts(c, st.words, |st.stat|, l, st.data, st.back);
    var ns := seq(|st.words|, b requires 0 <= b < |st.words| => Stood(st.words[b], st.data, st.back[b]));
    forall b | 0 <= b < |os|
      ensures ns[b].bytes == Cache.LastWrite(c, os[b].bytes, st.blocks[b].hist) && ns[b].out == []
    {
      IdleBlock(c, os, st, b);
      Cache.HoldsLastWrite(c, os, st, b);
      assert st.blocks[b].hist[..Done(st.blocks[b])] == st.blocks[b].hist;
    }
  }

  lemma StoredBounds(words: seq<Word>, n: nat, bs: nat, data: seq<seq<Byte>>, back: seq<seq<Byte>>)
    requires Stored(words, n, bs, data, back)
    ensures |data| == n && |back| == |words| && forall b :: 0 <= b < |words| && Used(words[b]) ==> words[b].e < n
  {
  }
}
