/** Requests against one flat byte array, and what each block sees of them. */
module TierFlat {
  import opened Split
  import opened Volume
  import opened TierChain

  /** `data` is the request's buffer; a read fills it, so its contents count for writes only. */
  datatype Req = Req(io: IoType, offset: nat, length: nat, data: seq<Byte>)

  ghost predicate InVolume(r: Req, bs: nat, n: nat) {
    r.offset + r.length <= bs * n && |r.data| == r.length
  }

  ghost predicate AllBuffered(reqs: seq<Req>) {
    forall k :: 0 <= k < |reqs| ==> |reqs[k].data| == reqs[k].length
  }

  ghost predicate AllInVolume(reqs: seq<Req>, bs: nat, n: nat)
    ensures AllInVolume(reqs, bs, n) ==> AllBuffered(reqs)
  {
    forall k {:trigger reqs[k]} :: 0 <= k < |reqs| ==> InVolume(reqs[k], bs, n)
  }

  function Pieces(r: Req, bs: nat): seq<Fragment>
    requires bs > 0
  {
    Fragments(r.offset, r.length, 0, bs)
  }

  /** Block `b` holds a fragment of the request. */
  predicate Touches(r: Req, b: int, bs: nat)
    requires bs > 0
  {
    0 <= b - r.offset / bs < |Pieces(r, bs)|
  }

  /** The fragment that the request has on block `b`. */
  function PieceOn(r: Req, b: int, bs: nat): Fragment
    requires bs > 0 && Touches(r, b, bs)
  {
    Pieces(r, bs)[b - r.offset / bs]
  }

  /** Where a fragment lies, and that it is all the request has on that block. */
  ghost predicate IsPiece(f: Fragment, r: Req, b: int, bs: nat) {
    && f.block == b && 0 < f.size && f.offset + f.size <= bs
    && bs * b + f.offset == r.offset + f.data && f.data + f.size <= r.length
    && (f.data == 0 || f.offset == 0)
    && (f.data + f.size == r.length || f.offset + f.size == bs)
  }

  lemma PieceSound(r: Req, b: int, bs: nat)
    requires bs > 0 && Touches(r, b, bs)
    ensures b >= 0 && IsPiece(PieceOn(r, b, bs), r, b, bs)
  {
    FragmentAt(r.offset, r.length, 0, bs, b - r.offset / bs);
  }

  lemma PieceAt(r: Req, i: nat, bs: nat)
    requires bs > 0 && i < |Pieces(r, bs)|
    ensures Touches(r, r.offset / bs + i, bs) && PieceOn(r, r.offset / bs + i, bs) == Pieces(r, bs)[i]
    ensures IsPiece(Pieces(r, bs)[i], r, r.offset / bs + i, bs)
  {
    PieceSound(r, r.offset / bs + i, bs);
  }

  /** A block without a fragment lies outside the request's range. */
  lemma NoPiece(r: Req, b: nat, bs: nat)
    requires bs > 0 && !Touches(r, b, bs) && r.length > 0
    ensures bs * b + bs <= r.offset || r.offset + r.length <= bs * b
  {
    hide First;
    var k := |Pieces(r, bs)|;
    FragmentAt(r.offset, r.length, 0, bs, 0);
    FragmentAt(r.offset, r.length, 0, bs, k - 1);
    if b < r.offset / bs {
      BlocksApart(b, r.offset / bs, bs);
    } else {
      BlocksApart(r.offset / bs + k - 1, b, bs);
    }
  }

  lemma PieceInVolume(r: Req, b: int, bs: nat, n: nat)
    requires bs > 0 && Touches(r, b, bs) && InVolume(r, bs, n)
    ensures 0 <= b < n
  {
    PieceSound(r, b, bs);
    BlockInVolume(b, PieceOn(r, b, bs).offset, bs, n);
  }

  function JobOn(rid: nat, r: Req, b: int, bs: nat): (j: Job)
    requires bs > 0 && Touches(r, b, bs) && |r.data| == r.length
    ensures Fits(bs, j) && j.rid == rid && j.io == r.io
  {
    PieceSound(r, b, bs);
    var f := PieceOn(r, b, bs);
    Job(rid, r.io, f, r.data[f.data..f.data + f.size])
  }

  lemma JobParts(r: Req, b: int, bs: nat)
    requires bs > 0 && Touches(r, b, bs) && |r.data| == r.length
    ensures var f := PieceOn(r, b, bs);
            && f.data + f.size <= |r.data| && JobOn(0, r, b, bs).f == f
            && JobOn(0, r, b, bs).bytes == r.data[f.data..f.data + f.size]
  {
    PieceSound(r, b, bs);
  }

  /** A write of any range is, on each block, the write of its fragment. */
  lemma WriteByBlocks(v: seq<Byte>, r: Req, b: nat, bs: nat, n: nat)
    requires bs > 0 && InVolume(r, bs, n) && |v| == bs * n && HasBlock(v, b, bs)
    ensures Block(Overwrite(v, r.offset, r.data), b, bs) ==
            if !Touches(r, b, bs) then Block(v, b, bs)
            else var j := JobOn(0, r, b, bs); Overwrite(Block(v, b, bs), j.f.offset, j.bytes)
  {
    hide Touches, PieceOn, JobOn, Overwrite, Fits;
    if Touches(r, b, bs) {
      WriteOnPiece(v, r, b, bs, bs * b);
    } else if r.length > 0 {
      NoPiece(r, b, bs);
      WriteElsewhere(v, bs * b, bs, r.offset, r.data);
    } else {
      WriteNothing(v, r.offset, r.data);
    }
  }

  lemma WriteNothing(v: seq<Byte>, off: nat, d: seq<Byte>)
    requires d == [] && off <= |v|
    ensures Overwrite(v, off, d) == v
  {
  }

  lemma WriteOnPiece(v: seq<Byte>, r: Req, b: nat, bs: nat, base: nat)
    requires bs > 0 && Touches(r, b, bs) && |r.data| == r.length && r.offset + r.length <= |v|
    requires base == bs * b && base + bs <= |v|
    ensures var j := JobOn(0, r, b, bs);
            Overwrite(v, r.offset, r.data)[base..base + bs] == Overwrite(v[base..base + bs], j.f.offset, j.bytes)
  {
    hide Touches, PieceOn, JobOn, Overwrite, Fits;
    PieceSound(r, b, bs);
    JobParts(r, b, bs);
    var f := PieceOn(r, b, bs);
    WriteAcross(v, base, bs, r.offset, r.data, f.offset, f.data, f.size);
  }

  /** What a fragment reads from its block is its part of the range. */
  lemma ReadByBlocks(v: seq<Byte>, r: Req, b: nat, bs: nat)
    requires bs > 0 && r.offset + r.length <= |v| && HasBlock(v, b, bs) && Touches(r, b, bs)
    ensures var f := PieceOn(r, b, bs);
            && IsPiece(f, r, b, bs)
            && Block(v, b, bs)[f.offset..f.offset + f.size] == v[r.offset + f.data..r.offset + f.data + f.size]
  {
    hide Touches, PieceOn;
    PieceSound(r, b, bs);
    var f := PieceOn(r, b, bs);
    SliceOfSlice(v, bs * b, bs, f.offset, f.size);
  }

  /** The byte array after a list of requests: only writes change it. */
  ghost function FlatRun(v: seq<Byte>, reqs: seq<Req>, bs: nat, n: nat): (w: seq<Byte>)
    requires |v| == bs * n && AllInVolume(reqs, bs, n)
    ensures |w| == |v|
  {
    if reqs == [] then v
    else
      var w := FlatRun(v, reqs[..|reqs| - 1], bs, n);
      var r := reqs[|reqs| - 1];
      if r.io == Write then Overwrite(w, r.offset, r.data) else w
  }

  /** The view of block `b` after the same requests, fragment after fragment. */
  ghost function BlockRun(v: View, reqs: seq<Req>, b: int, bs: nat): (w: View)
    requires bs > 0 && |v.cache| == |v.back| == bs && AllBuffered(reqs)
    ensures |w.cache| == |w.back| == bs
  {
    if reqs == [] then v
    else
      var k := |reqs| - 1;
      var w := BlockRun(v, reqs[..k], b, bs);
      if Touches(reqs[k], b, bs) then Applied(bs, JobOn(k, reqs[k], b, bs), w) else w
  }

  /** The bytes a block stands for: the backend's until it is promoted. */
  function Content(v: View): seq<Byte> {
    if v.status == Unpromoted then v.back else v.cache
  }

  /** A block may be read, flushed or partly written once promoted, and promoted unless dirty. */
  predicate Allowed(bs: nat, j: Job, v: View) {
    match j.io
    case Promote => v.status != Dirty
    case Write => v.status != Unpromoted || j.f.size == bs
    case Discard => true
    case Other => true
    case _ => v.status != Unpromoted
  }

  /** The run never promotes a dirty block, and promotes a block before using it. */
  ghost predicate AllowedRun(v: View, reqs: seq<Req>, b: int, bs: nat)
    requires bs > 0 && |v.cache| == |v.back| == bs && AllBuffered(reqs)
  {
    forall k :: 0 <= k < |reqs| && Touches(reqs[k], b, bs) ==>
      Allowed(bs, JobOn(k, reqs[k], b, bs), BlockRun(v, reqs[..k], b, bs))
  }

  /** The reads of block `b`, with the bytes that the flat array had at that time. */
  ghost function ReadLog(v: seq<Byte>, reqs: seq<Req>, b: int, bs: nat, n: nat): seq<Reading>
    requires bs > 0 && |v| == bs * n && AllInVolume(reqs, bs, n)
  {
    if reqs == [] then []
    else
      var k := |reqs| - 1;
      var r := reqs[k];
      ReadLog(v, reqs[..k], b, bs, n) +
      if r.io == Read && Touches(r, b, bs) then
        PieceSound(r, b, bs);
        var f := PieceOn(r, b, bs);
        assert InVolume(r, bs, n);
        [Reading(k, f, FlatRun(v, reqs[..k], bs, n)[r.offset + f.data..r.offset + f.data + f.size])]
      else []
  }

  /** One fragment keeps the block equal to its part of the flat array. */
  lemma StepIsFlat(w: seq<Byte>, v: View, rid: nat, r: Req, b: nat, bs: nat, n: nat)
    requires bs > 0 && |w| == bs * n && b < n && InVolume(r, bs, n) && Touches(r, b, bs)
    requires HasBlock(w, b, bs) && |v.cache| == |v.back| == bs
    requires Content(v) == Block(w, b, bs) && FlushedIsClean(v) && Allowed(bs, JobOn(rid, r, b, bs), v)
    ensures var after := Applied(bs, JobOn(rid, r, b, bs), v);
            && FlushedIsClean(after)
            && Content(after) == Block(if r.io == Write then Overwrite(w, r.offset, r.data) else w, b, bs)
    ensures var f := PieceOn(r, b, bs);
            && IsPiece(f, r, b, bs)
            && Applied(bs, JobOn(rid, r, b, bs), v).out ==
               v.out + if r.io == Read then [Reading(rid, f, w[r.offset + f.data..r.offset + f.data + f.size])] else []
  {
    hide Touches, PieceOn;
    PieceSound(r, b, bs);
    var j := JobOn(rid, r, b, bs);
    match r.io {
      case Read => ReadByBlocks(w, r, b, bs);
      case Write =>
        WriteByBlocks(w, r, b, bs, n);
        if j.f.size == bs {
          assert Overwrite(v.cache, 0, j.bytes) == Overwrite(v.back, 0, j.bytes);
        }
      case _ =>
    }
  }

  /** The whole run, seen on block `b`: the block is its part of the flat array, a flushed block
      is clean, and the reads delivered are the flat array's at their place in the order. */
  lemma {:induction false} BlockRunIsFlat(v0: seq<Byte>, v: View, reqs: seq<Req>, b: nat, bs: nat, n: nat)
    requires bs > 0 && |v0| == bs * n && b < n && AllInVolume(reqs, bs, n)
    requires HasBlock(v0, b, bs) && |v.cache| == |v.back| == bs
    requires Content(v) == Block(v0, b, bs) && FlushedIsClean(v) && AllowedRun(v, reqs, b, bs)
    ensures Content(BlockRun(v, reqs, b, bs)) == Block(FlatRun(v0, reqs, bs, n), b, bs)
    ensures FlushedIsClean(BlockRun(v, reqs, b, bs))
    ensures BlockRun(v, reqs, b, bs).out == v.out + ReadLog(v0, reqs, b, bs, n)
  {
    hide Touches, PieceOn, Applied, Allowed, Content, FlushedIsClean, JobOn;
    if reqs == [] {
    } else {
      var k := |reqs| - 1;
      var r, less := reqs[k], reqs[..k];
      assert forall i :: 0 <= i < k ==> less[i] == reqs[i] && less[..i] == reqs[..i];
      assert AllowedRun(v, less, b, bs);
      BlockRunIsFlat(v0, v, less, b, bs, n);
      var w := FlatRun(v0, less, bs, n);
      if Touches(r, b, bs) {
        StepIsFlat(w, BlockRun(v, less, b, bs), k, r, b, bs, n);
      } else if r.io == Write {
        WriteByBlocks(w, r, b, bs, n);
      }
    }
  }

  /* ---- the backend and the status ---- */

  /** Requests after which both copies hold the block's bytes, or only the backend does. */
  predicate Syncs(r: Req, b: int, bs: nat)
    requires bs > 0
  {
    Touches(r, b, bs) && (r.io == Flush || r.io == Promote || r.io == Discard)
  }

  /** Block `b` of the backend: the flat array's block after the last flush, promotion or
      discard of it. */
  ghost function Synced(v0: seq<Byte>, back: seq<Byte>, reqs: seq<Req>, b: nat, bs: nat, n: nat): seq<Byte>
    requires bs > 0 && |v0| == bs * n && AllInVolume(reqs, bs, n) && HasBlock(v0, b, bs)
  {
    if reqs == [] then back
    else if Syncs(reqs[|reqs| - 1], b, bs) then Block(FlatRun(v0, reqs, bs, n), b, bs)
    else Synced(v0, back, reqs[..|reqs| - 1], b, bs, n)
  }

  /** The status that the last request that sets one leaves. */
  ghost function Standing(s: Status, reqs: seq<Req>, b: int, bs: nat): Status
    requires bs > 0
  {
    if reqs == [] then s
    else
      var r := reqs[|reqs| - 1];
      if !Touches(r, b, bs) || r.io == Read || r.io == Other then Standing(s, reqs[..|reqs| - 1], b, bs)
      else if r.io == Write then Dirty
      else if r.io == Discard then Unpromoted
      else Flushed
  }

  lemma StepSyncs(bs: nat, j: Job, v: View)
    requires Fits(bs, j) && |v.cache| == |v.back| == bs && FlushedIsClean(v) && Allowed(bs, j, v)
    ensures var after := Applied(bs, j, v);
            && after.back == (if j.io == Flush || j.io == Promote || j.io == Discard then Content(after) else v.back)
            && after.status == (if j.io == Read || j.io == Other then v.status
                                else if j.io == Write then Dirty
                                else if j.io == Discard then Unpromoted else Flushed)
  {
  }

  lemma {:induction false} BackendIsSynced(v0: seq<Byte>, v: View, reqs: seq<Req>, b: nat, bs: nat, n: nat)
    requires bs > 0 && |v0| == bs * n && b < n && AllInVolume(reqs, bs, n)
    requires HasBlock(v0, b, bs) && |v.cache| == |v.back| == bs
    requires Content(v) == Block(v0, b, bs) && FlushedIsClean(v) && AllowedRun(v, reqs, b, bs)
    ensures BlockRun(v, reqs, b, bs).back == Synced(v0, v.back, reqs, b, bs, n)
    ensures BlockRun(v, reqs, b, bs).status == Standing(v.status, reqs, b, bs)
  {
    hide Touches, PieceOn, JobOn, Block, FlatRun, Applied, Allowed, Content, FlushedIsClean, ReadLog;
    if reqs != [] {
      var k := |reqs| - 1;
      var less := reqs[..k];
      assert forall i :: 0 <= i < k ==> less[i] == reqs[i] && less[..i] == reqs[..i];
      assert AllowedRun(v, less, b, bs);
      BlockRunIsFlat(v0, v, less, b, bs, n);
      if Touches(reqs[k], b, bs) {
        StepSyncs(bs, JobOn(k, reqs[k], b, bs), BlockRun(v, less, b, bs));
      }
      BlockRunIsFlat(v0, v, reqs, b, bs, n);
      BackendIsSynced(v0, v, less, b, bs, n);
    }
  }

  /* ---- exactly when a request breaks the agreement ---- */

  /** A request that is not allowed does no harm where the two copies of the block happen to
      agree: everywhere, for a read on what it reads, for a write on what it leaves alone. */
  predicate Harmless(bs: nat, j: Job, v: View)
    requires Fits(bs, j) && |v.cache| == |v.back| == bs
  {
    match j.io
    case Read => v.cache[j.f.offset..j.f.offset + j.f.size] == v.back[j.f.offset..j.f.offset + j.f.size]
    case Write => Overwrite(v.cache, j.f.offset, j.bytes) == Overwrite(v.back, j.f.offset, j.bytes)
    case _ => v.cache == v.back
  }

  /** Block `b` after `reqs` is its part of the flat array, clean if flushed, with its reads
      answered from it. */
  ghost predicate Agrees(v0: seq<Byte>, v: View, reqs: seq<Req>, b: nat, bs: nat, n: nat)
    requires bs > 0 && |v0| == bs * n && AllInVolume(reqs, bs, n) && HasBlock(v0, b, bs) && |v.cache| == |v.back| == bs
  {
    var now := BlockRun(v, reqs, b, bs);
    && Content(now) == Block(FlatRun(v0, reqs, bs, n), b, bs) && FlushedIsClean(now)
    && now.out == v.out + ReadLog(v0, reqs, b, bs, n)
  }

  /** The first request that is not allowed on a block breaks the agreement exactly when it is
      not harmless. */
  lemma AgreesIff(v0: seq<Byte>, v: View, reqs: seq<Req>, b: nat, bs: nat, n: nat)
    requires bs > 0 && |v0| == bs * n && b < n && AllInVolume(reqs, bs, n) && reqs != []
    requires HasBlock(v0, b, bs) && |v.cache| == |v.back| == bs && Content(v) == Block(v0, b, bs) && FlushedIsClean(v)
    requires var k := |reqs| - 1; AllowedRun(v, reqs[..k], b, bs) && Touches(reqs[k], b, bs)
    ensures var k := |reqs| - 1;
            var j, w := JobOn(k, reqs[k], b, bs), BlockRun(v, reqs[..k], b, bs);
            Agrees(v0, v, reqs, b, bs, n) <==> Allowed(bs, j, w) || Harmless(bs, j, w)
  {
    hide Touches, PieceOn, Applied, Allowed, Harmless, Content, FlushedIsClean, JobOn, AllowedRun, Block;
    var k := |reqs| - 1;
    BlockRunIsFlat(v0, v, reqs[..k], b, bs, n);
    var w, now := FlatRun(v0, reqs[..k], bs, n), BlockRun(v, reqs[..k], b, bs);
    if reqs[k].io == Read {
      ReadAgreesIff(w, now, k, reqs[k], b, bs, n);
    } else if reqs[k].io == Write {
      WriteAgreesIff(w, now, k, reqs[k], b, bs, n);
    } else {
      MoveAgreesIff(w, now, k, reqs[k], b, bs, n);
    }
  }

  /** After request `r` the block is its part of the flat array `w` after it, clean if flushed,
      with the read answered from it. */
  ghost predicate StaysFlat(w: seq<Byte>, v: View, rid: nat, r: Req, b: nat, bs: nat, n: nat)
    requires bs > 0 && |w| == bs * n && b < n && InVolume(r, bs, n) && Touches(r, b, bs)
    requires HasBlock(w, b, bs) && |v.cache| == |v.back| == bs
  {
    PieceSound(r, b, bs);
    var f, after := PieceOn(r, b, bs), Applied(bs, JobOn(rid, r, b, bs), v);
    && FlushedIsClean(after)
    && Content(after) == Block(if r.io == Write then Overwrite(w, r.offset, r.data) else w, b, bs)
    && after.out == v.out + (if r.io == Read then
                               [Reading(rid, f, w[r.offset + f.data..r.offset + f.data + f.size])] else [])
  }

  lemma ReadAgreesIff(w: seq<Byte>, v: View, rid: nat, r: Req, b: nat, bs: nat, n: nat)
    requires bs > 0 && |w| == bs * n && b < n && InVolume(r, bs, n) && Touches(r, b, bs) && r.io == Read
    requires HasBlock(w, b, bs) && |v.cache| == |v.back| == bs
    requires Content(v) == Block(w, b, bs) && FlushedIsClean(v)
    ensures StaysFlat(w, v, rid, r, b, bs, n) <==>
            Allowed(bs, JobOn(rid, r, b, bs), v) || Harmless(bs, JobOn(rid, r, b, bs), v)
  {
    hide Touches, PieceOn, Block, Overwrite, Applied, Allowed, Harmless, Content, FlushedIsClean;
    ReadByBlocks(w, r, b, bs);
    JobParts(r, b, bs);
    ReadStepIff(bs, JobOn(rid, r, b, bs), v);
  }

  /** A read changes nothing, and delivers the block's bytes exactly if it is allowed or harmless. */
  lemma ReadStepIff(bs: nat, j: Job, v: View)
    requires Fits(bs, j) && j.io == Read && |v.cache| == |v.back| == bs
    ensures var after := Applied(bs, j, v);
            Content(after) == Content(v) && (FlushedIsClean(after) <==> FlushedIsClean(v))
    ensures Applied(bs, j, v).out == v.out + [Reading(j.rid, j.f, Content(v)[j.f.offset..j.f.offset + j.f.size])] <==>
            Allowed(bs, j, v) || Harmless(bs, j, v)
  {
    LastOf(v.out, Reading(j.rid, j.f, v.cache[j.f.offset..j.f.offset + j.f.size]),
           Reading(j.rid, j.f, Content(v)[j.f.offset..j.f.offset + j.f.size]));
  }

  lemma WriteAgreesIff(w: seq<Byte>, v: View, rid: nat, r: Req, b: nat, bs: nat, n: nat)
    requires bs > 0 && |w| == bs * n && b < n && InVolume(r, bs, n) && Touches(r, b, bs) && r.io == Write
    requires HasBlock(w, b, bs) && |v.cache| == |v.back| == bs
    requires Content(v) == Block(w, b, bs) && FlushedIsClean(v)
    ensures StaysFlat(w, v, rid, r, b, bs, n) <==>
            Allowed(bs, JobOn(rid, r, b, bs), v) || Harmless(bs, JobOn(rid, r, b, bs), v)
  {
    hide Touches, PieceOn, Block, Overwrite;
    WriteByBlocks(w, r, b, bs, n);
    if JobOn(rid, r, b, bs).f.size == bs {
      WholeWrite(v.cache, v.back, JobOn(rid, r, b, bs).bytes);
    }
  }

  lemma MoveAgreesIff(w: seq<Byte>, v: View, rid: nat, r: Req, b: nat, bs: nat, n: nat)
    requires bs > 0 && |w| == bs * n && b < n && InVolume(r, bs, n) && Touches(r, b, bs)
    requires r.io != Read && r.io != Write && HasBlock(w, b, bs) && |v.cache| == |v.back| == bs
    requires Content(v) == Block(w, b, bs) && FlushedIsClean(v)
    ensures StaysFlat(w, v, rid, r, b, bs, n) <==>
            Allowed(bs, JobOn(rid, r, b, bs), v) || Harmless(bs, JobOn(rid, r, b, bs), v)
  {
    hide Touches, PieceOn, Block, Overwrite;
  }

  lemma LastOf(s: seq<Reading>, x: Reading, y: Reading)
    ensures s + [x] == s + [y] <==> x == y
  {
    assert (s + [x])[|s|] == x && (s + [y])[|s|] == y;
  }

  lemma WholeWrite(u: seq<Byte>, v: seq<Byte>, d: seq<Byte>)
    requires |u| == |v| == |d|
    ensures Overwrite(u, 0, d) == Overwrite(v, 0, d)
  {
  }

  /** Promoting again: right after it the block differs from the flat array exactly when it was
      dirty and its two copies differ. */
  lemma PromoteBreaksIff(v0: seq<Byte>, v: View, reqs: seq<Req>, b: nat, bs: nat, n: nat)
    requires bs > 0 && |v0| == bs * n && b < n && AllInVolume(reqs, bs, n) && reqs != []
    requires HasBlock(v0, b, bs) && |v.cache| == |v.back| == bs && Content(v) == Block(v0, b, bs) && FlushedIsClean(v)
    requires var k := |reqs| - 1;
             AllowedRun(v, reqs[..k], b, bs) && Touches(reqs[k], b, bs) && reqs[k].io == Promote
    ensures var w := BlockRun(v, reqs[..|reqs| - 1], b, bs);
            Content(BlockRun(v, reqs, b, bs)) != Block(FlatRun(v0, reqs, bs, n), b, bs) <==>
            w.status == Dirty && w.cache != w.back
  {
    hide Touches, PieceOn, JobOn, AllowedRun, Block;
    BlockRunIsFlat(v0, v, reqs[..|reqs| - 1], b, bs, n);
  }

  /** A write and then a promote: the block no longer holds the write. */
  lemma PromoteLosesWrite() returns (v0: seq<Byte>, v: View, reqs: seq<Req>)
    ensures |v0| == 1 && |v.cache| == |v.back| == 1 && HasBlock(v0, 0, 1) && Content(v) == Block(v0, 0, 1)
    ensures AllInVolume(reqs, 1, 1) && |reqs| == 2 && reqs[0].io == Write && reqs[1].io == Promote
    ensures Content(BlockRun(v, reqs, 0, 1)) != Block(FlatRun(v0, reqs, 1, 1), 0, 1)
  {
    v0, v := [0], View([0], [0], Flushed, []);
    reqs := [Req(Write, 0, 1, [1]), Req(Promote, 0, 1, [0])];
    AfterOneWrite(v, reqs);
    PromoteBreaksIff(v0, v, reqs, 0, 1, 1);
  }

  lemma AfterOneWrite(v: View, reqs: seq<Req>)
    requires v == View([0], [0], Flushed, []) && reqs == [Req(Write, 0, 1, [1]), Req(Promote, 0, 1, [0])]
    ensures AllInVolume(reqs, 1, 1) && Touches(reqs[1], 0, 1) && AllowedRun(v, reqs[..1], 0, 1)
    ensures BlockRun(v, reqs[..1], 0, 1) == View([1], [0], Dirty, [])
  {
    hide Touches, JobOn, PieceOn, Pieces, BlockRun;
    OneBlockRequest(reqs[0]);
    OneBlockRequest(reqs[1]);
    var one := reqs[..1];
    assert one == [reqs[0]];
    RunOfOne(v, reqs[0]);
    assert one[..0] == [];
    assert Overwrite([0], 0, [1]) == [1];
  }

  lemma RunOfOne(v: View, r: Req)
    requires |v.cache| == |v.back| == 1 && |r.data| == r.length && Touches(r, 0, 1)
    ensures BlockRun(v, [r], 0, 1) == Applied(1, JobOn(0, r, 0, 1), v) && BlockRun(v, [], 0, 1) == v
  {
    hide Touches, JobOn, Applied;
    assert [r][..0] == [];
  }

  lemma OneBlockRequest(r: Req)
    requires r.offset == 0 && r.length == 1 && |r.data| == 1
    ensures Touches(r, 0, 1) && JobOn(0, r, 0, 1) == Job(0, r.io, Fragment(0, 0, 1, 0), r.data)
  {
    assert First(0, 1, 0, 1) == Fragment(0, 0, 1, 0);
    assert Fragments(1, 0, 1, 1) == [];
  }
}
