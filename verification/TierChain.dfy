/** `TierPolicy::map`: the chain of block operations for one fragment, and what it does to
    the block. */
module TierChain {
  import opened Split
  import opened Volume

  /** `Other` is any type without a branch of its own. */
  datatype IoType = Read | Write | Discard | Flush | Promote | Other

  /** One fragment of a request; `bytes` is the slice of the request's data it covers. */
  datatype Job = Job(rid: nat, io: IoType, f: Fragment, bytes: seq<Byte>)

  /** The operations of BlockOp.h that the tier policy uses on a promoted volume.
      `ExecuteDataStoreRequest` is two steps: hand over the block, and wait for the
      request's submission. */
  datatype Op =
    | ReadBlockFromCache(toRequest: bool)
    | ReadFromBuffer
    | WriteToBuffer
    | PrepareRequest(fromBuffer: bool)
    | AwaitSubmission
    | DemoteBlockBuffer
    | UpdateTierMeta(status: Status)
    | FlushBlockToBackend
    | PromoteBlockFromBackend
    | WriteBlockToCache
    | DemoteBlockToCache
    | ReleaseDiscardBlock
    | DoNothing
    | BlockRequestComplete

  datatype Task = Task(op: Op, job: Job)

  /** What one block's chain works on: the two copies of the block, its status, the scratch
      buffer, the block handed over for submission, and the reads delivered so far. */
  datatype Local = Local(cache: seq<Byte>, back: seq<Byte>, status: Status, out: seq<Reading>,
                         buf: seq<Byte>, pending: seq<Byte>)

  ghost predicate Fits(bs: nat, j: Job) {
    j.f.offset + j.f.size <= bs && |j.bytes| == j.f.size
  }

  ghost predicate Sized(bs: nat, l: Local) {
    |l.cache| == |l.back| == bs
  }

  /** A discarded block reads as zeros. */
  function Hole(bs: nat): seq<Byte> {
    seq(bs, _ => 0)
  }

  /** The effect of one operation.  Buffers are read only after they have been filled. */
  function Perform(bs: nat, t: Task, l: Local): (n: Local)
    requires Fits(bs, t.job)
  {
    match t.op
    case ReadBlockFromCache(toRequest) =>
      if toRequest then l.(out := l.out + [Reading(t.job.rid, t.job.f, l.cache)]) else l.(buf := l.cache)
    case ReadFromBuffer =>
      if |l.buf| == bs then
        l.(out := l.out + [Reading(t.job.rid, t.job.f, l.buf[t.job.f.offset..t.job.f.offset + t.job.f.size])])
      else l
    case WriteToBuffer => if |l.buf| == bs then l.(buf := Overwrite(l.buf, t.job.f.offset, t.job.bytes)) else l
    case PrepareRequest(fromBuffer) => l.(pending := if fromBuffer then l.buf else t.job.bytes)
    case AwaitSubmission => l.(cache := l.pending)
    case DemoteBlockBuffer => l.(buf := [])
    case UpdateTierMeta(status) => l.(status := status)
    case FlushBlockToBackend => if l.status == Dirty then l.(back := l.cache) else l
    case PromoteBlockFromBackend => l.(buf := l.back)
    case WriteBlockToCache => l.(cache := l.buf)
    case DemoteBlockToCache => l.(cache := Hole(bs))
    case ReleaseDiscardBlock => l
    case DoNothing => l
    case BlockRequestComplete => l
  }

  ghost function RunTasks(bs: nat, ts: seq<Task>, l: Local): Local
    requires forall i :: 0 <= i < |ts| ==> Fits(bs, ts[i].job)
  {
    if ts == [] then l else RunTasks(bs, ts[1..], Perform(bs, ts[0], l))
  }

  function Tasks(ops: seq<Op>, j: Job): (ts: seq<Task>)
    ensures |ts| == |ops| && forall i :: 0 <= i < |ts| ==> ts[i].job == j && ts[i].op == ops[i]
  {
    seq(|ops|, i requires 0 <= i < |ops| => Task(ops[i], j))
  }

  /** The chain `TierPolicy::map` compiles for a promoted block. */
  function Compile(bs: nat, j: Job): seq<Op> {
    match j.io
    case Read =>
      if j.f.size < bs then [ReadBlockFromCache(false), ReadFromBuffer, DemoteBlockBuffer, BlockRequestComplete]
      else [ReadBlockFromCache(true), BlockRequestComplete]
    case Write =>
      if j.f.size < bs then
        [ReadBlockFromCache(false), WriteToBuffer, PrepareRequest(true), AwaitSubmission, DemoteBlockBuffer,
         UpdateTierMeta(Dirty), BlockRequestComplete]
      else [PrepareRequest(false), AwaitSubmission, UpdateTierMeta(Dirty), BlockRequestComplete]
    case Discard =>
      [FlushBlockToBackend, DemoteBlockToCache, UpdateTierMeta(Unpromoted), ReleaseDiscardBlock, BlockRequestComplete]
    case Flush => [FlushBlockToBackend, UpdateTierMeta(Flushed), BlockRequestComplete]
    case Promote => [PromoteBlockFromBackend, WriteBlockToCache, UpdateTierMeta(Flushed), BlockRequestComplete]
    case Other => [DoNothing, BlockRequestComplete]
  }

  /** `TierPolicy::map` builds the chain from its end. */
  method Map(bs: nat, j: Job) returns (chain: seq<Op>)
    ensures chain == Compile(bs, j)
  {
    chain := [BlockRequestComplete];
    match j.io
    case Read =>
      if j.f.size < bs {
        chain := [DemoteBlockBuffer] + chain;
        chain := [ReadFromBuffer] + chain;
        chain := [ReadBlockFromCache(false)] + chain;
      } else {
        chain := [ReadBlockFromCache(true)] + chain;
      }
    case Write =>
      chain := [UpdateTierMeta(Dirty)] + chain;
      if j.f.size < bs {
        chain := [DemoteBlockBuffer] + chain;
        chain := [PrepareRequest(true), AwaitSubmission] + chain;
        chain := [WriteToBuffer] + chain;
        chain := [ReadBlockFromCache(false)] + chain;
      } else {
        chain := [PrepareRequest(false), AwaitSubmission] + chain;
      }
    case Discard =>
      chain := [ReleaseDiscardBlock] + chain;
      chain := [UpdateTierMeta(Unpromoted)] + chain;
      chain := [DemoteBlockToCache] + chain;
      chain := [FlushBlockToBackend] + chain;
    case Flush =>
      chain := [UpdateTierMeta(Flushed)] + chain;
      chain := [FlushBlockToBackend] + chain;
    case Promote =>
      chain := [UpdateTierMeta(Flushed)] + chain;
      chain := [WriteBlockToCache] + chain;
      chain := [PromoteBlockFromBackend] + chain;
    case Other =>
      chain := [DoNothing] + chain;
  }

  /** The part of a block's state that outlives a chain. */
  datatype View = View(cache: seq<Byte>, back: seq<Byte>, status: Status, out: seq<Reading>)

  function ViewOf(l: Local): View {
    View(l.cache, l.back, l.status, l.out)
  }

  /** The reference: what a fragment is meant to do to its block. */
  function Applied(bs: nat, j: Job, v: View): View
    requires Fits(bs, j) && |v.cache| == bs
  {
    match j.io
    case Read => v.(out := v.out + [Reading(j.rid, j.f, v.cache[j.f.offset..j.f.offset + j.f.size])])
    case Write => v.(cache := Overwrite(v.cache, j.f.offset, j.bytes), status := Dirty)
    case Flush => v.(back := if v.status == Dirty then v.cache else v.back, status := Flushed)
    case Promote => v.(cache := v.back, status := Flushed)
    case Discard => v.(back := if v.status == Dirty then v.cache else v.back, cache := Hole(bs), status := Unpromoted)
    case Other => v
  }

  ghost predicate Achieves(bs: nat, j: Job, l: Local)
    requires Fits(bs, j) && Sized(bs, l)
  {
    var n := RunTasks(bs, Tasks(Compile(bs, j), j), l);
    ViewOf(n) == Applied(bs, j, ViewOf(l)) && Sized(bs, n)
  }

  lemma ReadMeaning(bs: nat, j: Job, l: Local)
    requires Fits(bs, j) && Sized(bs, l) && j.io == Read
    ensures Achieves(bs, j, l)
  {
    RunsInSteps(bs, Tasks(Compile(bs, j), j), l);
    assert j.f.size == bs ==> l.cache[0..bs] == l.cache;
  }

  lemma PartWriteMeaning(bs: nat, j: Job, l: Local)
    requires Fits(bs, j) && Sized(bs, l) && j.io == Write && j.f.size < bs
    ensures Achieves(bs, j, l)
  {
    RunsInSteps(bs, Tasks(Compile(bs, j), j), l);
  }

  lemma WholeWriteMeaning(bs: nat, j: Job, l: Local)
    requires Fits(bs, j) && Sized(bs, l) && j.io == Write && j.f.size == bs
    ensures Achieves(bs, j, l)
  {
    RunsInSteps(bs, Tasks(Compile(bs, j), j), l);
    assert Overwrite(l.cache, 0, j.bytes) == j.bytes;
  }

  lemma MoveMeaning(bs: nat, j: Job, l: Local)
    requires Fits(bs, j) && Sized(bs, l) && j.io != Read && j.io != Write
    ensures Achieves(bs, j, l)
  {
    RunsInSteps(bs, Tasks(Compile(bs, j), j), l);
  }

  /** A compiled chain, run from any state, does what its fragment is meant to do. */
  lemma ChainMeaning(bs: nat, j: Job, l: Local)
    requires Fits(bs, j) && Sized(bs, l)
    ensures ViewOf(RunTasks(bs, Tasks(Compile(bs, j), j), l)) == Applied(bs, j, ViewOf(l))
    ensures Sized(bs, RunTasks(bs, Tasks(Compile(bs, j), j), l))
  {
    hide Perform, RunTasks, Compile, Applied;
    if j.io == Read {
      ReadMeaning(bs, j, l);
    } else if j.io != Write {
      MoveMeaning(bs, j, l);
    } else if j.f.size < bs {
      PartWriteMeaning(bs, j, l);
    } else {
      WholeWriteMeaning(bs, j, l);
    }
  }

  /** Up to seven operations, spelled out. */
  lemma RunsInSteps(bs: nat, ts: seq<Task>, l: Local)
    requires 1 <= |ts| <= 7 && forall i :: 0 <= i < |ts| ==> Fits(bs, ts[i].job)
    ensures var l1 := Perform(bs, ts[0], l);
            RunTasks(bs, ts, l) ==
            if |ts| == 1 then l1 else
            var l2 := Perform(bs, ts[1], l1);
            if |ts| == 2 then l2 else
            var l3 := Perform(bs, ts[2], l2);
            if |ts| == 3 then l3 else
            var l4 := Perform(bs, ts[3], l3);
            if |ts| == 4 then l4 else
            var l5 := Perform(bs, ts[4], l4);
            if |ts| == 5 then l5 else
            var l6 := Perform(bs, ts[5], l5);
            if |ts| == 6 then l6 else Perform(bs, ts[6], l6)
  {
    hide Perform;
    if |ts| > 1 {
      RunsInSteps(bs, ts[1..], Perform(bs, ts[0], l));
    }
  }

  /** Between chains: a block marked flushed equals its backend copy. */
  ghost predicate FlushedIsClean(v: View) {
    v.status == Flushed ==> v.cache == v.back
  }
}
