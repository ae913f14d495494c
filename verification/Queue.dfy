/** The queue of one block: `HDCSCore::map_block` appends chains of operations to a linked
    list, and a worker runs them; each critical section is one step, and steps of any threads
    may follow each other in any order. */
module Queue {

  /** An operation: the position of its request in mapping order, its place in the chain, and
      whether it is the chain's `BlockRequestComplete`. */
  datatype OpId = OpId(req: nat, pos: nat, last: bool)

  class OpNode {
    const id: OpId
    var next: OpNode?

    constructor (id: OpId, next: OpNode?)
      ensures this.id == id && this.next == next
    {
      this.id, this.next := id, next;
    }
  }

  /** A task handed to the pool, a worker at an operation, or a worker that has left the
      completion's critical section and still has the callback, and perhaps the next chain,
      to call. */
  datatype Thread = Task(node: OpNode) | Running(node: OpNode) | Returning(node: OpNode, callNext: bool)

  predicate Live(t: Thread) {
    t.Returning? ==> t.callNext
  }

  /** Distinct nodes, each pointing to the next. */
  ghost predicate Linked(ns: seq<OpNode>)
    reads ns
  {
    && (forall i, j :: 0 <= i < j < |ns| ==> ns[i] != ns[j])
    && (forall i {:trigger ns[i].next} :: 0 <= i < |ns| ==> ns[i].next == if i + 1 < |ns| then ns[i + 1] else null)
  }

  ghost function Ids(ns: seq<OpNode>): (s: seq<OpId>)
    ensures |s| == |ns| && forall i :: 0 <= i < |s| ==> s[i] == ns[i].id
  {
    seq(|ns|, i requires 0 <= i < |ns| => ns[i].id)
  }

  /** The operations of the `k`th request, in order. */
  ghost function ChainIds(k: nat, len: nat): (s: seq<OpId>)
    ensures |s| == len && forall i :: 0 <= i < len ==> s[i] == OpId(k, i, i == len - 1)
  {
    seq(len, i requires 0 <= i < len => OpId(k, i, i == len - 1))
  }

  /** All operations of requests with chains of these lengths, in mapping order. */
  ghost function Program(lens: seq<nat>): seq<OpId> {
    if lens == [] then [] else Program(lens[..|lens| - 1]) + ChainIds(|lens| - 1, lens[|lens| - 1])
  }

  /** Operations in mapping order, from somewhere in request `first` to the end of the last
      of `total` requests. */
  ghost predicate InOrder(s: seq<OpId>, first: nat, total: nat) {
    && first <= total && (s == [] <==> first == total)
    && (forall i :: 0 <= i < |s| ==> s[i].req < total)
    && (s != [] ==> s[0].req == first && s[|s| - 1].last && s[|s| - 1].req == total - 1)
    && forall i {:trigger s[i].last} :: 0 <= i < |s| - 1 ==> s[i + 1].req == s[i].req + if s[i].last then 1 else 0
  }

  lemma InOrderTail(s: seq<OpId>, first: nat, total: nat)
    requires InOrder(s, first, total) && s != []
    ensures InOrder(s[1..], if s[0].last then first + 1 else first, total)
  {
    var t := s[1..];
    assert forall i :: 0 <= i < |t| ==> t[i] == s[i + 1];
    if |s| > 1 {
      assert s[0].last ==> s[0 + 1].req == first + 1;
    }
  }

  lemma InOrderAppend(s: seq<OpId>, first: nat, total: nat, len: nat)
    requires InOrder(s, first, total) && len > 0
    ensures InOrder(s + ChainIds(total, len), first, total + 1)
  {
    var t := s + ChainIds(total, len);
    forall i | 0 <= i < |t| - 1 ensures t[i + 1].req == t[i].req + if t[i].last then 1 else 0 {
      if i < |s| - 1 {
        assert s[i].last == t[i].last;
      }
    }
  }

  /** A callback is outstanding in thread `t`. */
  ghost predicate Owes(threads: map<nat, Thread>, t: nat, req: nat) {
    t in threads && threads[t].Returning? && threads[t].node.id.req == req
  }

  /** Each of the first `finished` requests has had its callback or will have it from exactly
      one thread. */
  ghost predicate Callbacks(threads: map<nat, Thread>, called: set<nat>, finished: nat) {
    && (forall k :: k in called ==> k < finished)
    && (forall k :: 0 <= k < finished && k !in called ==> exists t :: Owes(threads, t, k))
    && (forall t :: t in threads && threads[t].Returning? ==> Owed(threads[t].node.id.req, called, finished))
    && (forall t, u, k :: Owes(threads, t, k) && Owes(threads, u, k) ==> t == u)
  }

  ghost predicate Owed(k: nat, called: set<nat>, finished: nat) {
    k < finished && k !in called
  }

  /** What was mapped (the lengths of the chains), what has run, how many requests are
      through, and which callbacks were made. */
  datatype Log = Log(lens: seq<nat>, ran: seq<OpId>, finished: nat, called: set<nat>)

  /** What has run and what is in the list are together what was mapped, in mapping order. */
  ghost predicate Books(g: Log, ids: seq<OpId>, threads: map<nat, Thread>) {
    && g.ran + ids == Program(g.lens)
    && InOrder(ids, g.finished, |g.lens|)
    && Callbacks(threads, g.called, g.finished)
  }

  lemma BooksMap(g: Log, ids: seq<OpId>, threads: map<nat, Thread>, len: nat)
    requires Books(g, ids, threads) && len > 0
    ensures Books(g.(lens := g.lens + [len]), ids + ChainIds(|g.lens|, len), threads)
  {
    hide Program, Callbacks, InOrder;
    ProgramNext(g.lens, len);
    InOrderAppend(ids, g.finished, |g.lens|, len);
  }

  /** Threads that owe no callback do not matter. */
  lemma BooksThreads(g: Log, ids: seq<OpId>, threads: map<nat, Thread>, after: map<nat, Thread>)
    requires Books(g, ids, threads)
    requires forall t :: t in threads && threads[t].Returning? ==> t in after && after[t] == threads[t]
    requires forall t :: t in after && after[t].Returning? ==> t in threads && after[t] == threads[t]
    ensures Books(g, ids, after)
  {
    hide Program, InOrder;
    forall k | 0 <= k < g.finished && k !in g.called ensures exists t :: Owes(after, t, k) {
      var t :| Owes(threads, t, k);
      assert Owes(after, t, k);
    }
    assert forall t, k :: Owes(after, t, k) ==> Owes(threads, t, k);
  }

  class Block {
    var inProcess: bool
    var blockOpsEnd: OpNode?
    var threads: map<nat, Thread>
    /** The operations not yet run, in list order, and the thread that will run them. */
    ghost var nodes: seq<OpNode>
    ghost var live: nat
    ghost var log: Log

    /** The live thread is at the front of the list. */
    ghost predicate AtFront(t: Thread)
      reads this, t.node
    {
      nodes != [] && Live(t) &&
      if t.Returning? then t.node !in nodes && t.node.next == nodes[0] else t.node == nodes[0]
    }

    ghost function Touched(): set<OpNode>
      reads this
    {
      set t | t in threads :: threads[t].node
    }

    ghost predicate Valid()
      reads this, nodes, Touched()
    {
      && Linked(nodes)
      && (inProcess <==> nodes != [])
      && blockOpsEnd == (if nodes == [] then null else nodes[|nodes| - 1])
      && (nodes != [] ==> live in threads && AtFront(threads[live]))
      && (forall t :: t in threads && Live(threads[t]) ==> nodes != [] && t == live)
      && Books(log, Ids(nodes), threads)
    }

    constructor ()
      ensures Valid() && log == Log([], [], 0, {}) && threads == map[]
    {
      inProcess, blockOpsEnd, threads := false, null, map[];
      nodes, log := [], Log([], [], 0, {});
    }
  
    /** A chain for the next request, built from its end as the policies do. */
    method BuildChain(k: nat, len: nat) returns (head: OpNode, end: OpNode, ghost chain: seq<OpNode>)
      requires len > 0
      ensures fresh(chain) && Linked(chain) && Ids(chain) == ChainIds(k, len)
      ensures head == chain[0] && end == chain[len - 1]
    {
      end := new OpNode(OpId(k, len - 1, true), null);
      head, chain := end, [end];
      var i := len - 1;
      while i > 0
        invariant 0 <= i < len && |chain| == len - i && head == chain[0] && end == chain[|chain| - 1]
        invariant fresh(chain) && Linked(chain)
        invariant forall j :: 0 <= j < |chain| ==> chain[j].id == OpId(k, i + j, i + j == len - 1)
      {
        i := i - 1;
        head := new OpNode(OpId(k, i, false), head);
        chain := [head] + chain;
      }
    }

    /** `map_block`: the chain starts a worker, or goes behind the last one under the lock.
        `k` names the request by its place in mapping order. */
    method MapBlock(k: nat, len: nat, thread: nat)
      requires Valid() && k == |log.lens| && len > 0 && thread !in threads
      modifies this, blockOpsEnd
      ensures Valid() && log == old(log).(lens := old(log.lens) + [len])
      ensures if old(inProcess) then threads == old(threads)
              else nodes != [] && threads == old(threads)[thread := Task(nodes[0])]
      ensures blockOpsEnd != null && fresh(blockOpsEnd)
    {
      hide Books, Linked;
      var head, end, chain := BuildChain(k, len);
      BooksMap(log, Ids(nodes), threads, len);
      assert Ids(nodes + chain) == Ids(nodes) + ChainIds(k, len);
      log := log.(lens := log.lens + [len]);
      if !inProcess {
        assert [] + chain == chain;
        inProcess := true;
        blockOpsEnd := end;
        BooksThreads(log, Ids(chain), threads, threads[thread := Task(head)]);
        threads := threads[thread := Task(head)];
        live, nodes := thread, chain;
      } else {
        Append(head, end, chain);
      }
    }

    method Append(head: OpNode, end: OpNode, ghost chain: seq<OpNode>)
      requires Linked(nodes) && Linked(chain) && nodes != [] && chain != [] && blockOpsEnd == nodes[|nodes| - 1]
      requires head == chain[0] && end == chain[|chain| - 1]
      requires (forall i, j :: 0 <= i < |nodes| && 0 <= j < |chain| ==> nodes[i] != chain[j])
      modifies this`nodes, this`blockOpsEnd, blockOpsEnd
      ensures Linked(nodes) && nodes == old(nodes) + chain && blockOpsEnd == end
    {
      Link(blockOpsEnd, head, nodes, chain);
      blockOpsEnd := end;
      nodes := nodes + chain;
    }

    /** Appends the new chain to the last node. */
    static method Link(end: OpNode, head: OpNode, ghost a: seq<OpNode>, ghost b: seq<OpNode>)
      requires Linked(a) && Linked(b) && a != [] && b != [] && end == a[|a| - 1] && head == b[0]
      requires forall i, j :: 0 <= i < |a| && 0 <= j < |b| ==> a[i] != b[j]
      modifies end
      ensures Linked(a + b)
    {
      end.next := head;
    }
  
    /** A pool thread takes the task up. */
    method Start(t: nat)
      requires Valid() && t in threads && threads[t].Task?
      modifies this`threads
      ensures Valid() && log == old(log) && threads == old(threads)[t := Running(old(threads)[t].node)]
    {
      hide Books, Linked;
      ghost var was := threads;
      threads := threads[t := Running(threads[t].node)];
      BooksThreads(log, Ids(nodes), was, threads);
    }

    /** `BlockOp::complete`: an operation other than the last sends the next one. */
    method RunOp(t: nat)
      requires Valid() && t in threads && threads[t].Running? && !threads[t].node.id.last
      modifies this
      ensures Valid() && inProcess == old(inProcess) && blockOpsEnd == old(blockOpsEnd)
      ensures log == old(log).(ran := old(log.ran) + [old(threads)[t].node.id])
      ensures old(threads)[t].node.next != null && threads == old(threads)[t := Running(old(threads)[t].node.next)]
    {
      hide Books;
      var n := threads[t].node;
      ghost var was, ids := threads, Ids(nodes);
      assert t == live && n == nodes[0];
      BooksRun(log, ids, threads);
      assert Ids(nodes[1..]) == ids[1..];
      nodes := nodes[1..];
      log := log.(ran := log.ran + [n.id]);
      threads := threads[t := Running(n.next)];
      BooksThreads(log, Ids(nodes), was, threads);
    }
  
    /** The critical section of `BlockRequestComplete::complete`. */
    method CompleteOp(t: nat)
      requires Valid() && t in threads && threads[t].Running? && threads[t].node.id.last
      modifies this
      ensures Valid() && old(log).finished < |log.lens|
      ensures log == old(log).(ran := old(log.ran) + [old(threads)[t].node.id], finished := old(log.finished) + 1)
      ensures inProcess <==> log.finished < |log.lens|
      ensures blockOpsEnd == if inProcess then old(blockOpsEnd) else null
      ensures threads == old(threads)[t := Returning(old(threads)[t].node, inProcess)]
    {
      hide Books;
      var n := threads[t].node;
      ghost var ids := Ids(nodes);
      assert t == live && n == nodes[0];
      var callNext := n.next != null;
      BooksComplete(log, ids, threads, t, n, callNext);
      assert Ids(nodes[1..]) == ids[1..];
      nodes := nodes[1..];
      log := log.(ran := log.ran + [n.id], finished := log.finished + 1);
      threads := threads[t := Returning(n, callNext)];
      if !callNext {
        inProcess := false;
        blockOpsEnd := null;
      }
    }

    /** The callback, and then the next chain if there was one. */
    method Return(t: nat)
      requires Valid() && t in threads && threads[t].Returning?
      modifies this
      ensures Valid() && inProcess == old(inProcess) && blockOpsEnd == old(blockOpsEnd)
      ensures old(threads)[t].node.id.req !in old(log.called)
      ensures log == old(log).(called := old(log.called) + {old(threads)[t].node.id.req})
      ensures if old(threads)[t].callNext then
                old(threads)[t].node.next != null && threads == old(threads)[t := Running(old(threads)[t].node.next)]
              else threads == old(threads) - {t}
    {
      hide Books, Linked;
      var n, callNext := threads[t].node, threads[t].callNext;
      ghost var was := threads;
      BooksReturn(log, Ids(nodes), threads, t);
      log := log.(called := log.called + {n.id.req});
      if callNext {
        assert t == live;
        threads := threads[t := Running(n.next)];
      } else {
        threads := threads - {t};
      }
      BooksThreads(log, Ids(nodes), was - {t}, threads);
    }
  
    /** The next step of thread `t`, whatever it is at. */
    method Step(t: nat)
      requires Valid() && t in threads
      modifies this
      ensures Valid() && log.lens == old(log.lens) && threads.Keys <= old(threads).Keys
      ensures blockOpsEnd == null || blockOpsEnd == old(blockOpsEnd)
    {
      hide Books, Linked;
      if threads[t].Task? {
        Start(t);
      } else if threads[t].Returning? {
        Return(t);
      } else if threads[t].node.id.last {
        CompleteOp(t);
      } else {
        RunOp(t);
      }
    }

    /** At any time: one live thread while there is work, and then a last node that ends the
        list; the flag says whether requests are unfinished; what has run is a prefix of what
        was mapped, in mapping order; with no thread left everything has run and every request
        has had its callback. */
    lemma Guarantees()
      requires Valid()
      ensures forall t, u :: t in threads && u in threads && Live(threads[t]) && Live(threads[u]) ==> t == u
      ensures inProcess <==> exists t :: t in threads && Live(threads[t])
      ensures inProcess <==> log.finished < |log.lens|
      ensures inProcess ==> blockOpsEnd != null && blockOpsEnd in nodes && blockOpsEnd.next == null
      ensures log.ran <= Program(log.lens)
      ensures threads == map[] ==>
                log.ran == Program(log.lens) && forall k :: k in log.called <==> 0 <= k < |log.lens|
    {
      hide Program;
      if inProcess {
        assert live in threads && Live(threads[live]);
      }
      if threads == map[] {
        assert forall t, k :: !Owes(threads, t, k);
        assert log.ran + [] == log.ran;
      }
    }
  }

  /** A request is mapped with a chain of `len + 1` operations, or thread `t` takes a step. */
  datatype Event = Map(len: nat) | Step(t: nat)

  /** The chains that a list of events maps. */
  ghost function Lens(es: seq<Event>): seq<nat> {
    if es == [] then []
    else
      var e := es[|es| - 1];
      Lens(es[..|es| - 1]) + if e.Map? then [e.len + 1] else []
  }

  /** Any interleaving, from a new block: its state satisfies `Guarantees` after every event. */
  method Interleave(es: seq<Event>) returns (b: Block)
    ensures b.Valid() && b.log.lens == Lens(es)
  {
    hide Books, Linked;
    b := new Block();
    var k := 0;
    for i := 0 to |es|
      invariant b.Valid() && fresh(b) && (b.blockOpsEnd == null || fresh(b.blockOpsEnd))
      invariant b.log.lens == Lens(es[..i]) && k == |b.log.lens|
      invariant forall t :: t in b.threads ==> t < i
    {
      assert es[..i + 1][..i] == es[..i];
      match es[i] {
        case Map(len) =>
          b.MapBlock(k, len + 1, i);
          k := k + 1;
        case Step(t) =>
          if t in b.threads {
            b.Step(t);
          }
      }
    }
    assert es[..|es|] == es;
  }

  lemma BooksComplete(g: Log, ids: seq<OpId>, threads: map<nat, Thread>, t: nat, n: OpNode, callNext: bool)
    requires Books(g, ids, threads) && ids != [] && ids[0].last && n.id == ids[0]
    requires t in threads && !threads[t].Returning?
    ensures Books(g.(ran := g.ran + [ids[0]], finished := g.finished + 1), ids[1..],
                  threads[t := Returning(n, callNext)])
    ensures g.finished < |g.lens| && (ids[1..] == [] <==> g.finished + 1 == |g.lens|)
  {
    hide Program;
    InOrderTail(ids, g.finished, |g.lens|);
    assert g.ran + [ids[0]] + ids[1..] == g.ran + ids;
    var after := threads[t := Returning(n, callNext)];
    forall k | 0 <= k < g.finished + 1 && k !in g.called ensures exists u :: Owes(after, u, k) {
      if k == g.finished {
        assert Owes(after, t, k);
      } else {
        var u :| Owes(threads, u, k);
        assert Owes(after, u, k);
      }
    }
    assert forall u, k :: Owes(after, u, k) && u != t ==> Owes(threads, u, k) && Owed(k, g.called, g.finished);
  }

  lemma BooksReturn(g: Log, ids: seq<OpId>, threads: map<nat, Thread>, t: nat)
    requires Books(g, ids, threads) && t in threads && threads[t].Returning?
    ensures threads[t].node.id.req !in g.called
    ensures Books(g.(called := g.called + {threads[t].node.id.req}), ids, threads - {t})
  {
    hide Program, InOrder;
    var r, after := threads[t].node.id.req, threads - {t};
    assert Owes(threads, t, r) && Owed(r, g.called, g.finished);
    forall k | 0 <= k < g.finished && k !in g.called + {r} ensures exists u :: Owes(after, u, k) {
      var u :| Owes(threads, u, k);
      assert Owes(after, u, k);
    }
    forall u | u in after && after[u].Returning? ensures Owed(after[u].node.id.req, g.called + {r}, g.finished) {
      assert Owes(threads, u, after[u].node.id.req);
    }
    assert forall u, k :: Owes(after, u, k) ==> Owes(threads, u, k);
  }

  lemma BooksRun(g: Log, ids: seq<OpId>, threads: map<nat, Thread>)
    requires Books(g, ids, threads) && ids != [] && !ids[0].last
    ensures |ids| > 1 && Books(g.(ran := g.ran + [ids[0]]), ids[1..], threads)
  {
    hide Program, Callbacks;
    InOrderTail(ids, g.finished, |g.lens|);
    assert g.ran + [ids[0]] + ids[1..] == g.ran + ids;
  }

  lemma ProgramNext(lens: seq<nat>, len: nat)
    ensures Program(lens + [len]) == Program(lens) + ChainIds(|lens|, len)
  {
    assert (lens + [len])[..|lens|] == lens;
  }
}
