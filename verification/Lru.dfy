/** `LRU_LIST`: a doubly linked list with a map from keys to nodes. */
module Lru {
  import opened Basics

  /** `keys` without `k`, the others in order. */
  function Without<K(==)>(keys: seq<K>, k: K): seq<K> {
    if keys == [] then []
    else if keys[0] == k then Without(keys[1..], k)
    else [keys[0]] + Without(keys[1..], k)
  }

  /** `k` first, the other keys behind it in order. */
  function Touched<K(==)>(keys: seq<K>, k: K): seq<K> {
    [k] + Without(keys, k)
  }

  function Reversed<K>(keys: seq<K>): (r: seq<K>)
    ensures |r| == |keys|
    ensures forall i :: 0 <= i < |r| ==> r[i] == keys[|keys| - 1 - i]
  {
    if keys == [] then [] else Reversed(keys[1..]) + [keys[0]]
  }

  lemma DropAtKeepsDistinct<T>(s: seq<T>, i: nat)
    requires i < |s| && Distinct(s)
    ensures Distinct(DropAt(s, i))
  {
    hide DropAt;
  }

  lemma DropAtDistinct<T>(s: seq<T>, i: nat)
    requires i < |s| && Distinct(s)
    ensures Distinct(DropAt(s, i)) && s[i] !in DropAt(s, i)
    ensures forall x :: x in DropAt(s, i) ==> x in s
    ensures forall x :: x in s && x != s[i] ==> x in DropAt(s, i)
  {
    var t := DropAt(s, i);
    forall x | x in s && x != s[i] ensures x in t {
      var j :| 0 <= j < |s| && s[j] == x;
      assert t[if j < i then j else j - 1] == x;
    }
  }

  lemma {:induction false} WithoutAbsent<K>(keys: seq<K>, k: K)
    requires k !in keys
    ensures Without(keys, k) == keys
  {
    if keys != [] {
      WithoutAbsent(keys[1..], k);
    }
  }

  lemma {:induction false} WithoutAt<K>(keys: seq<K>, i: nat)
    requires i < |keys| && Distinct(keys)
    ensures Without(keys, keys[i]) == DropAt(keys, i)
  {
    if i == 0 {
      WithoutAbsent(keys[1..], keys[0]);
    } else {
      WithoutAt(keys[1..], i - 1);
      assert keys[..i] + keys[i + 1..] == [keys[0]] + (keys[1..][..i - 1] + keys[1..][i..]);
    }
  }

  /** Membership and distinctness after a removal. */
  lemma {:induction false} WithoutSound<K>(keys: seq<K>, k: K)
    requires Distinct(keys)
    ensures Distinct(Without(keys, k))
    ensures forall j :: j in Without(keys, k) <==> j in keys && j != k
  {
    if keys != [] {
      WithoutSound(keys[1..], k);
      assert forall j :: j in keys <==> j == keys[0] || j in keys[1..];
      if keys[0] != k {
        assert keys[0] !in Without(keys[1..], k);
      }
    }
  }

  lemma TouchedSound<K>(keys: seq<K>, k: K)
    requires Distinct(keys)
    ensures Distinct(Touched(keys, k))
    ensures forall j :: j in Touched(keys, k) <==> j in keys || j == k
  {
    WithoutSound(keys, k);
    assert k !in Without(keys, k);
  }

  class Node<K> {
    const key: K
    var prev: Node?<K>
    var next: Node?<K>

    constructor (key: K)
      ensures this.key == key && prev == null && next == null
    {
      this.key := key;
      prev, next := null, null;
    }
  }

  /** The links of a chain of distinct nodes. */
  ghost predicate Linked<K>(ns: seq<Node<K>>)
    reads ns
  {
    && Distinct(ns)
    && (ns != [] ==> ns[0].prev == null && ns[|ns| - 1].next == null)
    && (forall i {:trigger ns[i].prev} :: 1 <= i < |ns| ==> ns[i].prev == ns[i - 1])
    && (forall i {:trigger ns[i].next} :: 0 <= i < |ns| - 1 ==> ns[i].next == ns[i + 1])
  }

  lemma LinkedIsDistinct<K>(ns: seq<Node<K>>)
    requires Linked(ns)
    ensures Distinct(ns)
  {
  }

  ghost function KeysOf<K>(ns: seq<Node<K>>): (keys: seq<K>)
    ensures |keys| == |ns| && forall i :: 0 <= i < |ns| ==> keys[i] == ns[i].key
  {
    seq(|ns|, i requires 0 <= i < |ns| => ns[i].key)
  }

  /** The key map lists exactly the nodes of the chain. */
  ghost predicate Tabled<K(!new)>(ns: seq<Node<K>>, nodeOf: map<K, Node<K>>) {
    && |nodeOf| == |ns|
    && (forall i :: 0 <= i < |ns| ==> ns[i].key in nodeOf && nodeOf[ns[i].key] == ns[i])
    && (forall k :: k in nodeOf ==> nodeOf[k] in ns && nodeOf[k].key == k)
  }

  lemma TabledKeys<K(!new)>(ns: seq<Node<K>>, nodeOf: map<K, Node<K>>)
    requires Distinct(ns) && Tabled(ns, nodeOf)
    ensures Distinct(KeysOf(ns))
    ensures forall k :: k in KeysOf(ns) <==> k in nodeOf
  {
    forall k | k in nodeOf ensures k in KeysOf(ns) {
      var i :| 0 <= i < |ns| && ns[i] == nodeOf[k];
      assert KeysOf(ns)[i] == k;
    }
  }

  lemma TabledDrop<K(!new)>(ns: seq<Node<K>>, nodeOf: map<K, Node<K>>, i: nat)
    requires Distinct(ns) && Tabled(ns, nodeOf) && i < |ns|
    ensures Tabled(DropAt(ns, i), nodeOf - {ns[i].key})
    ensures KeysOf(DropAt(ns, i)) == Without(KeysOf(ns), ns[i].key)
  {
    TabledKeys(ns, nodeOf);
    WithoutAt(KeysOf(ns), i);
    DropAtDistinct(ns, i);
    var t, m := DropAt(ns, i), nodeOf - {ns[i].key};
    assert KeysOf(t) == DropAt(KeysOf(ns), i);
    assert m.Keys == nodeOf.Keys - {ns[i].key};
    forall j | 0 <= j < |t| ensures t[j].key in m && m[t[j].key] == t[j] {
      assert t[j] in t && t[j] in ns;
    }
  }

  lemma TabledCons<K(!new)>(node: Node<K>, ns: seq<Node<K>>, nodeOf: map<K, Node<K>>)
    requires Tabled(ns, nodeOf) && node.key !in nodeOf
    ensures Tabled([node] + ns, nodeOf[node.key := node])
    ensures KeysOf([node] + ns) == [node.key] + KeysOf(ns)
  {
    var t, m := [node] + ns, nodeOf[node.key := node];
    forall k | k in m ensures m[k] in t {
      if k != node.key {
        var j :| 0 <= j < |ns| && ns[j] == nodeOf[k];
        assert t[j + 1] == ns[j];
      }
    }
  }

  lemma TabledMove<K(!new)>(ns: seq<Node<K>>, nodeOf: map<K, Node<K>>, i: nat)
    requires Distinct(ns) && Tabled(ns, nodeOf) && i < |ns|
    ensures Tabled([ns[i]] + DropAt(ns, i), nodeOf)
    ensures KeysOf([ns[i]] + DropAt(ns, i)) == Touched(KeysOf(ns), ns[i].key)
  {
    hide Without, DropAt, Distinct, KeysOf;
    var k, rest := ns[i].key, DropAt(ns, i);
    TabledDrop(ns, nodeOf, i);
    ghost var m := nodeOf - {k};
    assert k in nodeOf && nodeOf[k] == ns[i];
    assert m[k := ns[i]] == nodeOf;
    hide Tabled;
    TabledCons(ns[i], rest, m);
  }

  class LruList<K(==,!new)> {
    var nodeOf: map<K, Node<K>>
    var head: Node?<K>
    var tail: Node?<K>
    var length: nat
    /** The nodes from head to tail. */
    ghost var nodes: seq<Node<K>>

    ghost predicate Valid()
      reads this, nodes
    {
      && Linked(nodes) && Tabled(nodes, nodeOf)
      && head == (if nodes == [] then null else nodes[0])
      && tail == (if nodes == [] then null else nodes[|nodes| - 1])
      && length == |nodes|
    }

    /** The abstract value: the keys, most recent first. */
    ghost function Keys(): (keys: seq<K>)
      requires Valid()
      reads this, nodes
      ensures |keys| == length && Distinct(keys)
      ensures forall k :: k in keys <==> k in nodeOf
    {
      TabledKeys(nodes, nodeOf);
      KeysOf(nodes)
    }

    constructor ()
      ensures Valid() && Keys() == [] && nodes == []
    {
      nodeOf, head, tail, length, nodes := map[], null, null, 0, [];
    }

    /** `get_head`; the code dereferences the head, so the list must not be empty. */
    method GetHead() returns (k: K)
      requires Valid() && length > 0
      ensures k == Keys()[0]
    {
      k := head.key;
    }

    /** `get_keys`: up to `required` keys from the recent or from the old end. */
    method GetKeys(required: nat, mostRecentTop: bool) returns (dst: seq<K>)
      requires Valid()
      ensures var all := if mostRecentTop then Keys() else Reversed(Keys());
              dst == all[..if required < |all| then required else |all|]
    {
      hide Tabled, Reversed;
      dst := [];
      if required == 0 {
        return;
      }
      var src := if mostRecentTop then head else tail;
      var count := 0;
      ghost var all := if mostRecentTop then Keys() else Reversed(Keys());
      while count < length
        invariant count <= length && count < required && dst == all[..count]
        invariant count < length ==> src == nodes[if mostRecentTop then count else length - 1 - count]
      {
        ghost var i := if mostRecentTop then count else length - 1 - count;
        assert nodes[i].key == all[count];
        assert mostRecentTop && i + 1 < length ==> nodes[i].next == nodes[i + 1];
        assert !mostRecentTop && i > 0 ==> nodes[i].prev == nodes[i - 1];
        dst := dst + [src.key];
        src := if mostRecentTop then src.next else src.prev;
        count := count + 1;
        if count == required {
          break;
        }
      }
    }

    /** `touch_key`: insert at the front, or move there. */
    method TouchKey(k: K)
      requires Valid()
      modifies this, nodes
      ensures Valid() && forall n :: n in nodes ==> n in old(nodes) || fresh(n)
      ensures Keys() == Touched(old(Keys()), k)
    {
      if k in nodeOf {
        MoveToFront(nodeOf[k]);
      } else {
        WithoutAbsent(Keys(), k);
        Insert(k);
      }
    }

    /** The private `touch_key` on a node. */
    method MoveToFront(key: Node<K>)
      requires Valid() && key in nodes
      modifies this, nodes
      ensures Valid() && nodeOf == old(nodeOf)
      ensures forall n :: n in nodes ==> n in old(nodes)
      ensures Keys() == Touched(old(Keys()), key.key)
    {
      hide Linked, Tabled, Distinct, DropAt, Without;
      ghost var i :| 0 <= i < |nodes| && nodes[i] == key;
      LinkedIsDistinct(nodes);
      TabledMove(nodes, nodeOf, i);
      if head == key {
        assert nodes == [key] + DropAt(nodes, 0);
        return;
      }
      DropAtDistinct(nodes, i);
      Unlink(key, i);
      PushFront(key);
    }

    /** Takes a node out of the chain. */
    method Unlink(key: Node<K>, ghost i: nat)
      requires Linked(nodes) && i < |nodes| && nodes[i] == key
      requires head == nodes[0] && tail == nodes[|nodes| - 1]
      modifies this`head, this`tail, this`nodes, nodes
      ensures nodes == DropAt(old(nodes), i) && Linked(nodes)
      ensures head == (if nodes == [] then null else nodes[0])
      ensures tail == (if nodes == [] then null else nodes[|nodes| - 1])
    {
      hide DropAt;
      assert i > 0 ==> nodes[i].prev == nodes[i - 1];
      assert i + 1 < |nodes| ==> nodes[i].next == nodes[i + 1];
      var origPrev, origNext := key.prev, key.next;
      if head == key {
        head := origNext;
      } else {
        origPrev.next := origNext;
      }
      if origNext != null {
        origNext.prev := origPrev;
      } else {
        tail := origPrev;
      }
      DropAtKeepsDistinct(nodes, i);
      nodes := DropAt(nodes, i);
    }

    /** Puts a node in front of the chain. */
    method PushFront(node: Node<K>)
      requires Linked(nodes) && node !in nodes
      requires head == (if nodes == [] then null else nodes[0])
      requires tail == (if nodes == [] then null else nodes[|nodes| - 1])
      modifies this`head, this`tail, this`nodes, nodes, node
      ensures nodes == [node] + old(nodes) && Linked(nodes)
      ensures head == nodes[0] && tail == nodes[|nodes| - 1]
    {
      var headNext := head;
      head := node;
      head.next := headNext;
      head.prev := null;
      if headNext != null {
        headNext.prev := head;
      } else {
        tail := head;
      }
      nodes := [node] + nodes;
    }

    /** `remove` by key. */
    method Remove(k: K)
      requires Valid()
      modifies this, nodes
      ensures Valid() && forall n :: n in nodes ==> n in old(nodes)
      ensures Keys() == Without(old(Keys()), k)
    {
      if k in nodeOf {
        RemoveNode(nodeOf[k]);
      } else {
        WithoutAbsent(Keys(), k);
      }
    }

    /** The private `remove` on a node. */
    method RemoveNode(key: Node<K>)
      requires Valid() && key in nodes
      modifies this, nodes
      ensures Valid() && forall n :: n in nodes ==> n in old(nodes)
      ensures Keys() == Without(old(Keys()), key.key)
    {
      hide Linked, Tabled, Distinct, DropAt, Without, KeysOf;
      ghost var i :| 0 <= i < |nodes| && nodes[i] == key;
      ghost var rest := DropAt(nodes, i);
      LinkedIsDistinct(nodes);
      TabledDrop(nodes, nodeOf, i);
      assert forall n :: n in rest ==> n in nodes by { DropAtDistinct(nodes, i); }
      length := length - 1;
      nodeOf := nodeOf - {key.key};
      Unlink(key, i);
    }

    /** `insert` of a key that is not in the list. */
    method Insert(k: K)
      requires Valid() && k !in nodeOf
      modifies this, nodes
      ensures Valid() && forall n :: n in nodes ==> n in old(nodes) || fresh(n)
      ensures Keys() == [k] + old(Keys())
    {
      hide Linked, Tabled;
      var node := new Node(k);
      TabledCons(node, nodes, nodeOf);
      nodeOf := nodeOf[k := node];
      PushFront(node);
      length := length + 1;
    }
  }
}
