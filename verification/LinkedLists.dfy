/**
 The doubly linked list that indexes channels, user handlers and streams (internal/server/queue.go:35-107; the three
 copies differ in the element type only).
 */
module LinkedLists {
  import opened Options

  class Node<T> {
    const key: string
    const item: T
    var next: Node?<T>
    var pre: Node?<T>

    constructor (key: string, item: T)
      ensures this.key == key && this.item == item && next == null && pre == null
    {
      this.key, this.item, next, pre := key, item, null, null;
    }
  }

  /** The position of the first node with the key, or the length. */
  function Find<T>(nodes: seq<Node<T>>, key: string): (i: nat)
    ensures i <= |nodes| && (i < |nodes| ==> nodes[i].key == key) && forall j :: 0 <= j < i ==> nodes[j].key != key
  {
    if nodes == [] || nodes[0].key == key then 0 else 1 + Find(nodes[1..], key)
  }

  function At<T>(nodes: seq<Node<T>>, i: int): Node?<T> {
    if 0 <= i < |nodes| then nodes[i] else null
  }

  /** The links of node `i` lead to its neighbours. */
  ghost predicate Linked<T>(nodes: seq<Node<T>>, i: int)
    requires 0 <= i < |nodes|
    reads nodes[i]
  {
    nodes[i].next == At(nodes, i + 1) && nodes[i].pre == At(nodes, i - 1)
  }

  predicate Distinct<T>(nodes: seq<Node<T>>) {
    forall i, j :: 0 <= i < j < |nodes| ==> nodes[i] != nodes[j]
  }

  function Without<T>(nodes: seq<Node<T>>, i: nat): (r: seq<Node<T>>)
    requires i < |nodes|
    ensures |r| == |nodes| - 1 && forall j :: 0 <= j < |r| ==> r[j] == if j < i then nodes[j] else nodes[j + 1]
  {
    nodes[..i] + nodes[i + 1..]
  }

  lemma WithoutDistinct<T>(nodes: seq<Node<T>>, i: nat)
    requires Distinct(nodes) && i < |nodes|
    ensures Distinct(Without(nodes, i)) && nodes[i] !in Without(nodes, i)
  {
    var r := Without(nodes, i);
    forall x, y | 0 <= x < y < |r| ensures r[x] != r[y] {
      assert nodes[if x < i then x else x + 1] != nodes[if y < i then y else y + 1];
    }
    forall x | 0 <= x < |r| ensures r[x] != nodes[i] {
      assert nodes[if x < i then x else i] != nodes[if x < i then i else x + 1];
    }
  }

  class List<T> {
    var head: Node?<T>
    var tail: Node?<T>
    var count: int
    ghost var nodes: seq<Node<T>>  // from head to tail

    ghost predicate Valid()
      reads this, nodes
    {
      && count == |nodes|
      && Distinct(nodes)
      && head == At(nodes, 0) && tail == At(nodes, |nodes| - 1)
      && (forall i :: 0 <= i < |nodes| ==> Linked(nodes, i))
    }

    constructor ()
      ensures Valid() && nodes == []
    {
      head, tail, count, nodes := null, null, 0, [];
    }

    method Add(key: string, item: T)
      requires Valid()
      modifies this, nodes
      ensures Valid() && |nodes| == |old(nodes)| + 1 && nodes[..|old(nodes)|] == old(nodes)
      ensures fresh(nodes[|old(nodes)|]) && nodes[|old(nodes)|].key == key && nodes[|old(nodes)|].item == item
    {
      var node := new Node(key, item);
      if head == null {
        head := node;
      } else {
        tail.next := node;
        node.pre := tail;
      }
      tail := node;
      count := count + 1;
      ghost var n := |nodes|;
      nodes := nodes + [node];
      forall i | 0 <= i < |nodes| ensures Linked(nodes, i) { assert i < n ==> old(Linked(nodes, i)); }
    }

    /** The pointer surgery of remove. */
    method Unlink(node: Node<T>, ghost i: nat)
      requires Valid() && i < |nodes| && node == nodes[i]
      modifies this, nodes
      ensures Valid() && nodes == Without(old(nodes), i)
    {
      ghost var b := nodes;
      assert Linked(b, i) && (i > 0 ==> b[i - 1] in b) && (i + 1 < |b| ==> b[i + 1] in b);
      if node.pre == null {
        head := node.next;
      } else {
        node.pre.next := node.next;
      }
      if node.next == null {
        tail := node.pre;
      } else {
        node.next.pre := node.pre;
      }
      count := count - 1;
      WithoutDistinct(b, i);
      nodes := Without(b, i);
      forall j | 0 <= j < |nodes| ensures Linked(nodes, j) {
        if j < i { assert old(Linked(b, j)); } else { assert old(Linked(b, j + 1)); }
      }
    }

    /** Unlinks the first node with the key. */
    method Remove(key: string) returns (r: Option<T>)
      requires Valid()
      modifies this, nodes
      ensures Valid()
      ensures var i := Find(old(nodes), key);
              if i == |old(nodes)| then r == None && nodes == old(nodes)
              else r == Some(old(nodes)[i].item) && nodes == Without(old(nodes), i)
    {
      var node := head;
      ghost var i := 0;
      while node != null
        invariant i <= |nodes| && node == At(nodes, i)
        invariant Find(nodes, key) >= i
        decreases |nodes| - i
      {
        if node.key == key {
          Unlink(node, i);
          return Some(node.item);
        }
        assert Linked(nodes, i);
        node := node.next;
        i := i + 1;
      }
      return None;
    }

    method Get(key: string) returns (r: Option<T>)
      requires Valid()
      ensures var i := Find(nodes, key); r == if i == |nodes| then None else Some(nodes[i].item)
    {
      var node := head;
      ghost var i := 0;
      while node != null
        invariant i <= |nodes| && node == At(nodes, i)
        invariant Find(nodes, key) >= i
        decreases |nodes| - i
      {
        if node.key == key {
          return Some(node.item);
        }
        assert Linked(nodes, i);
        node := node.next;
        i := i + 1;
      }
      return None;
    }

    /**
     Visits the items from the oldest to the newest until the visitor `go` declines to go on; the channel list's
     visitor never does, the user handler list's may.
     */
    method Iter(go: T -> bool) returns (items: seq<T>)
      requires Valid()
      ensures |items| <= |nodes| && forall i :: 0 <= i < |items| ==> items[i] == nodes[i].item
      ensures forall i :: 0 <= i < |items| - 1 ==> go(items[i])
      ensures |items| == |nodes| || (items != [] && !go(items[|items| - 1]))
    {
      items := [];
      var node := head;
      while node != null
        invariant |items| <= |nodes| && node == At(nodes, |items|)
        invariant forall i :: 0 <= i < |items| ==> items[i] == nodes[i].item && go(items[i])
        decreases |nodes| - |items|
      {
        items := items + [node.item];
        if !go(node.item) {
          break;
        }
        assert Linked(nodes, |items| - 1);
        node := node.next;
      }
    }
  }
}
