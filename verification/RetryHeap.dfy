/**
 The priority queue of messages waiting for an acknowledgement (internal/server/in_flight_pqueue.go):
 a binary min-heap on the next retry time, whose elements know their own position.
 */
module RetryHeap {

  // ---------------------------------------------------------------- order, on the priorities alone

  function Parent(k: nat): nat { if k == 0 then 0 else (k - 1) / 2 }

  predicate Edge(p: seq<int>, k: nat)
    requires k < |p|
  {
    p[Parent(k)] <= p[k]
  }

  /** The first `n` priorities form a min-heap. */
  predicate Heap(p: seq<int>, n: nat) {
    n <= |p| && forall k: nat {:trigger Edge(p, k)} :: k < n ==> Edge(p, k)
  }

  /** A heap but for the edge into `j`, whose children are not below its parent. */
  predicate Rising(p: seq<int>, n: nat, j: nat) {
    && j < n <= |p|
    && (forall k: nat {:trigger Edge(p, k)} :: k < n && k != j ==> Edge(p, k))
    && (forall k: nat {:trigger Parent(k)} :: 0 < k < n && Parent(k) == j ==> p[Parent(j)] <= p[k])
  }

  /** A heap but for the edges out of `i`, and, as long as nothing moved, the edge into `root` where the sinking began. */
  predicate Sinking(p: seq<int>, n: nat, root: nat, i: nat) {
    && root <= i < n <= |p|
    && (forall k: nat {:trigger Edge(p, k)} :: k < n && k != root && (k == 0 || Parent(k) != i) ==> Edge(p, k))
    && (i != root ==> Edge(p, root) && forall k: nat {:trigger Parent(k)} :: 0 < k < n && Parent(k) == i ==> p[Parent(i)] <= p[k])
    && (root != 0 ==> forall k: nat {:trigger Parent(k)} :: 0 < k < n && Parent(k) == root ==> p[Parent(root)] <= p[k])
  }

  function Swapped<T>(s: seq<T>, i: nat, j: nat): seq<T>
    requires i < |s| && j < |s|
  {
    s[i := s[j]][j := s[i]]
  }

  lemma RiseStep(p: seq<int>, n: nat, j: nat)
    requires Rising(p, n, j) && !Edge(p, j)
    ensures Rising(Swapped(p, Parent(j), j), n, Parent(j))
  {
    var i, q := Parent(j), Swapped(p, Parent(j), j);
    forall k: nat | k < n && k != i ensures Edge(q, k) {
      assert Edge(p, k) || k == j;
      assert Edge(p, i);
    }
    forall k: nat | 0 < k < n && Parent(k) == i ensures q[Parent(i)] <= q[k] {
      assert Edge(p, k) || k == j;
      assert Edge(p, i);
    }
  }

  predicate SmallerChild(p: seq<int>, n: nat, i: nat, j: nat) {
    0 < j < n <= |p| && Parent(j) == i && forall k: nat {:trigger Parent(k)} :: 0 < k < n && Parent(k) == i ==> p[j] <= p[k]
  }

  lemma SinkStep(p: seq<int>, n: nat, root: nat, i: nat, j: nat)
    requires Sinking(p, n, root, i) && SmallerChild(p, n, i, j) && p[j] < p[i]
    ensures Sinking(Swapped(p, i, j), n, root, j)
  {
    var q := Swapped(p, i, j);
    forall k: nat | k < n && (k == 0 || Parent(k) != j) ensures Edge(q, k) {
      if k != 0 && Parent(k) == i { assert p[j] <= p[k]; } else { assert k != root ==> Edge(p, k); }
    }
    forall k: nat | 0 < k < n && Parent(k) == j ensures q[Parent(j)] <= q[k] { assert Edge(p, k); }
    if root != 0 {
      forall k: nat | 0 < k < n && Parent(k) == root ensures q[Parent(root)] <= q[k] {
        assert p[Parent(root)] <= p[k];
      }
    }
  }

  /** Where the sinking stops, at most the edge into `root` is left to mend. */
  lemma SinkStops(p: seq<int>, n: nat, root: nat, i: nat, j: nat)
    requires Sinking(p, n, root, i) && (n <= 2 * i + 1 || (SmallerChild(p, n, i, j) && p[i] <= p[j]))
    ensures Rising(p, n, root)
  {
    forall k: nat | k < n && k != root ensures Edge(p, k) { assert k == 0 || Parent(k) == i || Edge(p, k); }
    forall k: nat | 0 < k < n && Parent(k) == root ensures p[Parent(root)] <= p[k] {
      assert root == 0 ==> Edge(p, k);
    }
  }

  /** A heap's root is its minimum. */
  lemma {:induction false} RootIsLeast(p: seq<int>, n: nat, k: nat)
    requires Heap(p, n) && k < n
    ensures p[0] <= p[k]
  {
    if k > 0 {
      assert Edge(p, k);
      RootIsLeast(p, n, Parent(k));
    }
  }

  lemma HeapGrows(p: seq<int>, x: int)
    requires Heap(p, |p|)
    ensures Rising(p + [x], |p| + 1, |p|)
  {
    forall k: nat | k < |p| ensures Edge(p + [x], k) { assert Edge(p, k); }
  }

  lemma HeapPrefix(p: seq<int>, n: nat)
    requires Heap(p, n)
    ensures Heap(p[..n], n)
  {
    forall k: nat | k < n ensures Edge(p[..n], k) { assert Edge(p, k); }
  }

  /** After the last element has taken the place of element `i`, only it is out of place. */
  lemma LastMoves(p: seq<int>, i: nat)
    requires Heap(p, |p|) && i < |p| - 1
    ensures Sinking(Swapped(p, i, |p| - 1), |p| - 1, i, i)
  {
    var n, q := |p| - 1, Swapped(p, i, |p| - 1);
    forall k: nat | k < n && k != i && (k == 0 || Parent(k) != i) ensures Edge(q, k) { assert Edge(p, k); }
    forall k: nat | 0 < k < n && Parent(k) == i && i != 0 ensures q[Parent(i)] <= q[k] { assert Edge(p, k) && Edge(p, i); }
  }

  // ---------------------------------------------------------------- the queue

  class RetryMessage {
    const connId: int
    const messageId: int
    var retry: int
    var index: int
    var pri: int

    constructor (connId: int, messageId: int)
      ensures this.connId == connId && this.messageId == messageId && retry == 0
    {
      this.connId, this.messageId, retry, index, pri := connId, messageId, 0, 0, 0;
    }
  }

  function Members(s: seq<RetryMessage>): set<RetryMessage> { set m <- s }

  predicate SameItems(a: seq<RetryMessage>, b: seq<RetryMessage>) {
    |a| == |b| && multiset(a) == multiset(b) && Members(a) == Members(b)
  }

  lemma SwappedIsSame(s: seq<RetryMessage>, i: nat, j: nat)
    requires i < |s| && j < |s|
    ensures SameItems(Swapped(s, i, j), s)
  {
    var t := Swapped(s, i, j);
    forall m ensures m in t <==> m in s {
      assert m in t <==> m in multiset(t);
      assert m in s <==> m in multiset(s);
    }
  }

  lemma LastLeaves(s: seq<RetryMessage>)
    requires s != []
    ensures multiset(s[..|s| - 1]) + multiset{s[|s| - 1]} == multiset(s)
  {
    assert s == s[..|s| - 1] + [s[|s| - 1]];
  }

  class InFlightPqueue {
    var items: seq<RetryMessage>
    var capacity: nat
    ghost var pris: seq<int>               // the priorities of `items`
    ghost var members: set<RetryMessage>   // the messages in `items`

    /** Every element knows its position. */
    ghost predicate Indexed()
      reads this, items
    {
      && |pris| == |items|
      && (forall k :: 0 <= k < |items| ==> items[k].index == k)
      && (forall k :: 0 <= k < |items| ==> items[k].pri == pris[k])
    }

    ghost predicate Valid()
      reads this, items
    {
      members == Members(items) && 0 < capacity && |items| <= capacity && Indexed() && Heap(pris, |items|)
    }

    constructor (capacity: nat)
      requires 0 < capacity
      ensures Valid() && items == [] && members == {}
    {
      this.items, this.capacity, pris, members := [], capacity, [], {};
    }

    method Swap(i: nat, j: nat)
      requires i < |items| && j < |items| && Indexed()
      modifies this`items, this`pris, {items[i], items[j]}`index
      ensures items == Swapped(old(items), i, j) && Indexed() && SameItems(items, old(items))
      ensures pris == Swapped(old(pris), i, j)
    {
      SwappedIsSame(items, i, j);
      pris := Swapped(pris, i, j);
      items := items[i := items[j]][j := items[i]];
      items[i].index := i;
      items[j].index := j;
    }

    method Up(start: nat, ghost n: nat)
      requires Indexed() && Rising(pris, n, start)
      modifies this`items, this`pris, Members(items)`index
      ensures Indexed() && SameItems(items, old(items)) && Heap(pris, n)
      ensures forall k :: n <= k < |items| ==> items[k] == old(items)[k]
    {
      var j := start;
      while true
        invariant SameItems(items, old(items))
        invariant forall k :: n <= k < |items| ==> items[k] == old(items)[k]
        invariant Indexed() && Rising(pris, n, j)
        decreases j
      {
        var i := Parent(j);
        if i == j || items[j].pri >= items[i].pri {
          break;
        }
        RiseStep(pris, n, j);
        assert items[i] in Members(items) && items[j] in Members(items);
        Swap(i, j);
        j := i;
      }
    }

    method LowerChild(j1: nat, n: nat) returns (j: nat)
      requires Indexed() && j1 < n <= |items| && j1 % 2 == 1
      ensures SmallerChild(pris, n, Parent(j1), j)
    {
      j := j1;
      var j2 := j1 + 1;
      if j2 < n && items[j1].pri >= items[j2].pri {
        j := j2;
      }
    }

    method Down(root: nat, n: nat)
      requires Indexed() && Sinking(pris, n, root, root)
      modifies this`items, this`pris, Members(items)`index
      ensures Indexed() && SameItems(items, old(items)) && Rising(pris, n, root)
      ensures forall k :: n <= k < |items| ==> items[k] == old(items)[k]
    {
      var i := root;
      while true
        invariant SameItems(items, old(items))
        invariant forall k :: n <= k < |items| ==> items[k] == old(items)[k]
        invariant Indexed() && Sinking(pris, n, root, i)
        decreases n - i
      {
        var j1 := 2 * i + 1;
        if j1 >= n {
          SinkStops(pris, n, root, i, i);
          break;
        }
        var j := LowerChild(j1, n);
        if items[j].pri >= items[i].pri {
          SinkStops(pris, n, root, i, j);
          break;
        }
        SinkStep(pris, n, root, i, j);
        assert items[i] in Members(items) && items[j] in Members(items);
        Swap(i, j);
        i := j;
      }
    }

    method Push(x: RetryMessage)
      requires Valid() && x !in members
      modifies this, x`index, members`index
      ensures Valid() && multiset(items) == multiset(old(items)) + multiset{x}
      ensures members == old(members) + {x}
    {
      var n := |items|;
      if n + 1 > capacity {
        capacity := capacity * 2;
      }
      x.index := n;
      HeapGrows(pris, x.pri);
      items := items + [x];
      pris := pris + [x.pri];
      assert forall m <- items :: m in old(items) || m == x;
      assert items[n] == x;
      members := members + {x};
      Up(n, n + 1);
    }

    method Pop() returns (x: RetryMessage)
      requires Valid() && items != []
      modifies this, members`index
      ensures Valid() && x == old(items)[0] && x.index == -1
      ensures multiset(items) + multiset{x} == multiset(old(items)) && members == old(members) - {x}
    {
      var n := |items|;
      if n > 1 {
        LastMoves(pris, 0);
      }
      Swap(0, n - 1);
      if n > 1 {
        Down(0, n - 1);
      }
      if n < capacity / 2 && capacity > 25 {
        capacity := capacity / 2;
      }
      x := TakeLast();
    }

    method Remove(i: nat) returns (x: RetryMessage)
      requires Valid() && i < |items|
      modifies this, members`index
      ensures Valid() && x == old(items)[i] && x.index == -1
      ensures multiset(items) + multiset{x} == multiset(old(items)) && members == old(members) - {x}
    {
      var n := |items|;
      if n - 1 != i {
        MoveLastTo(i);
      }
      x := TakeLast();
    }

    /** The last element takes the place of element `i` and finds its own. */
    method MoveLastTo(i: nat)
      requires Indexed() && Heap(pris, |items|) && i < |items| - 1
      modifies this`items, this`pris, Members(items)`index
      ensures Indexed() && SameItems(items, old(items)) && Heap(pris, |items| - 1) && items[|items| - 1] == old(items)[i]
    {
      var n := |items|;
      LastMoves(pris, i);
      Swap(i, n - 1);
      Down(i, n - 1);
      Up(i, n - 1);
    }

    /** Pop and Remove end by cutting off the last slot. */
    method TakeLast() returns (x: RetryMessage)
      requires Indexed() && members == Members(items) && items != [] && |items| <= capacity && Heap(pris, |items| - 1)
      modifies this`items, this`pris, this`members, Members(items)`index
      ensures Valid() && x == old(items)[|old(items)| - 1] && x.index == -1
      ensures multiset(items) + multiset{x} == multiset(old(items)) && members == old(members) - {x}
    {
      var n := |items|;
      x := items[n - 1];
      LastLeaves(items);
      x.index := -1;
      items := items[..n - 1];
      members := members - {x};
      HeapPrefix(pris, n - 1);
      pris := pris[..n - 1];
    }

    /** The earliest message if it is due at `max`; otherwise how long until one is. */
    method PeekAndShift(max: int) returns (x: RetryMessage?, wait: int)
      requires Valid()
      modifies this, members`index
      ensures Valid()
      ensures x != null ==>
        && x in old(members) && x.pri <= max && (forall m <- old(members) :: x.pri <= m.pri)
        && x.index == -1 && wait == 0 && multiset(items) + multiset{x} == multiset(old(items))
        && members == old(members) - {x}
      ensures x == null ==>
        && items == old(items) && members == old(members) && (forall m <- members :: m.index == old(m.index) && max + wait <= m.pri)
        && (if items == [] then wait == 0 else wait > 0)
    {
      if |items| == 0 {
        return null, 0;
      }
      x := items[0];
      forall m | m in items ensures x.pri <= m.pri {
        var k: nat :| k < |items| && items[k] == m;
        RootIsLeast(pris, |items|, k);
      }
      if x.pri > max {
        return null, x.pri - max;
      }
      x := Pop();
      return x, 0;
    }
  }
}
