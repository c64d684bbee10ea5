/**
 The queue with one cursor that the user handler and the node sender share the shape of (userMsgQueue and
 deliverMsgQueue in internal/server/msg_queue.go:129-318).
 */
module IndexQueues {

  /** A message in a queue: its index there and the rest of it. */
  datatype Item<T> = Item(index: nat, body: T)

  datatype Queue<T> = Queue(messages: seq<Item<T>>, offset: nat, processing: nat, last: nat)
  {
    /** Nothing is missing between the cursor and the last index. */
    ghost predicate Ok() {
      && offset >= 1 && processing == offset - 1 && |messages| == last + 1 - offset
      && forall i :: 0 <= i < |messages| ==> messages[i].index == offset + i
    }

    function Append(m: T): Queue<T> {
      this.(messages := messages + [Item(last + 1, m)], last := last + 1)
    }

    function AppendAll(ms: seq<T>): Queue<T>
      decreases |ms|
    {
      if ms == [] then this else Append(ms[0]).AppendAll(ms[1..])
    }

    /** Whether messages[num:] is in range. */
    predicate TruncateSafe(index: nat) {
      offset <= index + 1 <= offset + |messages|
    }

    function Truncate(index: nat): Queue<T>
      requires TruncateSafe(index)
    {
      this.(messages := messages[index + 1 - offset..], offset := index + 1)
    }

    /** A success up to `index`: forward only. */
    function Done(index: nat): Queue<T>
      requires processing < index ==> TruncateSafe(index)
    {
      if processing < index then this.(processing := index).Truncate(index) else this
    }

    function Reset(): Queue<T> {
      if offset <= 0 then this else this.(processing := offset - 1)
    }

    /** What is issued next. */
    function Pending(): seq<Item<T>>
      requires offset <= processing + 1 && last - offset < |messages| && processing <= last
    {
      messages[processing + 1 - offset..last + 1 - offset]
    }
  }

  lemma {:induction false} AppendAllKeeps<T>(q: Queue<T>, ms: seq<T>)
    requires q.Ok()
    ensures q.AppendAll(ms).Ok() && q.AppendAll(ms).last == q.last + |ms|
    ensures q.AppendAll(ms).offset == q.offset && q.AppendAll(ms).processing == q.processing
    ensures q.messages <= q.AppendAll(ms).messages
    ensures forall i :: 0 <= i < |ms| ==> q.AppendAll(ms).messages[|q.messages| + i].body == ms[i]
    decreases |ms|
  {
    if ms != [] {
      AppendAllKeeps(q.Append(ms[0]), ms[1..]);
      assert q.AppendAll(ms).messages[|q.messages|] == q.Append(ms[0]).messages[|q.messages|];
    }
  }

  /** A queue in order can be cut after a success for `index` exactly if the queue ever held that index. */
  lemma DoneIsSafeIff<T>(q: Queue<T>, index: nat)
    requires q.Ok() && q.processing < index
    ensures q.TruncateSafe(index) <==> index <= q.last
  {
  }

  /** A success removes exactly the messages it covers. */
  lemma DoneKeeps<T>(q: Queue<T>, index: nat)
    requires q.Ok() && index <= q.last
    ensures q.Done(index).Ok() && q.Done(index).last == q.last
    ensures forall m <- q.messages :: m in q.Done(index).messages <==> m.index > index
    ensures |q.Done(index).messages| <= |q.messages|
    ensures q.Done(index).messages == q.messages[|q.messages| - |q.Done(index).messages|..]
  {
    var d := q.Done(index);
    forall m | m in q.messages ensures m in d.messages <==> m.index > index {
      var i :| 0 <= i < |q.messages| && q.messages[i] == m;
      if m.index > index && q.processing < index { assert d.messages[i - (index + 1 - q.offset)] == m; }
    }
  }

  class IndexQueue<T> {
    var messages: seq<Item<T>>
    var offset: nat
    var processingIndex: nat
    var lastIndex: nat

    constructor ()
      ensures View() == Queue([], 1, 0, 0)
    {
      messages, offset, processingIndex, lastIndex := [], 1, 0, 0;
    }

    function View(): Queue<T>
      reads this
    {
      Queue(messages, offset, processingIndex, lastIndex)
    }

    method ResetIndex()
      modifies this`processingIndex
      ensures View() == old(View()).Reset()
    {
      if offset <= 0 {
        return;
      }
      processingIndex := offset - 1;
    }

    method TruncateTo(index: nat)
      requires View().TruncateSafe(index)
      modifies this
      ensures View() == old(View()).Truncate(index)
    {
      var num := index + 1 - offset;
      messages := messages[num..];
      offset := index + 1;
    }

    /** The step that numbers a message and appends it. */
    method AppendMessage(m: T)
      modifies this
      ensures View() == old(View()).Append(m)
    {
      var index := lastIndex + 1;
      messages := messages + [Item(index, m)];
      lastIndex := lastIndex + 1;
    }

    method AppendEach(ms: seq<T>)
      modifies this
      ensures View() == old(View()).AppendAll(ms)
    {
      var i := 0;
      while i < |ms|
        invariant i <= |ms| && View().AppendAll(ms[i..]) == old(View()).AppendAll(ms)
      {
        assert ms[i..][1..] == ms[i + 1..];
        AppendMessage(ms[i]);
        i := i + 1;
      }
    }

    /** The answer "done up to index". */
    method Settle(index: nat)
      requires processingIndex < index ==> View().TruncateSafe(index)
      modifies this
      ensures View() == old(View()).Done(index)
    {
      if processingIndex < index {
        processingIndex := index;
        TruncateTo(index);
      }
    }

    /** slice(lo, hi), which sliceWithSize uses when there is no size limit. */
    method Slice(lo: nat, hi: nat) returns (ms: seq<Item<T>>)
      requires offset <= lo <= hi && hi - offset <= |messages|
      ensures ms == messages[lo - offset..hi - offset]
    {
      if lo == hi {
        return [];
      }
      ms := messages[lo - offset..hi - offset];
    }
  }
}
