/**
 The retry queue of one worker (internal/server/retry_queue.go) and the manager that spreads messages over
 the workers (internal/server/retry_manager.go). Each public operation is atomic; time.Now() and the question
 whether the connection is still online are parameters.
 */
module RetryQueues {
  import opened RetryKeys
  import opened RetryHeap

  /** The in-flight key. RetryKeys.KeyIsInjective: the code's string for it tells the same pairs apart. */
  datatype Name = Name(connId: int, messageId: int)

  function Key(m: RetryMessage): Name { Name(m.connId, m.messageId) }

  /** When a message is due next, and how often it has timed out. */
  datatype Times = Times(pri: int, retry: int)

  type Book = map<RetryMessage, Times>

  ghost function Record(ms: set<RetryMessage>): Book
    reads ms
  {
    map m <- ms :: Times(m.pri, m.retry)
  }

  /** A timed-out message is queued and written again unless its retries are used up or its connection is gone. */
  predicate TriesAgain(m: RetryMessage, retry: int, online: set<RetryMessage>, maxCount: int) {
    retry <= maxCount && m in online
  }

  /**
   What a scan at time `t` has done to the messages that were in the heap, from `b` to `a`: the `done` ones were
   due and have timed out once; of these the ones to try again wait for a time after `t` and the others have left;
   the rest of the heap is as it was.
   */
  ghost predicate Scanned(b: Book, a: Book, heaped: set<RetryMessage>, done: set<RetryMessage>,
                          t: int, online: set<RetryMessage>, maxCount: int)
  {
    && b.Keys == a.Keys && heaped <= b.Keys && done <= b.Keys
    && (forall m <- done :: b[m].pri <= t && a[m].retry == b[m].retry + 1)
    && (forall m <- done :: m in heaped ==> t < a[m].pri)
    && (forall m <- done :: m in heaped <==> TriesAgain(m, a[m].retry, online, maxCount))
    && (forall m <- b.Keys - done :: m in heaped && a[m] == b[m])
  }

  /** The `done` messages, each once and earliest first, none later than those not done. */
  ghost predicate InOrder(b: Book, handled: seq<RetryMessage>, done: set<RetryMessage>) {
    && done == Members(handled) && done <= b.Keys
    && (forall i, j :: 0 <= i < j < |handled| ==> handled[i] != handled[j] && b[handled[i]].pri <= b[handled[j]].pri)
    && (forall m <- done, n <- b.Keys - done :: b[m].pri <= b[n].pri)
  }

  /** What one round of the scan does: `x`, the earliest in the heap, times out at `t`, if the map still has its key (`found`). */
  ghost predicate Takes(a: Book, a': Book, heaped: set<RetryMessage>, heaped': set<RetryMessage>, x: RetryMessage, found: bool,
                        t: int, online: set<RetryMessage>, maxCount: int)
  {
    && x in heaped && heaped' <= heaped <= a.Keys && x in a' && a[x].pri <= t && (forall m <- heaped :: a[x].pri <= a[m].pri)
    && a' == (if found then a[x := Times(a'[x].pri, a[x].retry + 1)] else a)
    && (x in heaped' <==> found && TriesAgain(x, a'[x].retry, online, maxCount)) && (x in heaped' ==> t < a'[x].pri)
  }

  lemma RoundIsScanned(b: Book, a: Book, a': Book, heaped: set<RetryMessage>, heaped': set<RetryMessage>, done: set<RetryMessage>,
                       x: RetryMessage, t: int, online: set<RetryMessage>, maxCount: int)
    requires Scanned(b, a, heaped, done, t, online, maxCount)
    requires Takes(a, a', heaped, heaped', x, true, t, online, maxCount) && heaped' + {x} == heaped + {x}
    ensures x !in done && Scanned(b, a', heaped', done + {x}, t, online, maxCount)
    ensures forall n <- b.Keys - done :: b[x].pri <= b[n].pri
  {
  }

  lemma RoundInOrder(b: Book, handled: seq<RetryMessage>, done: set<RetryMessage>, x: RetryMessage)
    requires InOrder(b, handled, done) && x in b.Keys - done && forall n <- b.Keys - done :: b[x].pri <= b[n].pri
    ensures InOrder(b, handled + [x], done + {x})
  {
    assert forall i :: 0 <= i < |handled| ==> handled[i] in done;
    assert (handled + [x])[|handled|] == x;
  }

  function Just(m: RetryMessage?): set<RetryMessage> { if m == null then {} else {m} }

  /**
   A scan has handled `handled`, each message once and earliest first, with no acknowledgement in between. The message it
   has `lost`, if any, was due too; its times and those of the other messages are as they were.
   */
  ghost predicate Handled(b: Book, a: Book, heaped: set<RetryMessage>, handled: seq<RetryMessage>, lost: RetryMessage?,
                          t: int, online: set<RetryMessage>, maxCount: int, acked: nat -> bool)
  {
    && Scanned(b - Just(lost), a - Just(lost), heaped, Members(handled), t, online, maxCount)
    && InOrder(b, handled, Members(handled))
    && (forall k: nat :: k < |handled| ==> !acked(k))
    && (lost != null ==> acked(|handled|) && lost in b && lost in a && a[lost] == b[lost] && b[lost].pri <= t)
  }

  lemma RoundIsHandled(b: Book, a: Book, a': Book, heaped: set<RetryMessage>, heaped': set<RetryMessage>, handled: seq<RetryMessage>,
                       x: RetryMessage, t: int, online: set<RetryMessage>, maxCount: int, acked: nat -> bool)
    requires Handled(b, a, heaped, handled, null, t, online, maxCount, acked)
    requires Takes(a, a', heaped, heaped', x, !acked(|handled|), t, online, maxCount) && heaped' + {x} == heaped + {x}
    ensures if acked(|handled|) then Handled(b, a', heaped', handled, x, t, online, maxCount, acked)
            else Handled(b, a', heaped', handled + [x], null, t, online, maxCount, acked)
  {
    var done := Members(handled);
    assert b - {} == b && a - {} == a && a' - {} == a';
    if acked(|handled|) {
      assert (b - {x}).Keys == b.Keys - {x} && (a' - {x}).Keys == a.Keys - {x} && x !in done && x !in heaped';
    } else {
      RoundIsScanned(b, a, a', heaped, heaped', done, x, t, online, maxCount);
      RoundInOrder(b, handled, done, x);
    }
  }

  /** Every message that was due has been handled, is the lost one, or is left behind. */
  lemma DueIs(b: Book, a: Book, heaped: set<RetryMessage>, handled: seq<RetryMessage>, lost: RetryMessage?,
              t: int, online: set<RetryMessage>, maxCount: int, acked: nat -> bool)
    requires Handled(b, a, heaped, handled, lost, t, online, maxCount, acked) && heaped <= a.Keys
    ensures Due(b, b.Keys, t) == Members(handled) + Just(lost) + Due(a, heaped, t)
    ensures |Due(b, b.Keys, t)| == |handled| + |Just(lost)| + |Due(a, heaped, t)|
  {
    var done, left := Members(handled), Due(a, heaped, t);
    DueOneByOne(b, a, heaped, done, lost, t, online, maxCount);
    assert Due(b, b.Keys, t) == done + Just(lost) + left;
    MembersCount(handled);
    assert done !! Just(lost) && done + Just(lost) !! left;
  }

  lemma DueOneByOne(b: Book, a: Book, heaped: set<RetryMessage>, done: set<RetryMessage>, lost: RetryMessage?,
                    t: int, online: set<RetryMessage>, maxCount: int)
    requires Scanned(b - Just(lost), a - Just(lost), heaped, done, t, online, maxCount) && heaped <= a.Keys
    requires lost != null ==> lost in b && b[lost].pri <= t
    ensures forall m :: m in Due(b, b.Keys, t) <==> m in done || m in Just(lost) || m in Due(a, heaped, t)
    ensures done !! Just(lost) && done !! Due(a, heaped, t) && Just(lost) !! Due(a, heaped, t)
  {
    assert (b - Just(lost)).Keys == b.Keys - Just(lost);
    forall m ensures m in Due(b, b.Keys, t) <==> m in done || m in Just(lost) || m in Due(a, heaped, t) {
      if m in b.Keys && m !in done && m != lost { assert m in heaped && a[m] == b[m]; }
    }
  }

  /**
   Whether such a scan, once over, leaves due messages behind depends on the acknowledgements alone: it leaves none
   exactly if none came in a round but the last, the one that takes the last due message.
   */
  lemma LeavesNothingIff(b: Book, a: Book, heaped: set<RetryMessage>, handled: seq<RetryMessage>, lost: RetryMessage?,
                         t: int, online: set<RetryMessage>, maxCount: int, acked: nat -> bool)
    requires Handled(b, a, heaped, handled, lost, t, online, maxCount, acked) && heaped <= a.Keys
    requires lost == null ==> Due(a, heaped, t) == {}
    ensures Due(a, heaped, t) == {} <==> forall k: nat :: k + 1 < |Due(b, b.Keys, t)| ==> !acked(k)
  {
    DueIs(b, a, heaped, handled, lost, t, online, maxCount, acked);
    if Due(a, heaped, t) != {} { assert |handled| + 1 < |Due(b, b.Keys, t)| && acked(|handled|); }
  }

  lemma {:induction false} MembersCount(ms: seq<RetryMessage>)
    requires forall i, j :: 0 <= i < j < |ms| ==> ms[i] != ms[j]
    ensures |Members(ms)| == |ms|
  {
    if ms != [] {
      MembersCount(ms[..|ms| - 1]);
      assert Members(ms) == Members(ms[..|ms| - 1]) + {ms[|ms| - 1]};
    }
  }

  ghost function Due(a: Book, heaped: set<RetryMessage>, t: int): set<RetryMessage>
    requires heaped <= a.Keys
  {
    set m <- heaped | a[m].pri <= t
  }

  lemma DueShrinks(a: Book, a': Book, heaped: set<RetryMessage>, heaped': set<RetryMessage>, x: RetryMessage, found: bool,
                   t: int, online: set<RetryMessage>, maxCount: int)
    requires Takes(a, a', heaped, heaped', x, found, t, online, maxCount)
    ensures Due(a', heaped', t) < Due(a, heaped, t)
  {
    assert x in Due(a, heaped, t) && x !in Due(a', heaped', t);
  }

  class RetryQueue {
    const interval: int
    const maxCount: int
    const id: int        // this queue's place among the workers
    const workers: int
    const inFlightPQ: InFlightPqueue
    var inFlightMessages: map<Name, RetryMessage>
    var stopped: bool

    /** The messages in the heap. */
    ghost function Heaped(): set<RetryMessage>
      reads this, inFlightPQ
    {
      inFlightPQ.members
    }

    ghost predicate NothingDue(t: int)
      reads this, inFlightPQ, Heaped()
    {
      forall m <- Heaped() :: t < m.pri
    }

    ghost function DueCount(t: int): nat
      reads this, inFlightPQ, Heaped()
    {
      |Due(Record(Heaped()), Heaped(), t)|
    }

    ghost predicate Mapped(m: RetryMessage)
      reads this
    {
      Key(m) in inFlightMessages && inFlightMessages[Key(m)] == m
    }

    /** Map and heap hold the same messages, except that `but` may have left the heap already. */
    ghost predicate AgreeBut(but: RetryMessage?)
      reads this, inFlightPQ
    {
      && (forall m <- Heaped() :: Mapped(m))
      && (forall k <- inFlightMessages :: Key(inFlightMessages[k]) == k)
      && (forall k <- inFlightMessages :: inFlightMessages[k] in Heaped() || inFlightMessages[k] == but)
    }

    ghost predicate Agree()
      reads this, inFlightPQ
    {
      AgreeBut(null)
    }

    /**
     What holds even when a key was in flight already: the map names its messages, and each is in the heap or knows that
     it is not. Messages in the heap may be unknown to the map.
     */
    ghost predicate Sane()
      reads this, inFlightPQ, inFlightMessages.Values
    {
      forall k <- inFlightMessages :: Key(inFlightMessages[k]) == k && (inFlightMessages[k] in Heaped() || inFlightMessages[k].index == -1)
    }

    ghost predicate Valid()
      reads this, inFlightPQ, inFlightPQ.items
    {
      inFlightPQ.Valid() && interval > 0 && workers > 0 && forall m <- Heaped() :: Rem(m.messageId, workers) == id
    }

    constructor (id: int, workers: int, interval: int, maxCount: int)
      requires interval > 0 && workers > 0
      ensures Valid() && Agree() && Heaped() == {} && !stopped && fresh(inFlightPQ)
      ensures this.id == id && this.workers == workers && this.interval == interval && this.maxCount == maxCount
    {
      this.id, this.workers, this.interval, this.maxCount := id, workers, interval, maxCount;
      inFlightPQ := new InFlightPqueue(4056);
      inFlightMessages, stopped := map[], false;
    }

    /**
     Start waiting for an acknowledgement. The heap takes the message even if its key is in flight already, so
     a map and a heap that agreed still agree afterwards exactly if it was not.
     */
    method StartInFlightTimeout(msg: RetryMessage, now: int)
      requires Valid() && Sane() && msg !in Heaped() && Rem(msg.messageId, workers) == id
      modifies this`inFlightMessages, inFlightPQ, msg`pri, msg`index, Heaped()`index
      ensures Valid() && Sane() && Heaped() == old(Heaped()) + {msg} && msg.pri == now + interval
      ensures inFlightMessages ==
              if Key(msg) in old(inFlightMessages) then old(inFlightMessages) else old(inFlightMessages)[Key(msg) := msg]
      ensures old(Agree()) ==> (Agree() <==> Key(msg) !in old(inFlightMessages))
    {
      msg.pri := now + interval;
      if Key(msg) !in inFlightMessages {
        inFlightMessages := inFlightMessages[Key(msg) := msg];
      }
      inFlightPQ.Push(msg);
      assert msg in Heaped();
    }

    method PopInFlightMessage(connId: int, messageId: int) returns (msg: RetryMessage?)
      modifies this`inFlightMessages
      ensures var k := Name(connId, messageId);
        && inFlightMessages == old(inFlightMessages) - {k}
        && msg == if k in old(inFlightMessages) then old(inFlightMessages)[k] else null
    {
      var k := Name(connId, messageId);
      if k !in inFlightMessages {
        return null;
      }
      msg := inFlightMessages[k];
      inFlightMessages := inFlightMessages - {k};
    }

    method RemoveFromInFlightPQ(msg: RetryMessage)
      requires Valid() && (msg.index == -1 <==> msg !in Heaped())
      modifies inFlightPQ, Heaped()`index
      ensures Valid() && Heaped() == old(Heaped()) - {msg} && msg.index == -1
    {
      if msg.index == -1 {
        return;
      }
      ghost var k: nat :| k < |inFlightPQ.items| && inFlightPQ.items[k] == msg;
      var _ := inFlightPQ.Remove(msg.index);
    }

    /** An acknowledgement came, or the scan has just taken `popped` off the heap. */
    method FinishMessage(connId: int, messageId: int, ghost popped: RetryMessage?) returns (ok: bool)
      requires Valid() && Sane() && (popped != null ==> popped !in Heaped() && Key(popped) == Name(connId, messageId))
      modifies this`inFlightMessages, inFlightPQ, Heaped()`index
      ensures Valid() && Sane()
      ensures var k := Name(connId, messageId);
        && ok == (k in old(inFlightMessages))
        && inFlightMessages == old(inFlightMessages) - {k}
        && Heaped() == old(Heaped()) - (if ok then {old(inFlightMessages)[k]} else {})
      ensures old(AgreeBut(popped)) ==> Agree()
    {
      var msg := PopInFlightMessage(connId, messageId);
      if msg == null {
        return false;
      }
      IndexTells(msg);
      RemoveFromInFlightPQ(msg);
      return true;
    }

    lemma IndexTells(m: RetryMessage)
      requires Valid() && (m in Heaped() || m.index == -1)
      ensures m.index == -1 <==> m !in Heaped()
    {
      if m in Heaped() {
        var k: nat :| k < |inFlightPQ.items| && inFlightPQ.items[k] == m;
      }
    }

    /** The manager's retry of a timed-out message: `sent` says that it was queued and written once more. */
    method Retry(msg: RetryMessage, online: bool, now: int) returns (sent: bool)
      requires Valid() && Sane() && msg !in Heaped() && Key(msg) !in inFlightMessages
      requires Rem(msg.messageId, workers) == id  // so the manager's addRetry comes back to this queue
      modifies this`inFlightMessages, inFlightPQ, msg, Heaped()`index
      ensures Valid() && Sane() && msg.retry == old(msg.retry) + 1
      ensures sent == (msg.retry <= maxCount && online)
      ensures Heaped() == old(Heaped()) + (if sent then {msg} else {})
      ensures sent ==> msg.pri == now + interval
      ensures old(Agree()) ==> Agree()
    {
      msg.retry := msg.retry + 1;
      if msg.retry > maxCount {
        return false;
      }
      if !online {
        return false;
      }
      StartInFlightTimeout(msg, now);
      return true;
    }

    /**
     The first half of a round of the scan: the earliest message, if it is due, leaves the heap and then the map. The
     mutex is free in between, and an acknowledgement for the very message may come (`acked`). `found` says whether
     the key was still in the map.
     */
    method TakeDue(t: int, acked: bool) returns (msg: RetryMessage?, found: bool)
      requires Valid() && Sane()
      modifies this`inFlightMessages, inFlightPQ, Heaped()`index
      ensures Valid() && Sane() && Heaped() <= old(Heaped())
      ensures msg == null ==> !found && Heaped() == old(Heaped()) && forall m <- Heaped() :: t < m.pri
      ensures msg != null ==>
        && msg in old(Heaped()) && msg.pri <= t && (forall m <- old(Heaped()) :: msg.pri <= m.pri)
        && msg !in Heaped() && Key(msg) !in inFlightMessages && found == (!acked && Key(msg) in old(inFlightMessages))
      ensures old(Agree()) ==> Agree() && Heaped() == old(Heaped()) - Just(msg) && (msg != null ==> found == !acked)
    {
      var wait;
      msg, wait := inFlightPQ.PeekAndShift(t);
      if msg == null {
        return null, false;
      }
      assert Valid() && Sane() && (old(Agree()) ==> AgreeBut(msg));
      if acked {
        var _ := FinishMessage(msg.connId, msg.messageId, msg);
      }
      found := FinishMessage(msg.connId, msg.messageId, msg);
    }

    /** One round of the scan; a message whose key has gone is not retried. The times go from `rec` to `rec'`. */
    method ScanOne(t: int, online: set<RetryMessage>, now: int, acked: bool, ghost rec: Book)
        returns (msg: RetryMessage?, found: bool, ghost rec': Book)
      requires Valid() && Sane() && t <= now && Heaped() <= rec.Keys && rec == Record(rec.Keys)
      modifies this`inFlightMessages, inFlightPQ, Heaped()
      ensures Valid() && Sane() && Heaped() <= old(Heaped())
      ensures rec' == Record(rec.Keys) && (!found ==> rec' == rec)
      ensures msg == null ==> !found && Heaped() == old(Heaped()) && NothingDue(t)
      ensures msg != null ==> Takes(rec, rec', old(Heaped()), Heaped(), msg, found, t, online, maxCount)
      ensures msg != null && !found ==> Key(msg) !in inFlightMessages
      ensures old(Agree()) ==> Agree() && (msg != null ==> found == !acked && Heaped() + {msg} == old(Heaped()) + {msg})
    {
      msg, found := TakeDue(t, acked);
      assert Record(rec.Keys) == rec;
      if msg != null && found {
        var x: RetryMessage := msg;
        var _ := Retry(x, x in online, now);
      }
      rec' := Record(rec.Keys);
      assert found ==> rec' == rec[msg := Times(rec'[msg].pri, rec[msg].retry + 1)];
    }

    lemma TwoAreDue(x: RetryMessage, y: RetryMessage, t: int)
      requires Heaped() == {x, y} && x != y && x.pri <= t && y.pri <= t
      ensures DueCount(t) == 2
    {
      assert Due(Record(Heaped()), Heaped(), t) == {x, y};
    }

    lemma NothingDueIff(b: Book, handled: seq<RetryMessage>, lost: RetryMessage?, t: int, online: set<RetryMessage>, acked: nat -> bool)
      requires Heaped() <= b.Keys && Handled(b, Record(b.Keys), Heaped(), handled, lost, t, online, maxCount, acked)
      requires lost == null ==> NothingDue(t)
      ensures NothingDue(t) <==> forall k: nat :: k + 1 < |Due(b, b.Keys, t)| ==> !acked(k)
    {
      var a := Record(b.Keys);
      forall m | m in Heaped() ensures m in Due(a, Heaped(), t) <==> m.pri <= t { }
      LeavesNothingIff(b, a, Heaped(), handled, lost, t, online, maxCount, acked);
    }

    /**
     The timer's scan at time `t`; in its k-th round an acknowledgement for the message at hand comes in between if
     `acked(k)`. It ends although retries put messages back while it runs. If it runs to its end nothing due is left; it
     breaks off when the key of a message it has popped is gone, and that message, `lost`, is then in neither place. While
     map and heap agree that takes an acknowledgement in between.
     */
    method ProcessInFlightQueue(t: int, online: set<RetryMessage>, clock: nat -> int, acked: nat -> bool)
        returns (handled: seq<RetryMessage>, lost: RetryMessage?)
      requires Valid() && Sane() && !stopped && forall k: nat :: t <= clock(k)
      modifies this`inFlightMessages, inFlightPQ, Heaped()
      ensures Valid() && Sane() && Heaped() <= old(Heaped())
      ensures lost == null ==> NothingDue(t)
      ensures lost != null ==> lost in old(Heaped()) && lost.pri <= t && lost !in Heaped() && Key(lost) !in inFlightMessages
      ensures old(Agree()) ==>
        Agree() && Handled(old(Record(Heaped())), Record(old(Heaped())), Heaped(), handled, lost, t, online, maxCount, acked)
      ensures old(Agree()) ==>
        (NothingDue(t) <==> forall k: nat :: k + 1 < old(DueCount(t)) ==> !acked(k))
    {
      handled, lost := [], null;
      ghost var b, agreed, n := Record(Heaped()), Agree(), DueCount(t);
      ghost var a, heaped := b, Heaped();
      assert b - {} == b && b.Keys == Heaped();
      assert n == |Due(b, b.Keys, t)|;
      while !stopped
        invariant Valid() && Sane() && (agreed ==> Agree())
        invariant Record(b.Keys) == a && Heaped() == heaped <= b.Keys == a.Keys
        invariant agreed ==> Handled(b, a, heaped, handled, null, t, online, maxCount, acked)
        decreases Due(a, heaped, t)
      {
        var msg, found, a' := ScanOne(t, online, clock(|handled|), acked(|handled|), a);
        if msg == null {
          break;
        }
        if agreed {
          RoundIsHandled(b, a, a', heaped, Heaped(), handled, msg, t, online, maxCount, acked);
        }
        if !found {
          lost := msg;
          break;
        }
        DueShrinks(a, a', heaped, Heaped(), msg, found, t, online, maxCount);
        a, heaped, handled := a', Heaped(), handled + [msg];
      }
      if agreed {
        NothingDueIff(b, handled, lost, t, online, acked);
      }
    }
  }

  /** A queue with two messages, the first with id 1; map and heap agree exactly if the second has another id. */
  method TwoWaiting(now: int, secondId: int) returns (q: RetryQueue, first: RetryMessage, second: RetryMessage)
    ensures fresh(q) && fresh(q.inFlightPQ) && fresh(q.Heaped()) && q.Valid() && q.Sane() && !q.stopped
    ensures q.Heaped() == {first, second} && first != second && first.pri == second.pri == now + 1
    ensures Key(first) == Name(1, 1) && Key(second) == Name(1, secondId) && (q.Agree() <==> secondId != 1)
  {
    q := new RetryQueue(0, 1, 1, 0);
    first := new RetryMessage(1, 1);
    second := new RetryMessage(1, secondId);
    q.StartInFlightTimeout(first, now);
    q.StartInFlightTimeout(second, now);
  }

  /**
   Two messages are due when the timer fires, and the acknowledgement for the first comes while the scan has it in hand:
   the scan breaks off and the other message is still waiting, due.
   */
  method BrokenOffScan(now: int) returns (q: RetryQueue)
    ensures fresh(q) && q.Valid() && q.Agree() && !q.NothingDue(now + 1)
  {
    var first, second;
    q, first, second := TwoWaiting(now, 2);
    q.TwoAreDue(first, second, now + 1);
    var acked: nat -> bool := k => k == 0;
    assert acked(0);
    var _, _ := q.ProcessInFlightQueue(now + 1, {}, _ => now + 1, acked);
  }

  /** The same key twice: the heap holds two messages and the map does not know one of them. */
  method RepeatedKey(now: int) returns (q: RetryQueue)
    ensures fresh(q) && q.Valid() && q.Sane() && !q.Agree() && exists m <- q.Heaped() :: !q.Mapped(m)
  {
    var first, second;
    q, first, second := TwoWaiting(now, 1);
    assert !q.Mapped(first) || !q.Mapped(second);
  }

  // ---------------------------------------------------------------- the manager

  class RetryManager {
    const retryQueues: seq<RetryQueue>

    /** Queue i knows that it is number i of as many as there are. */
    predicate Wired() {
      retryQueues != [] &&
      forall i :: 0 <= i < |retryQueues| ==> retryQueues[i].id == i && retryQueues[i].workers == |retryQueues|
    }

    constructor (retryQueues: seq<RetryQueue>)
      ensures this.retryQueues == retryQueues
    {
      this.retryQueues := retryQueues;
    }

    /** The queue an id is routed to; Go panics where there is none (RetryKeys.RouteIsInRange says when). */
    function Route(messageId: int): (q: RetryQueue)
      requires retryQueues != [] && 0 <= Rem(messageId, |retryQueues|) < |retryQueues|
    {
      retryQueues[Rem(messageId, |retryQueues|)]
    }

    /** The message goes to the queue its id is routed to; map and heap there go on agreeing exactly for a new key. */
    method AddRetry(msg: RetryMessage, now: int)
      requires Wired() && 0 <= Rem(msg.messageId, |retryQueues|) < |retryQueues|
      requires Route(msg.messageId).Valid() && Route(msg.messageId).Sane() && msg !in Route(msg.messageId).Heaped()
      modifies var q := Route(msg.messageId); {q, q.inFlightPQ, msg} + q.Heaped()
      ensures var q := Route(msg.messageId);
        && q.Valid() && q.Sane() && q.Heaped() == old(q.Heaped()) + {msg}
        && (old(q.Agree()) ==> (q.Agree() <==> Key(msg) !in old(q.inFlightMessages)))
    {
      Route(msg.messageId).StartInFlightTimeout(msg, now);
    }

    /** An acknowledgement finds its message in the queue that AddRetry chose, and takes it out of map and heap. */
    method RemoveRetry(connId: int, messageId: int) returns (ok: bool)
      requires Wired() && 0 <= Rem(messageId, |retryQueues|) < |retryQueues|
      requires Route(messageId).Valid() && Route(messageId).Agree() && Route(messageId).Sane()
      modifies var q := Route(messageId); {q, q.inFlightPQ} + q.Heaped()
      ensures Route(messageId).Valid() && Route(messageId).Agree()
      ensures ok <==> exists m <- old(Route(messageId).Heaped()) :: m.connId == connId && m.messageId == messageId
      ensures Route(messageId).Heaped() == set m | m in old(Route(messageId).Heaped()) && !(m.connId == connId && m.messageId == messageId)
    {
      ok := Route(messageId).FinishMessage(connId, messageId, null);
    }
  }

  // ---------------------------------------------------------------- the life of one message

  datatype Life = Gone | Waiting(times: Times)

  /** What can happen to a message in flight: a scan at `t`, retried at `now` if due, or an acknowledgement. */
  datatype Op = Scan(t: int, online: bool, now: int) | Ack

  predicate TimesOut(l: Life, op: Op) {
    l.Waiting? && op.Scan? && l.times.pri <= op.t
  }

  function After(l: Life, op: Op, interval: int, maxCount: int): Life {
    if op.Ack? then Gone
    else if !TimesOut(l, op) then l
    else if l.times.retry + 1 <= maxCount && op.online then Waiting(Times(op.now + interval, l.times.retry + 1))
    else Gone
  }

  function LifeOf(a: Book, heaped: set<RetryMessage>, m: RetryMessage): Life
    requires m in a
  {
    if m in heaped then Waiting(a[m]) else Gone
  }

  /** A whole scan of the queue is one step in the life of each message it held. */
  lemma ScanIsAStep(b: Book, a: Book, heaped: set<RetryMessage>, done: set<RetryMessage>, t: int, online: set<RetryMessage>,
                    interval: int, maxCount: int, m: RetryMessage)
    requires Scanned(b, a, heaped, done, t, online, maxCount) && m in b
    requires forall n <- heaped :: t < a[n].pri
    ensures LifeOf(a, heaped, m) == After(Waiting(b[m]), Scan(t, m in online, a[m].pri - interval), interval, maxCount)
  {
  }

  /**
   A scan that breaks off is one such step for the messages it has handled and an acknowledgement for the one it has lost;
   the others go on waiting as they were.
   */
  lemma BrokenScanIsAStep(b: Book, a: Book, heaped: set<RetryMessage>, handled: seq<RetryMessage>, lost: RetryMessage?,
                          t: int, online: set<RetryMessage>, interval: int, maxCount: int, acked: nat -> bool, m: RetryMessage)
    requires Handled(b, a, heaped, handled, lost, t, online, maxCount, acked) && m in b && m in a
    ensures LifeOf(a, heaped, m) ==
            if m in handled then After(Waiting(b[m]), Scan(t, m in online, a[m].pri - interval), interval, maxCount)
            else if m == lost then After(Waiting(b[m]), Ack, interval, maxCount)
            else Waiting(b[m])
  {
    var b', a' := b - Just(lost), a - Just(lost);
    assert b'.Keys == b.Keys - Just(lost) && a'.Keys == a.Keys - Just(lost);
    assert m in handled <==> m in Members(handled);
    if m != lost { assert b'[m] == b[m] && a'[m] == a[m]; }
  }

  function Run(l: Life, ops: seq<Op>, interval: int, maxCount: int): Life
    decreases ops
  {
    if ops == [] then l else Run(After(l, ops[0], interval, maxCount), ops[1..], interval, maxCount)
  }

  /** How often the message times out. */
  function Timeouts(l: Life, ops: seq<Op>, interval: int, maxCount: int): nat
    decreases ops
  {
    if ops == [] then 0
    else (if TimesOut(l, ops[0]) then 1 else 0) + Timeouts(After(l, ops[0], interval, maxCount), ops[1..], interval, maxCount)
  }

  /** How often the message is written to the connection again. */
  function Rewrites(l: Life, ops: seq<Op>, interval: int, maxCount: int): nat
    decreases ops
  {
    if ops == [] then 0
    else
      var l' := After(l, ops[0], interval, maxCount);
      (if TimesOut(l, ops[0]) && l'.Waiting? then 1 else 0) + Rewrites(l', ops[1..], interval, maxCount)
  }

  /** Whatever happens, a message is rewritten at most maxCount times and gone after at most maxCount + 1 timeouts. */
  lemma BoundedRetries(pri: int, ops: seq<Op>, interval: int, maxCount: nat)
    ensures var l := Waiting(Times(pri, 0));
      && Rewrites(l, ops, interval, maxCount) <= maxCount
      && Timeouts(l, ops, interval, maxCount) <= maxCount + 1
      && (Timeouts(l, ops, interval, maxCount) == maxCount + 1 ==> Run(l, ops, interval, maxCount) == Gone)
  {
    RetriesLeft(Waiting(Times(pri, 0)), ops, interval, maxCount);
  }

  lemma {:induction false} RetriesLeft(l: Life, ops: seq<Op>, interval: int, maxCount: nat)
    requires l.Waiting? ==> 0 <= l.times.retry <= maxCount
    ensures l.Gone? ==> Timeouts(l, ops, interval, maxCount) == Rewrites(l, ops, interval, maxCount) == 0 && Run(l, ops, interval, maxCount) == Gone
    ensures l.Waiting? ==>
      && Rewrites(l, ops, interval, maxCount) <= maxCount - l.times.retry
      && Timeouts(l, ops, interval, maxCount) <= maxCount + 1 - l.times.retry
      && (Timeouts(l, ops, interval, maxCount) == maxCount + 1 - l.times.retry ==> Run(l, ops, interval, maxCount) == Gone)
    decreases ops
  {
    if ops != [] { RetriesLeft(After(l, ops[0], interval, maxCount), ops[1..], interval, maxCount); }
  }
}
