/**
 The sender that forwards messages to another node (internal/server/node.go:50-186): a queue, an event loop and a
 worker that talks to the node, with at most one batch between them.
 */
module NodeDelivery {
  import opened Messages
  import opened Q = IndexQueues

  /** Consecutive failed requests after which a batch is given up (newNode, requestDeliverErrMaxCount). */
  const REQUEST_DELIVER_ERR_MAX_COUNT := 10

  type Batch = seq<Q.Item<Message>>
  type NodeQueue = Q.Queue<Message>

  function Bodies(b: Batch): (ms: seq<Message>)
    ensures |ms| == |b| && forall i :: 0 <= i < |b| ==> ms[i] == b[i].body
  {
    seq(|b|, i requires 0 <= i < |b| => b[i].body)
  }

  datatype Resp = Resp(index: nat, success: bool, timeout: bool)

  datatype Node = Node(queue: NodeQueue, delivering: bool, errCount: nat)

  /** The batch that ready() cuts: all that is pending, or as much of it as the size limit allows. */
  function Cut(q: NodeQueue, maxSize: nat): Batch
    requires q.Ok()
  {
    var pending := q.Pending();
    if maxSize == 0 then pending else pending[..|Limit(Bodies(pending), maxSize)|]
  }

  /** It is the longest batch within the limit, and all that is pending if there is none. */
  lemma CutIsLongest(q: NodeQueue, maxSize: nat)
    requires q.Ok()
    ensures var b, pending := Cut(q, maxSize), q.Pending();
      && b <= pending && (maxSize == 0 ==> b == pending)
      && (maxSize > 0 ==> LongestFit(Bodies(pending), maxSize, |b|))
  {
    LimitIsPrefix(Bodies(q.Pending()), maxSize);
    LimitIsLongest(Bodies(q.Pending()), maxSize);
  }

  predicate HasReady(n: Node) { !n.delivering && n.queue.processing < n.queue.last }

  function AfterHandle(errCount: nat, ok: bool): nat { if ok then 0 else errCount + 1 }

  function Answer(b: Batch, errCount: nat, ok: bool): Resp
    requires b != []
  {
    Resp(b[|b| - 1].index, ok, AfterHandle(errCount, ok) > REQUEST_DELIVER_ERR_MAX_COUNT)
  }

  predicate RespSafe(n: Node, r: Resp) {
    (r.success || r.timeout) && n.queue.processing < r.index ==> n.queue.TruncateSafe(r.index)
  }

  function AfterResp(n: Node, r: Resp): Node
    requires RespSafe(n, r)
  {
    n.(delivering := false, queue := if r.success || r.timeout then n.queue.Done(r.index) else n.queue)
  }

  // ---------------------------------------------------------------- the object

  class NodeSender {
    const deliverQueue: IndexQueue<Message>
    const maxDeliverSizePerNode: nat
    var delivering: bool
    var requestDeliverErrCount: nat

    constructor (maxDeliverSizePerNode: nat)
      ensures View() == Node(Q.Queue([], 1, 0, 0), false, 0) && this.maxDeliverSizePerNode == maxDeliverSizePerNode
    {
      this.maxDeliverSizePerNode, delivering, requestDeliverErrCount := maxDeliverSizePerNode, false, 0;
      deliverQueue := new IndexQueue();
    }

    function View(): Node
      reads this, deliverQueue
    {
      Node(deliverQueue.View(), delivering, requestDeliverErrCount)
    }

    /** The loop's turn before it waits; an empty batch would be a panic in the source, and cannot come up. */
    method Ready() returns (msgs: Batch)
      requires View().queue.Ok()
      modifies this`delivering
      ensures if HasReady(old(View()))
              then msgs == Cut(old(View()).queue, maxDeliverSizePerNode) && msgs != [] && View() == old(View()).(delivering := true)
              else msgs == [] && View() == old(View())
    {
      if delivering {
        return [];
      }
      if deliverQueue.processingIndex < deliverQueue.lastIndex {
        delivering := true;
        msgs := deliverQueue.Slice(deliverQueue.processingIndex + 1, deliverQueue.lastIndex + 1);
        if maxDeliverSizePerNode != 0 {
          var limited := LimitSize(Bodies(msgs), maxDeliverSizePerNode);
          LimitIsPrefix(Bodies(msgs), maxDeliverSizePerNode);
          msgs := msgs[..|limited|];
        }
        return msgs;
      }
      return [];
    }

    method OnMessages(messages: seq<Message>)
      modifies deliverQueue
      ensures View() == old(View()).(queue := old(View()).queue.AppendAll(messages))
    {
      deliverQueue.AppendEach(messages);
    }

    /** The worker: one request to the node, which succeeds or fails. */
    method HandleDeliverMsgs(msgs: Batch, ok: bool) returns (resp: Resp)
      requires msgs != []
      modifies this`requestDeliverErrCount
      ensures View() == old(View()).(errCount := AfterHandle(old(requestDeliverErrCount), ok))
      ensures resp == Answer(msgs, old(requestDeliverErrCount), ok)
    {
      var success, timeout := true, false;
      if !ok {
        requestDeliverErrCount := requestDeliverErrCount + 1;
        success := false;
      } else {
        requestDeliverErrCount := 0;
      }
      if requestDeliverErrCount > REQUEST_DELIVER_ERR_MAX_COUNT {
        timeout := true;
      }
      return Resp(msgs[|msgs| - 1].index, success, timeout);
    }

    method OnResp(resp: Resp)
      requires RespSafe(View(), resp)
      modifies this`delivering, deliverQueue
      ensures View() == AfterResp(old(View()), resp)
    {
      delivering := false;
      if resp.success || resp.timeout {
        deliverQueue.Settle(resp.index);
      }
    }
  }

  // ---------------------------------------------------------------- loop and worker together

  datatype Reply = NoReply | Reply(batch: Batch, resp: Resp)

  /** The object, the channel to the worker, the worker's answer on its way, and what has happened so far. */
  datatype Sys = Sys(
    node: Node,
    reqs: seq<Batch>,
    reply: Reply,
    enqueued: seq<Message>,
    settled: seq<Message>,
    handled: seq<bool>)

  datatype Event = Enqueue(ms: seq<Message>) | Issue | Handle(ok: bool) | Receive

  ghost predicate Enabled(s: Sys, e: Event) {
    match e
    case Enqueue(_) => true
    case Issue => HasReady(s.node) && s.node.queue.Ok()
    case Handle(_) => s.reqs != [] && s.reqs[0] != [] && s.reply.NoReply?
    case Receive => s.reply.Reply? && RespSafe(s.node, s.reply.resp)
  }

  ghost function Next(s: Sys, e: Event, maxSize: nat): Sys
    requires Enabled(s, e)
  {
    match e
    case Enqueue(ms) => s.(node := s.node.(queue := s.node.queue.AppendAll(ms)), enqueued := s.enqueued + ms)
    case Issue => s.(node := s.node.(delivering := true), reqs := s.reqs + [Cut(s.node.queue, maxSize)])
    case Handle(ok) =>
      s.(node := s.node.(errCount := AfterHandle(s.node.errCount, ok)), reqs := s.reqs[1..],
         reply := Reply(s.reqs[0], Answer(s.reqs[0], s.node.errCount, ok)), handled := s.handled + [ok])
    case Receive =>
      var r := s.reply.resp;
      s.(node := AfterResp(s.node, r), reply := NoReply,
         settled := if r.success || r.timeout then s.settled + Bodies(s.reply.batch) else s.settled)
  }

  /** How many of the latest requests in a row failed. */
  function Failures(handled: seq<bool>): nat {
    if handled == [] || handled[|handled| - 1] then 0 else 1 + Failures(handled[..|handled| - 1])
  }

  /** A batch on its way is a non-empty prefix of what is queued: a retry starts where the failed batch did. */
  ghost predicate OnItsWay(q: NodeQueue, b: Batch) {
    b != [] && b <= q.messages
  }

  ghost predicate Inv(s: Sys) {
    && s.node.queue.Ok()
    && s.settled + Bodies(s.node.queue.messages) == s.enqueued
    && s.node.errCount == Failures(s.handled)
    && (if !s.node.delivering then s.reqs == [] && s.reply == NoReply
        else if s.reply.Reply? then s.reqs == [] else |s.reqs| == 1)
    && (forall b <- s.reqs :: OnItsWay(s.node.queue, b))
    && (s.reply.Reply? ==>
          var b, r := s.reply.batch, s.reply.resp;
          && OnItsWay(s.node.queue, b) && r.index == b[|b| - 1].index
          && s.handled != [] && r.success == s.handled[|s.handled| - 1]
          && r.timeout == (Failures(s.handled) > REQUEST_DELIVER_ERR_MAX_COUNT))
  }

  lemma CutIsOnItsWay(q: NodeQueue, maxSize: nat)
    requires q.Ok() && q.processing < q.last
    ensures OnItsWay(q, Cut(q, maxSize))
  {
    LimitIsPrefix(Bodies(q.Pending()), maxSize);
  }

  lemma HandleKeeps(s: Sys, ok: bool, maxSize: nat)
    requires Inv(s) && Enabled(s, Handle(ok))
    ensures Inv(Next(s, Handle(ok), maxSize))
  {
    assert s.reqs[0] in s.reqs;
    assert (s.handled + [ok])[..|s.handled|] == s.handled;
  }

  lemma EnqueueKeeps(s: Sys, ms: seq<Message>, maxSize: nat)
    requires Inv(s)
    ensures Inv(Next(s, Enqueue(ms), maxSize))
  {
    var q := s.node.queue;
    AppendAllKeeps(q, ms);
    BodiesGrow(q, ms);
    assert s.settled + Bodies(q.AppendAll(ms).messages) == s.settled + Bodies(q.messages) + ms;
    forall b | b in s.reqs || (s.reply.Reply? && b == s.reply.batch) ensures OnItsWay(q.AppendAll(ms), b) {
      assert OnItsWay(q, b);
    }
  }

  lemma BodiesGrow(q: NodeQueue, ms: seq<Message>)
    requires q.Ok()
    ensures Bodies(q.AppendAll(ms).messages) == Bodies(q.messages) + ms
  {
    AppendAllKeeps(q, ms);
  }

  /** The answer's index is never out of range, and cutting there removes exactly the batch. */
  lemma SettledExactly(q: NodeQueue, b: Batch)
    requires q.Ok() && OnItsWay(q, b)
    ensures q.processing < b[|b| - 1].index && q.TruncateSafe(b[|b| - 1].index)
    ensures q.Done(b[|b| - 1].index).Ok() && b + q.Done(b[|b| - 1].index).messages == q.messages
  {
    assert b[|b| - 1] == q.messages[|b| - 1];
  }

  lemma ReceiveKeeps(s: Sys, maxSize: nat)
    requires Inv(s) && s.reply.Reply?
    ensures Enabled(s, Receive) && Inv(Next(s, Receive, maxSize))
  {
    var q, b := s.node.queue, s.reply.batch;
    SettledExactly(q, b);
    var d := q.Done(b[|b| - 1].index);
    assert Bodies(b) + Bodies(d.messages) == Bodies(q.messages) by { assert b + d.messages == q.messages; }
    assert s.settled + Bodies(b) + Bodies(d.messages) == s.settled + (Bodies(b) + Bodies(d.messages));
  }

  lemma StepKeeps(s: Sys, e: Event, maxSize: nat)
    requires Inv(s) && Enabled(s, e)
    ensures Inv(Next(s, e, maxSize))
  {
    match e
    case Enqueue(ms) => EnqueueKeeps(s, ms, maxSize);
    case Issue => CutIsOnItsWay(s.node.queue, maxSize);
    case Handle(ok) => HandleKeeps(s, ok, maxSize);
    case Receive => ReceiveKeeps(s, maxSize);
  }

  ghost predicate IsRun(ss: seq<Sys>, es: seq<Event>, maxSize: nat) {
    && |ss| == |es| + 1
    && ss[0] == Sys(Node(Q.Queue([], 1, 0, 0), false, 0), [], NoReply, [], [], [])
    && forall i :: 0 <= i < |es| ==> Enabled(ss[i], es[i]) && ss[i + 1] == Next(ss[i], es[i], maxSize)
  }

  lemma {:induction false} RunInv(ss: seq<Sys>, es: seq<Event>, maxSize: nat, i: nat)
    requires IsRun(ss, es, maxSize) && i < |ss|
    ensures Inv(ss[i])
  {
    if i > 0 {
      RunInv(ss, es, maxSize, i - 1);
      StepKeeps(ss[i - 1], es[i - 1], maxSize);
      assert ss[i - 1 + 1] == Next(ss[i - 1], es[i - 1], maxSize);
    }
  }

  /** The settled batches, one after the other, are a prefix of what was enqueued, and the queue is the rest. */
  lemma SettledIsPrefix(ss: seq<Sys>, es: seq<Event>, maxSize: nat, i: nat)
    requires IsRun(ss, es, maxSize) && i < |ss|
    ensures ss[i].settled + Bodies(ss[i].node.queue.messages) == ss[i].enqueued
  {
    RunInv(ss, es, maxSize, i);
  }

  lemma {:induction false} FailuresAre(handled: seq<bool>)
    ensures Failures(handled) <= |handled|
    ensures forall k :: |handled| - Failures(handled) <= k < |handled| ==> !handled[k]
    ensures Failures(handled) < |handled| ==> handled[|handled| - Failures(handled) - 1]
  {
    if handled != [] && !handled[|handled| - 1] { FailuresAre(handled[..|handled| - 1]); }
  }

  /** The last request succeeded, or more than ten in a row have failed, for whichever batches. */
  ghost predicate Settles(handled: seq<bool>) {
    handled != [] &&
    (|| handled[|handled| - 1]
     || (|handled| > 10 && forall k :: |handled| - 11 <= k < |handled| ==> !handled[k]))
  }

  lemma SettlesIff(handled: seq<bool>)
    requires handled != []
    ensures Settles(handled) <==> handled[|handled| - 1] || Failures(handled) > REQUEST_DELIVER_ERR_MAX_COUNT
  {
    FailuresAre(handled);
  }

  /** An answer settles its batch exactly if its request succeeded or the last eleven requests, of any batches, have failed. */
  lemma SettledForAReason(ss: seq<Sys>, es: seq<Event>, maxSize: nat, i: nat)
    requires IsRun(ss, es, maxSize) && i < |es|
    ensures es[i] == Receive ==>
      ss[i].reply.Reply? && ss[i + 1].settled == if Settles(ss[i].handled) then ss[i].settled + Bodies(ss[i].reply.batch) else ss[i].settled
    ensures es[i] != Receive ==> ss[i + 1].settled == ss[i].settled
  {
    RunInv(ss, es, maxSize, i);
    if es[i] == Receive { SettlesIff(ss[i].handled); }
  }

  lemma {:induction false} FailuresGoOn(handled: seq<bool>, more: seq<bool>)
    requires forall k :: 0 <= k < |more| ==> !more[k]
    ensures Failures(handled + more) == Failures(handled) + |more|
  {
    if more == [] {
      assert handled + more == handled;
    } else {
      FailuresGoOn(handled, more[..|more| - 1]);
      assert (handled + more)[..|handled + more| - 1] == handled + more[..|more| - 1];
    }
  }

  lemma {:induction false} HandledGrows(ss: seq<Sys>, es: seq<Event>, maxSize: nat, i: nat, j: nat)
    requires IsRun(ss, es, maxSize) && i <= j < |ss|
    ensures ss[i].handled <= ss[j].handled
    decreases j
  {
    if i < j {
      HandledGrows(ss, es, maxSize, i, j - 1);
      assert ss[j - 1 + 1] == Next(ss[j - 1], es[j - 1], maxSize);
    }
  }

  /**
   Giving up does not start the count anew: once eleven requests in a row have failed, and until one succeeds, every batch is
   given up at its first failed request.
   */
  lemma GivesUpAtOnce(ss: seq<Sys>, es: seq<Event>, maxSize: nat, i: nat, j: nat)
    requires IsRun(ss, es, maxSize) && i <= j < |es| && es[j] == Receive
    requires Failures(ss[i].handled) > 10
    requires forall k :: |ss[i].handled| <= k < |ss[j].handled| ==> !ss[j].handled[k]
    ensures ss[j].reply.Reply? && !ss[j].reply.resp.success
    ensures ss[j + 1].settled == ss[j].settled + Bodies(ss[j].reply.batch)
  {
    var h := ss[j].handled;
    HandledGrows(ss, es, maxSize, i, j);
    RunInv(ss, es, maxSize, j);
    FailuresGoOn(ss[i].handled, h[|ss[i].handled|..]);
    assert h == ss[i].handled + h[|ss[i].handled|..];
    SettledForAReason(ss, es, maxSize, j);
    SettlesIff(h);
    FailuresAre(h);
  }

  /** Nothing gets stuck: with something queued, the loop can issue, the worker can handle, or the loop can receive. */
  lemma SomeoneMoves(ss: seq<Sys>, es: seq<Event>, maxSize: nat, i: nat, ok: bool)
    requires IsRun(ss, es, maxSize) && i < |ss| && ss[i].node.queue.messages != []
    ensures Enabled(ss[i], Issue) || Enabled(ss[i], Handle(ok)) || Enabled(ss[i], Receive)
  {
    RunInv(ss, es, maxSize, i);
    if ss[i].reply.Reply? { ReceiveKeeps(ss[i], maxSize); }
    if ss[i].reqs != [] { assert ss[i].reqs[0] in ss[i].reqs; }
  }

  /** A batch that failed comes again from the same first message. */
  lemma RetryStartsAgain(s: Sys, maxSize: nat)
    requires Inv(s) && s.reply.Reply? && !s.reply.resp.success && !s.reply.resp.timeout
    ensures Enabled(s, Receive) && Enabled(Next(s, Receive, maxSize), Issue)
    ensures var t := Next(Next(s, Receive, maxSize), Issue, maxSize);
      |t.reqs| == 1 && t.reqs[0] != [] && t.reqs[0][0] == s.reply.batch[0]
  {
    ReceiveKeeps(s, maxSize);
    CutIsOnItsWay(s.node.queue, maxSize);
  }
}
