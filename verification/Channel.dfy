/**
 The channel as the source writes it: one object with a queue object, six cursors, six ready states
 and explicit branches (channel.go, channel_step.go, msg_queue.go). Every method is proved to do what
 the rules of ChannelSpec say, so that what ChannelTheorems proves of the rules holds of the object.
 */
module Channel {
  import opened Messages
  import opened ChannelSpec

  class ChannelMsgQueue {
    var messages: seq<Message>
    var offset: nat
    var lastIndex: nat
    var payloadDecryptingIndex: nat
    var permissionCheckingIndex: nat
    var storagingIndex: nat
    var sendackingIndex: nat
    var deliveringIndex: nat
    var forwardingIndex: nat

    constructor ()
      ensures View() == NewChan(0).q
    {
      messages, offset, lastIndex := [], 1, 0;
      payloadDecryptingIndex, permissionCheckingIndex, storagingIndex := 0, 0, 0;
      sendackingIndex, deliveringIndex, forwardingIndex := 0, 0, 0;
    }

    function View(): Queue
      reads this
    {
      Queue(messages, offset, lastIndex, payloadDecryptingIndex, permissionCheckingIndex, storagingIndex,
            sendackingIndex, deliveringIndex, forwardingIndex)
    }

    method TruncateTo(index: nat)
      requires TruncateSafe(View(), index)
      modifies this
      ensures View() == Truncate(old(View()), index)
    {
      var num := index + 1 - offset;
      messages := messages[num..];
      offset := index + 1;
    }

    function ArrayIndex(index: nat): int
      reads this
    {
      index + 1 - offset
    }

    method AppendMessage(message: Message)
      modifies this
      ensures View() == old(View()).(messages := old(messages) + [message], lastIndex := old(lastIndex) + 1)
    {
      messages := messages + [message];
      lastIndex := lastIndex + 1;
    }

    method SliceWithSize(lo: nat, hi: nat, maxSize: nat) returns (ms: seq<Message>)
      requires SliceSafe(View(), lo, hi)
      ensures ms == Slice(View(), lo, hi, maxSize)
    {
      if lo == hi { return []; }
      if lo >= offset {
        ms := messages[lo - offset..hi - offset];
        if maxSize == 0 { return ms; }
        ms := LimitSize(ms, maxSize);
        return ms;
      }
      return [];
    }

    method ResetIndexes()
      requires offset >= 1
      modifies this
      ensures View() == ResetIndex(old(View()))
    {
      var newIndex := offset - 1;
      payloadDecryptingIndex := newIndex;
      permissionCheckingIndex := newIndex;
      storagingIndex := newIndex;
      sendackingIndex := newIndex;
      deliveringIndex := newIndex;
      forwardingIndex := newIndex;
    }

    /** The write-back loops of the decrypt, permission and storage answers. */
    method WriteBackAnswers(s: Stage, startIndex: int, endIndex: int, answers: seq<Message>)
      requires startIndex < endIndex ==> 0 <= startIndex && endIndex <= |messages|
      modifies this`messages
      ensures messages == WriteBack(s, old(messages), startIndex, endIndex, answers)
    {
      ghost var before := messages;
      if startIndex >= endIndex {
        assert WriteBack(s, messages, startIndex, endIndex, answers) == messages;
        return;
      }
      for i := startIndex to endIndex
        invariant |messages| == |before|
        invariant forall k :: 0 <= k < |before| ==>
          messages[k] == if startIndex <= k < i then Patch(s, before[k], answers) else before[k]
      {
        var msg := messages[i];
        var j := 0;
        while j < |answers|
          invariant 0 <= j <= |answers| && msg == before[i]
          invariant messages[i] == msg && |messages| == |before|
          invariant forall k :: 0 <= k < |before| ==>
            messages[k] == if startIndex <= k < i then Patch(s, before[k], answers) else before[k]
          invariant Patch(s, msg, answers) == Patch(s, msg, answers[j..])
        {
          if msg.id == answers[j].id {
            messages := messages[i := Merge(s, msg, answers[j])];
            break;
          }
          j := j + 1;
        }
      }
    }
  }

  /** One stage's turn in a pass: its flag goes up and its batch, unless empty, joins the requests. */
  function Turn(c: Chan, s: Stage): Chan {
    if Enabled(c, s) then c.(flags := c.flags.Put(s, c.flags.Get(s).(processing := true))) else c
  }

  function Add(c: Chan, s: Stage, requests: map<Stage, seq<Message>>): map<Stage, seq<Message>>
    requires Enabled(c, s) ==> BatchSafe(c.q, s)
  {
    if Enabled(c, s) && |Batch(c.q, s)| > 0 then requests[s := Batch(c.q, s)] else requests
  }

  lemma FlagsEqual(f: Flags, g: Flags)
    requires forall s: Stage :: f.Get(s) == g.Get(s)
    ensures f == g
  {
    assert f.Get(Decrypt) == g.Get(Decrypt) && f.Get(Permission) == g.Get(Permission) && f.Get(Storage) == g.Get(Storage);
    assert f.Get(Sendack) == g.Get(Sendack) && f.Get(Deliver) == g.Get(Deliver) && f.Get(Forward) == g.Get(Forward);
  }

  lemma TurnFlags(c: Chan, s: Stage)
    ensures Turn(c, s) == c.(flags := Turn(c, s).flags)
    ensures forall t: Stage :: t != s ==> Turn(c, s).flags.Get(t) == c.flags.Get(t)
    ensures Turn(c, s).flags.Get(s) == if Enabled(c, s) then c.flags.Get(s).(processing := true) else c.flags.Get(s)
  {
  }

  lemma LeaderTurns(c: Chan)
    requires c.initialized && c.role.Leader?
    ensures Turn(Turn(Turn(Turn(Turn(c, Decrypt), Permission), Storage), Sendack), Deliver) == AfterReady(c)
  {
    var c1 := Turn(c, Decrypt);
    var c2 := Turn(c1, Permission);
    var c3 := Turn(c2, Storage);
    var c4 := Turn(c3, Sendack);
    var c5 := Turn(c4, Deliver);
    TurnFlags(c, Decrypt);
    TurnFlags(c1, Permission);
    TurnFlags(c2, Storage);
    TurnFlags(c3, Sendack);
    TurnFlags(c4, Deliver);
    FlagsEqual(c5.flags, AfterReady(c).flags);
  }

  lemma LeaderPass(c: Chan)
    requires ReadySafe(c) && c.initialized && c.role.Leader?
    ensures Add(c, Deliver, Add(c, Sendack, Add(c, Storage, Add(c, Permission, Add(c, Decrypt, map[]))))) == Requests(c)
  {
    var d1 := {Decrypt};
    var d2 := d1 + {Permission};
    var d3 := d2 + {Storage};
    var d4 := d3 + {Sendack};
    var d5 := d4 + {Deliver};
    assert d5 == StagesOf(c.role);
    AddsTo(c, Decrypt, map[], {});
    assert {} + {Decrypt} == d1;
    AddsTo(c, Permission, RequestsOf(c, d1), d1);
    AddsTo(c, Storage, RequestsOf(c, d2), d2);
    AddsTo(c, Sendack, RequestsOf(c, d3), d3);
    AddsTo(c, Deliver, RequestsOf(c, d4), d4);
    assert Requests(c) == RequestsOf(c, d5);
  }

  /** The requests of the stages in `done`. */
  function RequestsOf(c: Chan, done: set<Stage>): map<Stage, seq<Message>>
    requires forall s <- done :: Enabled(c, s) ==> BatchSafe(c.q, s)
  {
    map s <- done | Enabled(c, s) && |Batch(c.q, s)| > 0 :: Batch(c.q, s)
  }

  lemma AddsTo(c: Chan, s: Stage, r: map<Stage, seq<Message>>, done: set<Stage>)
    requires forall t <- done + {s} :: Enabled(c, t) ==> BatchSafe(c.q, t)
    requires s !in done && r == RequestsOf(c, done)
    ensures Add(c, s, r) == RequestsOf(c, done + {s})
  {
  }

  lemma ProxyPass(c: Chan)
    requires ReadySafe(c) && c.initialized && c.role.Proxy?
    ensures Turn(Turn(c, Decrypt), Forward) == AfterReady(c)
    ensures Add(c, Forward, Add(c, Decrypt, map[])) == Requests(c)
  {
    var c1 := Turn(c, Decrypt);
    TurnFlags(c, Decrypt);
    TurnFlags(c1, Forward);
    FlagsEqual(Turn(c1, Forward).flags, AfterReady(c).flags);
    AddsTo(c, Decrypt, map[], {});
    AddsTo(c, Forward, Add(c, Decrypt, map[]), {Decrypt});
    assert {Decrypt} + {Forward} == StagesOf(c.role);
  }

  /** Whose turn it was before makes no difference to a stage. */
  lemma TurnsApart(c: Chan, s: Stage, t: Stage, r: map<Stage, seq<Message>>)
    requires s != t && (Enabled(c, t) ==> BatchSafe(c.q, t))
    ensures Enabled(Turn(c, s), t) == Enabled(c, t) && Turn(c, s).q == c.q
    ensures Add(Turn(c, s), t, r) == Add(c, t, r)
  {
  }

  class Channel {
    const nodeId: nat
    const uniqueNo: int
    const msgQueue: ChannelMsgQueue
    var initialized: bool
    var role: Role
    var leaderId: nat
    var initState: ReadyState
    var payloadDecryptState: ReadyState
    var permissionCheckState: ReadyState
    var storageState: ReadyState
    var sendackState: ReadyState
    var deliveryState: ReadyState
    var forwardState: ReadyState

    constructor (nodeId: nat, uniqueNo: int)
      ensures View() == NewChan(nodeId) && this.uniqueNo == uniqueNo && fresh(msgQueue)
    {
      this.nodeId, this.uniqueNo := nodeId, uniqueNo;
      var q := new ChannelMsgQueue();
      msgQueue := q;
      initialized, role, leaderId, initState := false, Unknown, 0, IDLE;
      payloadDecryptState, permissionCheckState, storageState := IDLE, IDLE, IDLE;
      sendackState, deliveryState, forwardState := IDLE, IDLE, IDLE;
    }

    function View(): Chan
      reads this, msgQueue
    {
      Chan(nodeId, msgQueue.View(), initialized, role, leaderId, initState,
           Flags(payloadDecryptState, permissionCheckState, storageState, sendackState, deliveryState, forwardState))
    }

    predicate HasPayloadUnDecrypt() reads this, msgQueue {
      !payloadDecryptState.processing && msgQueue.payloadDecryptingIndex < msgQueue.lastIndex
    }

    predicate HasPermissionUnCheck() reads this, msgQueue {
      !permissionCheckState.processing && msgQueue.permissionCheckingIndex < msgQueue.payloadDecryptingIndex
    }

    predicate HasUnstorage() reads this, msgQueue {
      !storageState.processing && msgQueue.storagingIndex < msgQueue.permissionCheckingIndex
    }

    predicate HasSendack() reads this, msgQueue {
      !sendackState.processing && msgQueue.sendackingIndex < msgQueue.storagingIndex
    }

    predicate HasUnDeliver() reads this, msgQueue {
      !deliveryState.processing && msgQueue.deliveringIndex < msgQueue.storagingIndex
    }

    predicate HasUnforward() reads this, msgQueue {
      !forwardState.processing && msgQueue.forwardingIndex < msgQueue.payloadDecryptingIndex
    }

    /** hasReady(): the reactor only calls Ready when this holds, and then Ready has something to do. */
    method HasReady() returns (r: bool)
      ensures r <==> !initialized || exists s <- StagesOf(role) :: Enabled(View(), s)
    {
      ghost var c := View();
      assert Enabled(c, Decrypt) == HasPayloadUnDecrypt() && Enabled(c, Permission) == HasPermissionUnCheck();
      assert Enabled(c, Storage) == HasUnstorage() && Enabled(c, Sendack) == HasSendack();
      assert Enabled(c, Deliver) == HasUnDeliver() && Enabled(c, Forward) == HasUnforward();
      if !initialized { return true; }
      if HasPayloadUnDecrypt() { return true; }
      if role.Leader? {
        if HasPermissionUnCheck() { return true; }
        if HasUnstorage() { return true; }
        if HasSendack() { return true; }
        if HasUnDeliver() { return true; }
      } else if role.Proxy? {
        if HasUnforward() { return true; }
      }
      return false;
    }

    method ReadyDecrypt(requests: map<Stage, seq<Message>>) returns (r: map<Stage, seq<Message>>)
      requires Enabled(View(), Decrypt) ==> BatchSafe(View().q, Decrypt)
      modifies this`payloadDecryptState
      ensures View() == Turn(old(View()), Decrypt)
      ensures r == Add(old(View()), Decrypt, requests)
    {
      r := requests;
      ghost var c := View();
      assert HasPayloadUnDecrypt() == Enabled(c, Decrypt);
      if HasPayloadUnDecrypt() {
        payloadDecryptState := payloadDecryptState.(processing := true);
        var ms := msgQueue.SliceWithSize(msgQueue.payloadDecryptingIndex + 1, msgQueue.lastIndex + 1, 1024 * 1024 * 2);
        assert ms == Batch(c.q, Decrypt);
        if |ms| > 0 { r := r[Decrypt := ms]; }
      }
    }

    method ReadyPermission(requests: map<Stage, seq<Message>>) returns (r: map<Stage, seq<Message>>)
      requires Enabled(View(), Permission) ==> BatchSafe(View().q, Permission)
      modifies this`permissionCheckState
      ensures View() == Turn(old(View()), Permission)
      ensures r == Add(old(View()), Permission, requests)
    {
      r := requests;
      assert HasPermissionUnCheck() == Enabled(View(), Permission);
      if HasPermissionUnCheck() {
        permissionCheckState := permissionCheckState.(processing := true);
        var ms := msgQueue.SliceWithSize(msgQueue.permissionCheckingIndex + 1, msgQueue.payloadDecryptingIndex + 1, 0);
        if |ms| > 0 { r := r[Permission := ms]; }
      }
    }

    method ReadyStorage(requests: map<Stage, seq<Message>>) returns (r: map<Stage, seq<Message>>)
      requires Enabled(View(), Storage) ==> BatchSafe(View().q, Storage)
      modifies this`storageState
      ensures View() == Turn(old(View()), Storage)
      ensures r == Add(old(View()), Storage, requests)
    {
      r := requests;
      assert HasUnstorage() == Enabled(View(), Storage);
      if HasUnstorage() {
        storageState := storageState.(processing := true);
        var ms := msgQueue.SliceWithSize(msgQueue.storagingIndex + 1, msgQueue.permissionCheckingIndex + 1, 1024 * 1024 * 2);
        if |ms| > 0 { r := r[Storage := ms]; }
      }
    }

    method ReadySendack(requests: map<Stage, seq<Message>>) returns (r: map<Stage, seq<Message>>)
      requires Enabled(View(), Sendack) ==> BatchSafe(View().q, Sendack)
      modifies this`sendackState
      ensures View() == Turn(old(View()), Sendack)
      ensures r == Add(old(View()), Sendack, requests)
    {
      r := requests;
      assert HasSendack() == Enabled(View(), Sendack);
      if HasSendack() {
        sendackState := sendackState.(processing := true);
        var ms := msgQueue.SliceWithSize(msgQueue.sendackingIndex + 1, msgQueue.storagingIndex + 1, 0);
        if |ms| > 0 { r := r[Sendack := ms]; }
      }
    }

    method ReadyDeliver(requests: map<Stage, seq<Message>>) returns (r: map<Stage, seq<Message>>)
      requires Enabled(View(), Deliver) ==> BatchSafe(View().q, Deliver)
      modifies this`deliveryState
      ensures View() == Turn(old(View()), Deliver)
      ensures r == Add(old(View()), Deliver, requests)
    {
      r := requests;
      assert HasUnDeliver() == Enabled(View(), Deliver);
      if HasUnDeliver() {
        deliveryState := deliveryState.(processing := true);
        var ms := msgQueue.SliceWithSize(msgQueue.deliveringIndex + 1, msgQueue.storagingIndex + 1, 1024 * 1024 * 2);
        if |ms| > 0 { r := r[Deliver := ms]; }
      }
    }

    method ReadyForward(requests: map<Stage, seq<Message>>) returns (r: map<Stage, seq<Message>>)
      requires Enabled(View(), Forward) ==> BatchSafe(View().q, Forward)
      modifies this`forwardState
      ensures View() == Turn(old(View()), Forward)
      ensures r == Add(old(View()), Forward, requests)
    {
      r := requests;
      assert HasUnforward() == Enabled(View(), Forward);
      if HasUnforward() {
        forwardState := forwardState.(processing := true);
        var ms := msgQueue.SliceWithSize(msgQueue.forwardingIndex + 1, msgQueue.payloadDecryptingIndex + 1, 1024 * 1024 * 2);
        if |ms| > 0 { r := r[Forward := ms]; }
      }
    }

    /** ready(): mark the enabled stages as processing and hand out their batches. */
    method Ready() returns (init: bool, requests: map<Stage, seq<Message>>)
      requires ReadySafe(View())
      modifies this
      ensures View() == AfterReady(old(View()))
      ensures init == InitRequested(old(View()))
      ensures requests == Requests(old(View()))
    {
      init, requests := false, map[];
      ghost var c := View();
      if !initialized {
        if !initState.processing {
          initState := initState.(processing := true);
          init := true;
        }
        return;
      }
      requests := ReadyDecrypt(requests);
      if role.Leader? {
        requests := ReadyLeader(c, requests);
        LeaderTurns(c);
        LeaderPass(c);
      } else if role.Proxy? {
        TurnsApart(c, Decrypt, Forward, requests);
        requests := ReadyForward(requests);
        ProxyPass(c);
      }
    }

    method ReadyLeader(ghost c: Chan, requests: map<Stage, seq<Message>>) returns (r: map<Stage, seq<Message>>)
      requires c.role.Leader? && c.initialized && ReadySafe(c) && View() == Turn(c, Decrypt)
      modifies this
      ensures View() == Turn(Turn(Turn(Turn(Turn(c, Decrypt), Permission), Storage), Sendack), Deliver)
      ensures r == Add(c, Deliver, Add(c, Sendack, Add(c, Storage, Add(c, Permission, requests))))
    {
      ghost var c1 := Turn(c, Decrypt);
      ghost var c2 := Turn(c1, Permission);
      ghost var c3 := Turn(c2, Storage);
      TurnsApart(c, Decrypt, Permission, requests);
      r := ReadyPermission(requests);
      TurnsApart(c, Decrypt, Storage, r);
      TurnsApart(c1, Permission, Storage, r);
      r := ReadyStorage(r);
      TurnsApart(c, Decrypt, Sendack, r);
      TurnsApart(c1, Permission, Sendack, r);
      TurnsApart(c2, Storage, Sendack, r);
      r := ReadySendack(r);
      TurnsApart(c, Decrypt, Deliver, r);
      TurnsApart(c1, Permission, Deliver, r);
      TurnsApart(c2, Storage, Deliver, r);
      TurnsApart(c3, Sendack, Deliver, r);
      r := ReadyDeliver(r);
    }

    method Tick()
      modifies this
      ensures View() == AfterTick(old(View()))
    {
      initState := TickOne(initState);
      payloadDecryptState := TickOne(payloadDecryptState);
      permissionCheckState := TickOne(permissionCheckState);
      storageState := TickOne(storageState);
      sendackState := TickOne(sendackState);
      deliveryState := TickOne(deliveryState);
      forwardState := TickOne(forwardState);
    }

    method ResetStates()
      requires msgQueue.offset >= 1
      modifies this, msgQueue
      ensures View() == old(View()).(q := ResetIndex(old(View()).q), init := IDLE, flags := ALL_IDLE)
    {
      msgQueue.ResetIndexes();
      initState, payloadDecryptState, permissionCheckState := IDLE, IDLE, IDLE;
      storageState, sendackState, deliveryState, forwardState := IDLE, IDLE, IDLE, IDLE;
    }

    method BecomeLeader()
      requires msgQueue.offset >= 1
      modifies this, msgQueue
      ensures View() == Become(old(View()), Leader, 0)
    {
      ResetStates();
      leaderId := 0;
      role := Leader;
    }

    method BecomeProxy(leaderId: nat)
      requires msgQueue.offset >= 1
      modifies this, msgQueue
      ensures View() == Become(old(View()), Proxy, leaderId)
    {
      ResetStates();
      role := Proxy;
      this.leaderId := leaderId;
    }

    /** step(): an action with a foreign unique number is refused and changes nothing. */
    method Step(uniqueNo: int, a: Action) returns (accepted: bool)
      requires StepSafe(View(), a)
      modifies this, msgQueue
      ensures accepted == (uniqueNo == this.uniqueNo)
      ensures View() == if accepted then AfterStep(old(View()), a) else old(View())
    {
      if uniqueNo != this.uniqueNo { return false; }
      accepted := true;
      match a
      case InitResp(ok, leaderId) =>
        if ok {
          initState := initState.(processing := false);
          initialized := true;
          if leaderId == nodeId { BecomeLeader(); } else { BecomeProxy(leaderId); }
        } else {
          initState := initState.(willRetry := true);
        }
      case LeaderChange(leaderId) =>
        this.leaderId := leaderId;
        if role.Leader? {
          if leaderId != nodeId { BecomeProxy(leaderId); }
        } else if role.Proxy? {
          if leaderId == nodeId { BecomeLeader(); }
        }
      case Send(ms) => Take(ms);
      case Resp(s, ok, index, answers) =>
        if s.Decrypt? {
          StepDecrypt(ok, answers);
        } else if role.Leader? {
          StepLeader(a);
        } else if role.Proxy? {
          StepProxy(a);
        }
    }

    method Take(ms: seq<Message>)
      modifies msgQueue
      ensures View() == old(View()).(q := AppendAll(old(View()).q, ms))
    {
      for i := 0 to |ms|
        invariant View() == old(View()).(q := AppendAll(old(View()).q, ms[..i]))
      {
        assert ms[..i + 1][..i] == ms[..i];
        var message := ms[i];
        if message.packet.None? { continue; }
        if !Blank(message.packet.value.streamNo) { continue; }
        message := message.(index := msgQueue.lastIndex + 1, reason := ReasonSuccess);
        msgQueue.AppendMessage(message);
      }
      assert ms[..|ms|] == ms;
    }

    method StepDecrypt(ok: bool, answers: seq<Message>)
      requires StepSafe(View(), Resp(Decrypt, ok, 0, answers))
      modifies this, msgQueue
      ensures View() == AfterStep(old(View()), Resp(Decrypt, ok, 0, answers))
    {
      if ok {
        payloadDecryptState := payloadDecryptState.(processing := false);
        if |answers| == 0 { return; }
        var lastMsg := answers[|answers| - 1];
        var startIndex := msgQueue.ArrayIndex(msgQueue.payloadDecryptingIndex);
        if lastMsg.index > msgQueue.payloadDecryptingIndex {
          msgQueue.payloadDecryptingIndex := lastMsg.index;
        }
        var endIndex := msgQueue.ArrayIndex(msgQueue.payloadDecryptingIndex);
        if startIndex >= endIndex { return; }
        msgQueue.WriteBackAnswers(Decrypt, startIndex, endIndex, answers);
      } else {
        payloadDecryptState := payloadDecryptState.(willRetry := true);
      }
    }

    method StepLeader(a: Action)
      requires role.Leader? && a.Resp? && !a.stage.Decrypt? && StepSafe(View(), a)
      modifies this, msgQueue
      ensures View() == AfterStep(old(View()), a)
    {
      match a.stage
      case Permission => StepPermission(a);
      case Storage => StepStorage(a);
      case Sendack => StepSendack(a);
      case Deliver => StepDeliver(a);
      case _ =>
    }

    method StepPermission(a: Action)
      requires role.Leader? && a.Resp? && a.stage == Permission && StepSafe(View(), a)
      modifies this, msgQueue
      ensures View() == AfterStep(old(View()), a)
    {
      if a.ok {
        permissionCheckState := permissionCheckState.(processing := false);
        var startIndex := msgQueue.ArrayIndex(msgQueue.permissionCheckingIndex);
        if a.index > msgQueue.permissionCheckingIndex {
          msgQueue.permissionCheckingIndex := a.index;
        }
        var endIndex := msgQueue.ArrayIndex(a.index);
        if startIndex >= endIndex { return; }
        msgQueue.WriteBackAnswers(Permission, startIndex, endIndex, a.answers);
      } else {
        permissionCheckState := permissionCheckState.(willRetry := true);
      }
    }

    method StepStorage(a: Action)
      requires role.Leader? && a.Resp? && a.stage == Storage && StepSafe(View(), a)
      modifies this, msgQueue
      ensures View() == AfterStep(old(View()), a)
    {
      if a.ok {
        storageState := storageState.(processing := false);
        var startIndex := msgQueue.ArrayIndex(msgQueue.storagingIndex);
        if a.index > msgQueue.storagingIndex {
          msgQueue.storagingIndex := a.index;
        }
        var endIndex := msgQueue.ArrayIndex(msgQueue.storagingIndex);
        if startIndex >= endIndex { return; }
        msgQueue.WriteBackAnswers(Storage, startIndex, endIndex, a.answers);
      } else {
        storageState := storageState.(willRetry := true);
      }
    }

    method StepSendack(a: Action)
      requires role.Leader? && a.Resp? && a.stage == Sendack && StepSafe(View(), a)
      modifies this, msgQueue
      ensures View() == AfterStep(old(View()), a)
    {
      if a.ok {
        sendackState := sendackState.(processing := false);
        if a.index > msgQueue.sendackingIndex {
          msgQueue.sendackingIndex := a.index;
          if msgQueue.deliveringIndex >= msgQueue.sendackingIndex { msgQueue.TruncateTo(a.index); }
        }
      } else {
        sendackState := sendackState.(willRetry := true);
      }
    }

    method StepDeliver(a: Action)
      requires role.Leader? && a.Resp? && a.stage == Deliver && StepSafe(View(), a)
      modifies this, msgQueue
      ensures View() == AfterStep(old(View()), a)
    {
      if a.ok {
        deliveryState := deliveryState.(processing := false);
        if a.index > msgQueue.deliveringIndex {
          msgQueue.deliveringIndex := a.index;
          if msgQueue.sendackingIndex >= msgQueue.deliveringIndex { msgQueue.TruncateTo(a.index); }
        }
      } else {
        deliveryState := deliveryState.(willRetry := true);
      }
    }

    method StepProxy(a: Action)
      requires role.Proxy? && a.Resp? && !a.stage.Decrypt? && StepSafe(View(), a)
      modifies this, msgQueue
      ensures View() == AfterStep(old(View()), a)
    {
      if a.stage.Forward? {
        if a.ok {
          forwardState := forwardState.(processing := false);
          if |a.answers| == 0 { return; }
          var lastMsg := a.answers[|a.answers| - 1];
          if lastMsg.index > msgQueue.forwardingIndex {
            msgQueue.forwardingIndex := lastMsg.index;
            msgQueue.TruncateTo(lastMsg.index);
          }
        } else {
          forwardState := forwardState.(willRetry := true);
        }
      }
    }
  }
}
