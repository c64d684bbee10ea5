/**
 The user handler as the source writes it, one object with four queue objects (internal/server/user.go, user_step.go),
 proved to follow the rules of UserSpec.
 */
module UserHandlers {
  import C = ChannelSpec
  import opened Q = IndexQueues
  import opened UserSpec

  datatype Request = InitRequest | LaneRequest(lane: Lane, messages: seq<Q.Item<Body>>)

  function Request1(u: User, l: Lane): seq<Request> {
    if Wants(u, l) then [LaneRequest(l, u.Queue(l).messages)] else []
  }

  /** What ready() hands out: each free lane with work, all of its queue. */
  function Requests(u: User): seq<Request> {
    if !u.initialized then (if u.init.processing then [] else [InitRequest])
    else if u.role == C.Leader then Request1(u, Auth) + Request1(u, Ping) + Request1(u, Recvack) + Request1(u, RecvMsg)
    else Request1(u, Recvack) + Request1(u, Auth) + Request1(u, RecvMsg)
  }

  class UserHandler {
    const uniqueNo: nat
    const nodeId: nat
    const authQueue: IndexQueue<Body>
    const pingQueue: IndexQueue<Body>
    const recvackQueue: IndexQueue<Body>
    const recvMsgQueue: IndexQueue<Body>
    var initialized: bool
    var role: C.Role
    var leaderId: nat
    var initState: C.ReadyState
    var authState: C.ReadyState
    var pingState: C.ReadyState
    var recvackState: C.ReadyState
    var recvMsgState: C.ReadyState

    predicate Valid() {
      && authQueue != pingQueue && authQueue != recvackQueue && authQueue != recvMsgQueue
      && pingQueue != recvackQueue && pingQueue != recvMsgQueue && recvackQueue != recvMsgQueue
    }

    function View(): User
      reads this, authQueue, pingQueue, recvackQueue, recvMsgQueue
    {
      User(uniqueNo, nodeId, initialized, role, leaderId, initState, authQueue.View(), pingQueue.View(), recvackQueue.View(),
           recvMsgQueue.View(), authState, pingState, recvackState, recvMsgState)
    }

    constructor (uniqueNo: nat, nodeId: nat)
      ensures Valid() && View() == NewUser(uniqueNo, nodeId)
      ensures fresh(authQueue) && fresh(pingQueue) && fresh(recvackQueue) && fresh(recvMsgQueue)
    {
      this.uniqueNo, this.nodeId, initialized, role, leaderId := uniqueNo, nodeId, false, C.Unknown, 0;
      initState, authState, pingState, recvackState, recvMsgState := C.IDLE, C.IDLE, C.IDLE, C.IDLE, C.IDLE;
      authQueue := new IndexQueue();
      pingQueue := new IndexQueue();
      recvackQueue := new IndexQueue();
      recvMsgQueue := new IndexQueue();
    }

    /** The block at every answer: on success idle and cut, otherwise try again later. */
    static method Answered(q: IndexQueue<Body>, state: C.ReadyState, ok: bool, index: nat) returns (state': C.ReadyState)
      requires ok && q.processingIndex < index ==> q.View().TruncateSafe(index)
      modifies q
      ensures state' == if ok then state.(processing := false) else state.(willRetry := true)
      ensures q.View() == if ok then old(q.View()).Done(index) else old(q.View())
    {
      state' := state;
      if ok {
        state' := state'.(processing := false);
        q.Settle(index);
      } else {
        state' := state'.(willRetry := true);
      }
    }

    method Reset()
      requires Valid()
      modifies this`authState, this`pingState, this`recvackState, this`recvMsgState, this`initState,
               authQueue, pingQueue, recvackQueue, recvMsgQueue
      ensures View() == Become(old(View()), role, leaderId)
    {
      pingQueue.ResetIndex();
      recvackQueue.ResetIndex();
      recvMsgQueue.ResetIndex();
      authQueue.ResetIndex();
      pingState, recvackState, recvMsgState, authState, initState := C.IDLE, C.IDLE, C.IDLE, C.IDLE, C.IDLE;
    }

    method BecomeLeader()
      requires Valid()
      modifies this, authQueue, pingQueue, recvackQueue, recvMsgQueue
      ensures View() == Become(old(View()), C.Leader, 0)
    {
      Reset();
      leaderId, role := 0, C.Leader;
    }

    method BecomeProxy(leaderId: nat)
      requires Valid()
      modifies this, authQueue, pingQueue, recvackQueue, recvMsgQueue
      ensures View() == Become(old(View()), C.Proxy, leaderId)
    {
      Reset();
      this.leaderId, role := leaderId, C.Proxy;
    }

    /** One action; those of another generation of the handler (uniqueNo) are refused. */
    method Step(no: nat, a: Act) returns (ok: bool)
      requires Valid() && (no == uniqueNo ==> StepSafe(View(), a))
      modifies this, authQueue, pingQueue, recvackQueue, recvMsgQueue
      ensures View() == if no == uniqueNo then AfterStep(old(View()), a) else old(View())
      ensures ok <==> no == uniqueNo && Accepts(old(View()), a)
    {
      if no != uniqueNo {
        return false;
      }
      ok := true;
      match a
      case InitResp(success, leaderId) =>
        if success {
          initState := initState.(processing := false);
          initialized := true;
          this.leaderId := leaderId;
          if leaderId == nodeId {
            BecomeLeader();
          } else {
            BecomeProxy(leaderId);
          }
        } else {
          initState := initState.(willRetry := true);
        }
      case LeaderChange(leaderId) =>
        this.leaderId := leaderId;
        if role == C.Leader {
          if leaderId != nodeId {
            BecomeProxy(leaderId);
          }
        } else if role == C.Proxy {
          if leaderId == nodeId {
            BecomeLeader();
          }
        }
      case Connect(bodies) =>
        authQueue.AppendEach(bodies);
      case Recv(bodies) =>
        recvMsgQueue.AppendEach(bodies);
      case RecvResp(success, index) =>
        assert Answers(role, a, RecvMsg);
        recvMsgState := Answered(recvMsgQueue, recvMsgState, success, index);
      case _ =>
        if role == C.Leader {
          ok := StepLeader(a);
        } else if role == C.Proxy {
          ok := StepProxy(a);
        }
    }

    method StepLeader(a: Act) returns (ok: bool)
      requires Valid() && role == C.Leader && StepSafe(View(), a)
      requires a.Send? || a.AuthResp? || a.PingResp? || a.RecvackResp? || a.ForwardResp?
      modifies this, authQueue, pingQueue, recvackQueue, recvMsgQueue
      ensures View() == AfterStep(old(View()), a) && ok == Accepts(old(View()), a)
    {
      ok := true;
      match a
      case AuthResp(success, index) =>
        assert Answers(role, a, Auth);
        authState := Answered(authQueue, authState, success, index);
      case PingResp(success, index) =>
        assert Answers(role, a, Ping);
        pingState := Answered(pingQueue, pingState, success, index);
      case RecvackResp(success, index) =>
        assert Answers(role, a, Recvack);
        recvackState := Answered(recvackQueue, recvackState, success, index);
      case Send(bodies) =>
        ok := SendEach(bodies);
      case _ =>
    }

    method StepProxy(a: Act) returns (ok: bool)
      requires Valid() && role == C.Proxy && StepSafe(View(), a)
      requires a.Send? || a.AuthResp? || a.PingResp? || a.RecvackResp? || a.ForwardResp?
      modifies this, authQueue, pingQueue, recvackQueue, recvMsgQueue
      ensures View() == AfterStep(old(View()), a) && ok == Accepts(old(View()), a)
    {
      ok := true;
      match a
      case Send(bodies) =>
        ok := SendEach(bodies);
      case ForwardResp(kind, success, index) =>
        if kind == ForwardedSend {
          assert Answers(role, a, Recvack);
          recvackState := Answered(recvackQueue, recvackState, success, index);
        } else if kind == ForwardedConnect {
          assert Answers(role, a, Auth);
          authState := Answered(authQueue, authState, success, index);
        }
      case _ =>
    }

    /** The loop over the frames of a Send action, which an unknown frame ends with an error. */
    method SendEach(bodies: seq<Body>) returns (ok: bool)
      requires Valid()
      modifies pingQueue, recvackQueue, recvMsgQueue
      ensures View() == Dispatch(old(View()), bodies) && ok == Known(bodies)
    {
      var i := 0;
      while i < |bodies|
        invariant i <= |bodies| && Dispatch(View(), bodies[i..]) == Dispatch(old(View()), bodies) && Known(bodies[..i])
        decreases |bodies| - i
      {
        assert bodies[i..][0] == bodies[i] && bodies[i..][1..] == bodies[i + 1..];
        match bodies[i].frame {
        case PingFrame =>
          if role == C.Leader {
            pingQueue.AppendMessage(bodies[i]);
          } else {
            recvMsgQueue.AppendMessage(Pong(bodies[i]));
          }
        case RecvackFrame =>
          recvackQueue.AppendMessage(bodies[i]);
        case _ =>
          assert bodies[i] in bodies;
          return false;
        }
        i := i + 1;
      }
      return true;
    }

    method Tick()
      modifies this
      ensures View() == AfterTick(old(View()))
    {
      initState := C.TickOne(initState);
      authState := C.TickOne(authState);
      pingState := C.TickOne(pingState);
      recvackState := C.TickOne(recvackState);
      recvMsgState := C.TickOne(recvMsgState);
    }

    /** The block at every lane of ready(): take the lane and issue all its messages. */
    static method Issue(l: Lane, q: IndexQueue<Body>, state: C.ReadyState, ghost u: User)
        returns (state': C.ReadyState, out: seq<Request>)
      requires u.Ok() && u.initialized && (l == Ping ==> u.role == C.Leader)
      requires q.View() == u.Queue(l) && state == u.State(l)
      ensures state' == Taken(u, l) && out == Request1(u, l)
    {
      assert u.Queue(l).Ok();
      state', out := state, [];
      if !state.processing && q.processingIndex < q.lastIndex {
        state' := state'.(processing := true);
        var msgs := q.Slice(q.processingIndex + 1, q.lastIndex + 1);
        assert msgs == q.messages;
        out := [LaneRequest(l, msgs)];
      }
    }

    method Ready() returns (requests: seq<Request>)
      requires Valid() && View().Ok()
      modifies this`initState, this`authState, this`pingState, this`recvackState, this`recvMsgState
      ensures View() == AfterReady(old(View()))
      ensures requests == Requests(old(View()))
    {
      requests := [];
      if !initialized {
        if !initState.processing {
          initState := initState.(processing := true);
          requests := [InitRequest];
        }
        return;
      }
      ghost var u := View();
      var out;
      if role == C.Leader {
        authState, out := Issue(Auth, authQueue, authState, u);
        requests := requests + out;
        pingState, out := Issue(Ping, pingQueue, pingState, u);
        requests := requests + out;
        recvackState, out := Issue(Recvack, recvackQueue, recvackState, u);
        requests := requests + out;
      } else {
        recvackState, out := Issue(Recvack, recvackQueue, recvackState, u);
        requests := requests + out;
        authState, out := Issue(Auth, authQueue, authState, u);
        requests := requests + out;
      }
      recvMsgState, out := Issue(RecvMsg, recvMsgQueue, recvMsgState, u);
      requests := requests + out;
    }
  }
}