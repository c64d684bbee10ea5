/**
 The user handler (internal/server/user.go, user_step.go): four queues that stay in order under any answers, stale,
 repeated or reordered, in any role.
 */
module UserSpec {
  import opened ChannelSpec
  import opened Q = IndexQueues

  datatype Lane = Auth | Ping | Recvack | RecvMsg

  datatype FrameType = PingFrame | RecvackFrame | PongFrame | OtherFrame

  datatype Body = Body(frame: FrameType, connId: int, payload: seq<int>)

  type UserQueue = Q.Queue<Body>

  datatype User = User(
    uniqueNo: nat,
    nodeId: nat,
    initialized: bool,
    role: Role,
    leaderId: nat,
    init: ReadyState,
    auth: UserQueue,
    ping: UserQueue,
    recvack: UserQueue,
    recvMsg: UserQueue,
    authState: ReadyState,
    pingState: ReadyState,
    recvackState: ReadyState,
    recvMsgState: ReadyState)
  {
    function Queue(l: Lane): UserQueue {
      match l
      case Auth => auth
      case Ping => ping
      case Recvack => recvack
      case RecvMsg => recvMsg
    }

    function State(l: Lane): ReadyState {
      match l
      case Auth => authState
      case Ping => pingState
      case Recvack => recvackState
      case RecvMsg => recvMsgState
    }

    function WithQueue(l: Lane, q: UserQueue): (u: User)
      ensures forall k: Lane :: u.Queue(k) == (if k == l then q else Queue(k)) && u.State(k) == State(k)
    {
      match l
      case Auth => this.(auth := q)
      case Ping => this.(ping := q)
      case Recvack => this.(recvack := q)
      case RecvMsg => this.(recvMsg := q)
    }

    function WithState(l: Lane, r: ReadyState): (u: User)
      ensures forall k: Lane :: u.State(k) == (if k == l then r else State(k)) && u.Queue(k) == Queue(k)
    {
      match l
      case Auth => this.(authState := r)
      case Ping => this.(pingState := r)
      case Recvack => this.(recvackState := r)
      case RecvMsg => this.(recvMsgState := r)
    }

    ghost predicate Ok() { forall l: Lane :: Queue(l).Ok() }
  }

  function NewUser(uniqueNo: nat, nodeId: nat): User {
    var q := Q.Queue([], 1, 0, 0);
    User(uniqueNo, nodeId, false, Unknown, 0, IDLE, q, q, q, q, IDLE, IDLE, IDLE, IDLE)
  }

  datatype Forwarded = ForwardedSend | ForwardedConnect | ForwardedOther

  datatype Act =
    | InitResp(ok: bool, leaderId: nat)
    | LeaderChange(leaderId: nat)
    | Connect(bodies: seq<Body>)
    | Send(bodies: seq<Body>)
    | Recv(bodies: seq<Body>)
    | AuthResp(ok: bool, index: nat)
    | PingResp(ok: bool, index: nat)
    | RecvackResp(ok: bool, index: nat)
    | RecvResp(ok: bool, index: nat)
    | ForwardResp(kind: Forwarded, ok: bool, index: nat)

  /** The lane that an answer settles in the given role; answers of the other role are ignored. */
  predicate Answers(role: Role, a: Act, l: Lane) {
    match l
    case Auth => (role == Leader && a.AuthResp?) || (role == Proxy && a.ForwardResp? && a.kind == ForwardedConnect)
    case Ping => role == Leader && a.PingResp?
    case Recvack => (role == Leader && a.RecvackResp?) || (role == Proxy && a.ForwardResp? && a.kind == ForwardedSend)
    case RecvMsg => a.RecvResp?
  }

  function Success(a: Act): bool {
    match a
    case AuthResp(ok, _) => ok
    case PingResp(ok, _) => ok
    case RecvackResp(ok, _) => ok
    case RecvResp(ok, _) => ok
    case ForwardResp(_, ok, _) => ok
    case InitResp(ok, _) => ok
    case _ => false
  }

  function IndexOf(a: Act): nat {
    match a
    case AuthResp(_, i) => i
    case PingResp(_, i) => i
    case RecvackResp(_, i) => i
    case RecvResp(_, i) => i
    case ForwardResp(_, _, i) => i
    case _ => 0
  }

  /** No truncation of the step is out of range. */
  predicate StepSafe(u: User, a: Act) {
    forall l: Lane :: Answers(u.role, a, l) && Success(a) && u.Queue(l).processing < IndexOf(a) ==>
      u.Queue(l).TruncateSafe(IndexOf(a))
  }

  function Settle(u: User, l: Lane, ok: bool, index: nat): User
    requires ok && u.Queue(l).processing < index ==> u.Queue(l).TruncateSafe(index)
  {
    if ok then u.WithState(l, u.State(l).(processing := false)).WithQueue(l, u.Queue(l).Done(index))
    else u.WithState(l, u.State(l).(willRetry := true))
  }

  function Become(u: User, role: Role, leaderId: nat): User {
    u.(auth := u.auth.Reset(), ping := u.ping.Reset(), recvack := u.recvack.Reset(), recvMsg := u.recvMsg.Reset(),
       authState := IDLE, pingState := IDLE, recvackState := IDLE, recvMsgState := IDLE, init := IDLE,
       role := role, leaderId := leaderId)
  }

  /** A proxy answers a ping itself. */
  function Pong(b: Body): Body { Body(PongFrame, b.connId, []) }

  datatype Routed = Refused | To(lane: Lane, body: Body)

  /** The queue that a frame from the client goes to. */
  function Route(role: Role, b: Body): Routed {
    match b.frame
    case RecvackFrame => To(Recvack, b)
    case PingFrame => if role == Leader then To(Ping, b) else To(RecvMsg, Pong(b))
    case _ => Refused
  }

  /** The frames that a handler takes from a client. */
  predicate Known(bodies: seq<Body>) {
    forall b <- bodies :: b.frame.PingFrame? || b.frame.RecvackFrame?
  }

  /** A step of this generation ends without an error. */
  predicate Accepts(u: User, a: Act) {
    a.Send? && u.role != Unknown ==> Known(a.bodies)
  }

  function Put(u: User, l: Lane, b: Body): User { u.WithQueue(l, u.Queue(l).Append(b)) }

  /** The frames of one action; an unknown one stops the step, what came before it stays. */
  function Dispatch(u: User, bodies: seq<Body>): User
    decreases |bodies|
  {
    if bodies == [] || Route(u.role, bodies[0]).Refused? then u
    else var to := Route(u.role, bodies[0]); Dispatch(Put(u, to.lane, to.body), bodies[1..])
  }

  function AfterStep(u: User, a: Act): User
    requires StepSafe(u, a)
  {
    match a
    case InitResp(ok, leaderId) =>
      if !ok then u.(init := u.init.(willRetry := true))
      else if leaderId == u.nodeId then Become(u.(initialized := true), Leader, 0)
      else Become(u.(initialized := true), Proxy, leaderId)
    case LeaderChange(leaderId) =>
      if u.role == Leader && leaderId != u.nodeId then Become(u, Proxy, leaderId)
      else if u.role == Proxy && leaderId == u.nodeId then Become(u, Leader, 0)
      else u.(leaderId := leaderId)
    case Connect(bodies) => u.WithQueue(Auth, u.auth.AppendAll(bodies))
    case Recv(bodies) => u.WithQueue(RecvMsg, u.recvMsg.AppendAll(bodies))
    case Send(bodies) => if u.role == Unknown then u else Dispatch(u, bodies)
    case RecvResp(ok, i) => Settle(u, RecvMsg, ok, i)
    case AuthResp(ok, i) => if u.role == Leader then Settle(u, Auth, ok, i) else u
    case PingResp(ok, i) => if u.role == Leader then Settle(u, Ping, ok, i) else u
    case RecvackResp(ok, i) => if u.role == Leader then Settle(u, Recvack, ok, i) else u
    case ForwardResp(kind, ok, i) =>
      if u.role != Proxy then u
      else match kind
           case ForwardedSend => Settle(u, Recvack, ok, i)
           case ForwardedConnect => Settle(u, Auth, ok, i)
           case ForwardedOther => u
  }

  function AfterTick(u: User): User {
    u.(init := TickState(u.init), authState := TickState(u.authState), pingState := TickState(u.pingState),
       recvackState := TickState(u.recvackState), recvMsgState := TickState(u.recvMsgState))
  }

  /** The guard of a lane in ready(): a proxy does not send pings on. */
  predicate Wants(u: User, l: Lane) {
    u.initialized && !u.State(l).processing && u.Queue(l).processing < u.Queue(l).last && (l == Ping ==> u.role == Leader)
  }

  function Taken(u: User, l: Lane): ReadyState {
    if Wants(u, l) then u.State(l).(processing := true) else u.State(l)
  }

  function AfterReady(u: User): User {
    if !u.initialized then u.(init := u.init.(processing := true))
    else u.(authState := Taken(u, Auth), pingState := Taken(u, Ping), recvackState := Taken(u, Recvack),
            recvMsgState := Taken(u, RecvMsg))
  }

  /** The batch a lane issues. */
  function Batch(u: User, l: Lane): seq<Q.Item<Body>>
    requires u.Queue(l).offset <= u.Queue(l).processing + 1 && u.Queue(l).last - u.Queue(l).offset < |u.Queue(l).messages|
    requires u.Queue(l).processing <= u.Queue(l).last
  {
    u.Queue(l).Pending()
  }

  // ---------------------------------------------------------------- theorems

  /** The adversary: any answer at all, as long as it does not name an index that was never given out. */
  predicate Plausible(u: User, a: Act) {
    forall l: Lane :: Answers(u.role, a, l) && Success(a) ==> IndexOf(a) <= u.Queue(l).last
  }

  /** For a handler in order, being plausible is exactly what keeps the truncation in range. */
  lemma SafeIffPlausible(u: User, a: Act)
    requires u.Ok()
    ensures StepSafe(u, a) <==> Plausible(u, a)
  {
    forall l: Lane | u.Queue(l).processing < IndexOf(a)
      ensures u.Queue(l).TruncateSafe(IndexOf(a)) <==> IndexOf(a) <= u.Queue(l).last
    {
      DoneIsSafeIff(u.Queue(l), IndexOf(a));
    }
    assert forall l: Lane :: u.Queue(l).processing <= u.Queue(l).last by {
      forall l: Lane ensures u.Queue(l).processing <= u.Queue(l).last { assert u.Queue(l).Ok(); }
    }
  }

  /** How one step may change one lane: messages that an answer covered leave, new ones are appended. */
  ghost predicate LaneMoves(q: UserQueue, q': UserQueue, covered: bool, index: nat) {
    && q.Ok() && q'.Ok() && q.last <= q'.last && q.offset <= q'.offset <= q.last + 1
    && q.messages[q'.offset - q.offset..] <= q'.messages
    && (q'.offset > q.offset ==> covered && q'.offset == index + 1)
  }

  lemma PutKeeps(u: User, l: Lane, b: Body, k: Lane)
    requires u.Ok()
    ensures Put(u, l, b).Ok() && Put(u, l, b).role == u.role
    ensures Put(u, l, b).Queue(k) == if k == l then u.Queue(k).Append(b) else u.Queue(k)
  {
    forall j: Lane ensures Put(u, l, b).Queue(j).Ok() { assert u.Queue(j).Ok(); }
  }

  lemma {:induction false} DispatchMoves(u: User, bodies: seq<Body>, l: Lane)
    requires u.Ok()
    ensures Dispatch(u, bodies).Ok() && LaneMoves(u.Queue(l), Dispatch(u, bodies).Queue(l), false, 0)
    decreases |bodies|
  {
    assert u.Queue(l).Ok();
    if bodies != [] && Route(u.role, bodies[0]).To? {
      var to := Route(u.role, bodies[0]);
      PutKeeps(u, to.lane, to.body, l);
      DispatchMoves(Put(u, to.lane, to.body), bodies[1..], l);
      MovesOn(u.Queue(l), Put(u, to.lane, to.body).Queue(l), Dispatch(u, bodies).Queue(l));
    }
  }

  lemma MovesOn(q: UserQueue, q1: UserQueue, q2: UserQueue)
    requires q.Ok() && (q1 == q || exists b: Body :: q1 == q.Append(b)) && LaneMoves(q1, q2, false, 0)
    ensures LaneMoves(q, q2, false, 0)
  {
  }

  lemma SettleMoves(u: User, l: Lane, ok: bool, index: nat, k: Lane)
    requires u.Ok() && (ok ==> index <= u.Queue(l).last)
    ensures ok && u.Queue(l).processing < index ==> u.Queue(l).TruncateSafe(index)
    ensures Settle(u, l, ok, index).Ok()
    ensures LaneMoves(u.Queue(k), Settle(u, l, ok, index).Queue(k), k == l && ok, index)
  {
    assert u.Queue(l).Ok() && u.Queue(k).Ok();
    if ok { DoneKeeps(u.Queue(l), index); }
    forall j: Lane ensures Settle(u, l, ok, index).Queue(j).Ok() { assert u.Queue(j).Ok(); }
  }

  lemma BecomeKeeps(u: User, role: Role, leaderId: nat)
    requires u.Ok()
    ensures Become(u, role, leaderId).Ok()
    ensures forall l: Lane :: Become(u, role, leaderId).Queue(l) == u.Queue(l)
  {
    forall l: Lane ensures Become(u, role, leaderId).Queue(l) == u.Queue(l) { assert u.Queue(l).Ok(); }
    forall l: Lane ensures Become(u, role, leaderId).Queue(l).Ok() { assert u.Queue(l).Ok(); }
  }

  /**
   One step of a handler in order, whatever its role and whatever the answer, cuts no queue out of range, keeps all
   four in order, and takes out of a lane only what a success for that lane covers.
   */
  lemma StepMoves(u: User, a: Act, l: Lane)
    requires u.Ok() && Plausible(u, a)
    ensures StepSafe(u, a) && AfterStep(u, a).Ok()
    ensures LaneMoves(u.Queue(l), AfterStep(u, a).Queue(l), Answers(u.role, a, l) && Success(a), IndexOf(a))
  {
    SafeIffPlausible(u, a);
    match a
    case InitResp(_, _) => RoleMoves(u, a, l);
    case LeaderChange(_) => RoleMoves(u, a, l);
    case Connect(bodies) => AppendMoves(u, Auth, bodies, l);
    case Recv(bodies) => AppendMoves(u, RecvMsg, bodies, l);
    case Send(bodies) => DispatchMoves(u, bodies, l);
    case _ => AnswerMoves(u, a, l);
  }

  /** Changing roles moves no message. */
  lemma RoleMoves(u: User, a: Act, l: Lane)
    requires u.Ok() && StepSafe(u, a) && (a.InitResp? || a.LeaderChange?)
    ensures AfterStep(u, a).Ok() && LaneMoves(u.Queue(l), AfterStep(u, a).Queue(l), false, 0)
  {
    assert u.Queue(l).Ok();
    var v := if a.InitResp? then u.(initialized := true) else u;
    StaysOk(u, v);
    BecomeKeeps(v, Leader, 0);
    BecomeKeeps(v, Proxy, a.leaderId);
    StaysOk(u, AfterStep(u, a));
  }

  lemma AnswerMoves(u: User, a: Act, l: Lane)
    requires u.Ok() && Plausible(u, a) && StepSafe(u, a)
    requires a.RecvResp? || a.AuthResp? || a.PingResp? || a.RecvackResp? || a.ForwardResp?
    ensures AfterStep(u, a).Ok()
    ensures LaneMoves(u.Queue(l), AfterStep(u, a).Queue(l), Answers(u.role, a, l) && Success(a), IndexOf(a))
  {
    if k: Lane :| Answers(u.role, a, k) {
      SettleMoves(u, k, Success(a), IndexOf(a), l);
      SettlesItsLane(u, a, k);
    } else {
      assert u.Queue(l).Ok();
      assert !Answers(u.role, a, RecvMsg) && !Answers(u.role, a, Auth) && !Answers(u.role, a, Ping) && !Answers(u.role, a, Recvack);
    }
  }

  /** An answer settles the one lane it is for. */
  lemma SettlesItsLane(u: User, a: Act, k: Lane)
    requires StepSafe(u, a) && Answers(u.role, a, k)
    ensures Success(a) && u.Queue(k).processing < IndexOf(a) ==> u.Queue(k).TruncateSafe(IndexOf(a))
    ensures AfterStep(u, a) == Settle(u, k, Success(a), IndexOf(a))
    ensures forall l: Lane :: Answers(u.role, a, l) ==> l == k
  {
  }

  lemma StaysOk(u: User, u': User)
    requires u.Ok() && forall l: Lane :: u'.Queue(l) == u.Queue(l)
    ensures u'.Ok()
  {
    forall l: Lane ensures u'.Queue(l).Ok() { assert u.Queue(l).Ok(); }
  }

  lemma AppendMoves(u: User, k: Lane, bodies: seq<Body>, l: Lane)
    requires u.Ok()
    ensures var u' := u.WithQueue(k, u.Queue(k).AppendAll(bodies));
      u'.Ok() && LaneMoves(u.Queue(l), u'.Queue(l), false, 0)
  {
    assert u.Queue(k).Ok() && u.Queue(l).Ok();
    AppendAllKeeps(u.Queue(k), bodies);
    forall j: Lane ensures u.WithQueue(k, u.Queue(k).AppendAll(bodies)).Queue(j).Ok() { assert u.Queue(j).Ok(); }
  }

  // ---------------------------------------------------------------- runs

  datatype Event = Act(a: Act) | Ready | Tick

  ghost predicate Next(u: User, e: Event, u': User) {
    match e
    case Act(a) => Plausible(u, a) && StepSafe(u, a) && u' == AfterStep(u, a)
    case Ready => u' == AfterReady(u)
    case Tick => u' == AfterTick(u)
  }

  ghost predicate IsRun(us: seq<User>, es: seq<Event>) {
    && |us| == |es| + 1
    && us[0] == NewUser(us[0].uniqueNo, us[0].nodeId)
    && forall i :: 0 <= i < |es| ==> Next(us[i], es[i], us[i + 1])
  }

  /** In every run against the adversary all four queues stay in order, and no step can go out of range. */
  lemma {:induction false} AlwaysInOrder(us: seq<User>, es: seq<Event>, i: nat)
    requires IsRun(us, es) && i < |us|
    ensures us[i].Ok()
    ensures forall a: Act :: Plausible(us[i], a) ==> StepSafe(us[i], a)
  {
    if i == 0 {
      forall l: Lane ensures us[0].Queue(l).Ok() { }
    } else {
      AlwaysInOrder(us, es, i - 1);
      assert Next(us[i - 1], es[i - 1], us[i - 1 + 1]);
      if es[i - 1].Act? { StepMoves(us[i - 1], es[i - 1].a, Auth); } else { StaysOk(us[i - 1], us[i]); }
    }
    forall a: Act | Plausible(us[i], a) ensures StepSafe(us[i], a) { SafeIffPlausible(us[i], a); }
  }

  /** A message that was queued at time i and is not at time j was covered by a success for its lane in between. */
  lemma {:induction false} NothingLeavesUndone(us: seq<User>, es: seq<Event>, i: nat, j: nat, l: Lane, m: Q.Item<Body>)
    requires IsRun(us, es) && i <= j < |us| && m in us[i].Queue(l).messages && m !in us[j].Queue(l).messages
    ensures exists k :: i <= k < j && es[k].Act? && Answers(us[k].role, es[k].a, l) && Success(es[k].a) && m.index <= IndexOf(es[k].a)
    decreases j
  {
    if j > i {
      if m in us[j - 1].Queue(l).messages {
        AlwaysInOrder(us, es, j - 1);
        assert Next(us[j - 1], es[j - 1], us[j - 1 + 1]);
        if es[j - 1].Act? { LeavesOnlyCovered(us[j - 1], es[j - 1].a, l, m); }
      } else {
        NothingLeavesUndone(us, es, i, j - 1, l, m);
      }
    }
  }

  lemma StaysUnlessCovered(q: UserQueue, q': UserQueue, covered: bool, index: nat, m: Q.Item<Body>)
    requires LaneMoves(q, q', covered, index) && m in q.messages
    ensures m !in q'.messages ==> covered && m.index <= index
  {
    var i :| 0 <= i < |q.messages| && q.messages[i] == m;
    var d := q'.offset - q.offset;
    if i >= d {
      assert q.messages[d..][i - d] == m;
      assert q'.messages[i - d] == m;
    }
  }

  lemma LeavesOnlyCovered(u: User, a: Act, l: Lane, m: Q.Item<Body>)
    requires u.Ok() && Plausible(u, a) && m in u.Queue(l).messages
    ensures StepSafe(u, a)
    ensures m !in AfterStep(u, a).Queue(l).messages ==> Answers(u.role, a, l) && Success(a) && m.index <= IndexOf(a)
  {
    StepMoves(u, a, l);
    StaysUnlessCovered(u.Queue(l), AfterStep(u, a).Queue(l), Answers(u.role, a, l) && Success(a), IndexOf(a), m);
  }

  /** Whatever a lane issues is the whole of its queue, so never an empty batch, and in order. */
  lemma BatchIsTheQueue(u: User, l: Lane)
    requires u.Ok() && Wants(u, l)
    ensures u.Queue(l).offset <= u.Queue(l).processing + 1 && u.Queue(l).last - u.Queue(l).offset < |u.Queue(l).messages|
    ensures Batch(u, l) == u.Queue(l).messages && Batch(u, l) != []
    ensures AfterReady(u).State(l).processing
  {
    assert u.Queue(l).Ok();
  }

  /**
   What the adversary can still do. A request for the messages up to `out` is outstanding when a success arrives: the
   lane will issue some of them again, while they are still being worked on, exactly if that success does not cover them all.
   Handlers of these requests must bear repetition.
   */
  lemma IssuedAgainIff(u: User, a: Act, l: Lane, out: nat)
    requires u.Ok() && u.initialized && u.State(l).processing && u.Queue(l).processing < out <= u.Queue(l).last
    requires Answers(u.role, a, l) && Success(a) && Plausible(u, a)
    ensures StepSafe(u, a)
    ensures var u' := AfterStep(u, a);
      Wants(u', l) && (exists m <- u'.Queue(l).messages :: m.index <= out) <==> IndexOf(a) < out
  {
    SafeIffPlausible(u, a);
    SettlesItsLane(u, a, l);
    assert u.Queue(l).Ok();
    SomeLeftIff(u.Queue(l), IndexOf(a), out);
  }

  lemma SomeLeftIff(q: UserQueue, index: nat, out: nat)
    requires q.Ok() && q.processing < out <= q.last && index <= q.last
    ensures q.processing < index ==> q.TruncateSafe(index)
    ensures q.Done(index).processing < q.Done(index).last && (exists m <- q.Done(index).messages :: m.index <= out) <==> index < out
  {
    DoneKeeps(q, index);
    var d := q.Done(index);
    if index < out { assert d.messages[0].index == d.offset <= out && d.messages[0] in d.messages; }
  }
}
