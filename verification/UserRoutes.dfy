/** Which lane of a user handler a frame enters, is issued from, and is settled by (internal/server/user.go, user_step.go). */
module UserRoutes {
  import C = ChannelSpec
  import opened Q = IndexQueues
  import opened UserSpec
  import opened UserHandlers

  /** The queue takes in `bs`, in order, behind what it holds. */
  predicate Gains(q: UserQueue, q': UserQueue, bs: seq<Body>) {
    && q'.offset == q.offset && q'.processing == q.processing && q'.last == q.last + |bs|
    && q.messages <= q'.messages && |q'.messages| == |q.messages| + |bs|
    && forall i :: 0 <= i < |bs| ==> q'.messages[|q.messages| + i] == Q.Item(q.last + 1 + i, bs[i])
  }

  /** The frames of one type, in order. */
  function Frames(bodies: seq<Body>, f: FrameType): seq<Body> {
    if bodies == [] then [] else (if bodies[0].frame == f then [bodies[0]] else []) + Frames(bodies[1..], f)
  }

  /** A pong to each of the connections. */
  function Pongs(bodies: seq<Body>): seq<Body> {
    seq(|bodies|, i requires 0 <= i < |bodies| => Body(PongFrame, bodies[i].connId, []))
  }

  /** What a Send action does to a handler that takes `taken` of its frames. */
  predicate Routed(u: User, u': User, taken: seq<Body>) {
    && u' == u.(ping := u'.ping, recvack := u'.recvack, recvMsg := u'.recvMsg)
    && Gains(u.recvack, u'.recvack, Frames(taken, RecvackFrame))
    && (u.role == C.Leader ==> Gains(u.ping, u'.ping, Frames(taken, PingFrame)) && u'.recvMsg == u.recvMsg)
    && (u.role == C.Proxy ==> Gains(u.recvMsg, u'.recvMsg, Pongs(Frames(taken, PingFrame))) && u'.ping == u.ping)
  }

  lemma GainsOne(q: UserQueue, b: Body)
    ensures Gains(q, q.Append(b), [b]) && Gains(q, q, [])
  {
  }

  lemma GainsOn(q: UserQueue, q1: UserQueue, q2: UserQueue, a: seq<Body>, b: seq<Body>)
    requires Gains(q, q1, a) && Gains(q1, q2, b)
    ensures Gains(q, q2, a + b)
  {
    forall i | 0 <= i < |a + b| ensures q2.messages[|q.messages| + i] == Q.Item(q.last + 1 + i, (a + b)[i]) {
      if i < |a| { assert q2.messages[|q.messages| + i] == q1.messages[|q.messages| + i]; }
      else { assert q2.messages[|q1.messages| + (i - |a|)] == Q.Item(q1.last + 1 + (i - |a|), b[i - |a|]); }
    }
  }

  /**
   A Send action, in either role: the recvacks go to the recvack lane; the pings go to the ping lane of a leader, while a
   proxy answers each with a pong to the same connection; nothing else changes. The first frame that is neither ends it.
   */
  lemma {:induction false} SendRoutes(u: User, bodies: seq<Body>, n: nat)
    requires u.role == C.Leader || u.role == C.Proxy
    requires n <= |bodies| && forall i :: 0 <= i < n ==> bodies[i].frame == PingFrame || bodies[i].frame == RecvackFrame
    requires n < |bodies| ==> bodies[n].frame != PingFrame && bodies[n].frame != RecvackFrame
    ensures Routed(u, AfterStep(u, Send(bodies)), bodies[..n])
    decreases n
  {
    if n == 0 {
      assert Frames([], PingFrame) == [] && Frames([], RecvackFrame) == [];
    } else {
      var u1 := RouteOne(u, bodies[0]);
      var u2 := AfterStep(u1, Send(bodies[1..]));
      assert AfterStep(u, Send(bodies)) == u2;
      SendRoutes(u1, bodies[1..], n - 1);
      assert bodies[..n][1..] == bodies[1..][..n - 1] && bodies[..n] == [bodies[0]] + bodies[1..][..n - 1];
      RoutedOn(u, u1, u2, bodies[0], bodies[1..][..n - 1]);
    }
  }

  lemma RouteOne(u: User, b: Body) returns (u1: User)
    requires (u.role == C.Leader || u.role == C.Proxy) && (b.frame == PingFrame || b.frame == RecvackFrame)
    ensures Routed(u, u1, [b]) && Route(u.role, b).To? && u1 == Put(u, Route(u.role, b).lane, Route(u.role, b).body)
  {
    u1 := Put(u, Route(u.role, b).lane, Route(u.role, b).body);
    OneFrame(b);
  }

  lemma OneFrame(b: Body)
    ensures forall f :: Frames([b], f) == if b.frame == f then [b] else []
    ensures Pongs([b]) == [Body(PongFrame, b.connId, [])] && Pongs([]) == []
  {
    forall f ensures Frames([b], f) == if b.frame == f then [b] else [] { assert [b][1..] == [] && Frames([], f) == []; }
  }

  lemma RoutedOn(u: User, u1: User, u2: User, b: Body, rest: seq<Body>)
    requires Routed(u, u1, [b]) && Routed(u1, u2, rest)
    ensures Routed(u, u2, [b] + rest)
  {
    var all := [b] + rest;
    OneFrame(b);
    assert all[1..] == rest;
    forall f ensures Frames(all, f) == Frames([b], f) + Frames(rest, f) { }
    assert Pongs(Frames(all, PingFrame)) == Pongs(Frames([b], PingFrame)) + Pongs(Frames(rest, PingFrame));
    GainsOn(u.recvack, u1.recvack, u2.recvack, Frames([b], RecvackFrame), Frames(rest, RecvackFrame));
    if u.role == C.Leader {
      GainsOn(u.ping, u1.ping, u2.ping, Frames([b], PingFrame), Frames(rest, PingFrame));
    } else if u.role == C.Proxy {
      GainsOn(u.recvMsg, u1.recvMsg, u2.recvMsg, Pongs(Frames([b], PingFrame)), Pongs(Frames(rest, PingFrame)));
    }
  }

  /** A connection's messages go to the auth lane, what is to be received to the recvMsg lane, in any role. */
  lemma ConnectAndRecvRoute(u: User, bodies: seq<Body>)
    ensures var c := AfterStep(u, Connect(bodies)); c == u.(auth := c.auth) && Gains(u.auth, c.auth, bodies)
    ensures var r := AfterStep(u, Recv(bodies)); r == u.(recvMsg := r.recvMsg) && Gains(u.recvMsg, r.recvMsg, bodies)
  {
    AppendAllGains(u.auth, bodies);
    AppendAllGains(u.recvMsg, bodies);
  }

  lemma {:induction false} AppendAllGains(q: UserQueue, bodies: seq<Body>)
    ensures Gains(q, q.AppendAll(bodies), bodies)
    decreases |bodies|
  {
    if bodies != [] {
      AppendAllGains(q.Append(bodies[0]), bodies[1..]);
      GainsOne(q, bodies[0]);
      GainsOn(q, q.Append(bodies[0]), q.AppendAll(bodies), [bodies[0]], bodies[1..]);
      assert [bodies[0]] + bodies[1..] == bodies;
    }
  }

  // ---------------------------------------------------------------- out and back

  /** A lane is issued in the next pass exactly if it is free and has messages, whole; but a proxy's ping lane never is. */
  lemma IssuedIff(u: User, l: Lane, ms: seq<Q.Item<Body>>)
    requires u.Ok() && u.initialized && (u.role == C.Leader || u.role == C.Proxy)
    ensures LaneRequest(l, ms) in Requests(u) <==>
      ms == u.Queue(l).messages && ms != [] && !u.State(l).processing && (u.role == C.Leader || l != Ping)
    ensures AfterReady(u).State(l).processing <==> u.State(l).processing || LaneRequest(l, u.Queue(l).messages) in Requests(u)
  {
    InRequests(u, LaneRequest(l, ms));
    assert u.Queue(l).Ok();
    InRequests(u, LaneRequest(l, u.Queue(l).messages));
  }

  lemma InRequests(u: User, r: Request)
    requires u.initialized && (u.role == C.Leader || u.role == C.Proxy) && r.LaneRequest?
    ensures r in Requests(u) <==> Wants(u, r.lane) && r.messages == u.Queue(r.lane).messages
  {
    InRequest1(u, Auth, r);
    InRequest1(u, Ping, r);
    InRequest1(u, Recvack, r);
    InRequest1(u, RecvMsg, r);
  }

  lemma InRequest1(u: User, l: Lane, r: Request)
    ensures r in Request1(u, l) <==> Wants(u, l) && r == LaneRequest(l, u.Queue(l).messages)
  {
  }

  /** The action with which the worker of a lane answers: a leader's own, or that of the forward worker of a proxy. */
  function AnswerFor(role: C.Role, l: Lane, ok: bool, index: nat): Act {
    match l
    case RecvMsg => RecvResp(ok, index)
    case Auth => if role == C.Proxy then ForwardResp(ForwardedConnect, ok, index) else AuthResp(ok, index)
    case Recvack => if role == C.Proxy then ForwardResp(ForwardedSend, ok, index) else RecvackResp(ok, index)
    case Ping => PingResp(ok, index)
  }

  /** An answer for a request of a lane comes back to that lane and to no other: a success takes out what it covers. */
  lemma AnswerSettlesItsLane(u: User, l: Lane, ok: bool, index: nat)
    requires u.Ok() && (u.role == C.Leader || (u.role == C.Proxy && l != Ping)) && index <= u.Queue(l).last
    ensures StepSafe(u, AnswerFor(u.role, l, ok, index))
    ensures var u' := AfterStep(u, AnswerFor(u.role, l, ok, index));
      && (forall k: Lane :: k != l ==> u'.Queue(k) == u.Queue(k) && u'.State(k) == u.State(k))
      && (if ok then !u'.State(l).processing && (forall m <- u.Queue(l).messages :: m in u'.Queue(l).messages <==> m.index > index)
          else u'.State(l).willRetry && u'.Queue(l) == u.Queue(l))
  {
    var a := AnswerFor(u.role, l, ok, index);
    assert u.Queue(l).Ok();
    SafeIffPlausible(u, a);
    if ok { DoneKeeps(u.Queue(l), index); }
  }

  /** What a free lane issues, once answered with success, is gone from it, the lane is free again, and no other has changed. */
  lemma RoundTrip(u: User, l: Lane)
    requires u.Ok() && u.initialized && !u.State(l).processing && u.Queue(l).messages != []
    requires u.role == C.Leader || (u.role == C.Proxy && l != Ping)
    ensures StepSafe(AfterReady(u), AnswerFor(u.role, l, true, u.Queue(l).last))
    ensures var v := AfterReady(u); var w := AfterStep(v, AnswerFor(u.role, l, true, u.Queue(l).last));
      && w.Queue(l).messages == [] && !w.State(l).processing
      && forall k: Lane :: k != l ==> w.Queue(k) == u.Queue(k) && w.State(k) == v.State(k)
  {
    var v := AfterReady(u);
    forall k: Lane ensures v.Queue(k) == u.Queue(k) { }
    assert v.Ok() by { forall k: Lane ensures v.Queue(k).Ok() { assert u.Queue(k).Ok(); } }
    AnswerSettlesItsLane(v, l, true, u.Queue(l).last);
    var q := AfterStep(v, AnswerFor(u.role, l, true, u.Queue(l).last)).Queue(l);
    assert u.Queue(l).Ok();
    DoneKeeps(u.Queue(l), u.Queue(l).last);
    assert q == u.Queue(l).Done(u.Queue(l).last);
  }

  function AfterTicks(u: User, n: nat): User {
    if n == 0 then u else AfterTick(AfterTicks(u, n - 1))
  }

  lemma {:induction false} TicksCount(u: User, l: Lane, n: nat)
    requires u.State(l).willRetry && u.State(l).retryTick < C.RETRY_TICKS
    ensures AfterTicks(u, n).Queue(l) == u.Queue(l) && AfterTicks(u, n).role == u.role && AfterTicks(u, n).initialized == u.initialized
    ensures AfterTicks(u, n).State(l) ==
            if u.State(l).retryTick + n >= C.RETRY_TICKS then C.IDLE else u.State(l).(retryTick := u.State(l).retryTick + n)
  {
    if n > 0 { TicksCount(u, l, n - 1); }
  }

  /** A lane whose request has failed is issued again, from the same first message, 20 ticks later and not before. */
  lemma FailedLaneIsIssuedAgain(u: User, l: Lane, index: nat, n: nat)
    requires u.Ok() && u.initialized && (u.role == C.Leader || (u.role == C.Proxy && l != Ping)) && index <= u.Queue(l).last
    requires u.State(l) == C.ReadyState(true, false, 0) && u.Queue(l).messages != []
    ensures StepSafe(u, AnswerFor(u.role, l, false, index))
    ensures var v := AfterTicks(AfterStep(u, AnswerFor(u.role, l, false, index)), n);
      LaneRequest(l, u.Queue(l).messages) in Requests(v) <==> n >= 20
  {
    AnswerSettlesItsLane(u, l, false, index);
    var f := AfterStep(u, AnswerFor(u.role, l, false, index));
    TicksCount(f, l, n);
    InRequests(AfterTicks(f, n), LaneRequest(l, u.Queue(l).messages));
    assert u.Queue(l).Ok();
  }

  /** An election decides the role, and moves no message; a proxy knows its leader. */
  lemma ElectionDecides(u: User, a: Act)
    requires u.Ok() && ((a.InitResp? && a.ok) || (a.LeaderChange? && u.role != C.Unknown))
    ensures var u' := AfterStep(u, a);
      && u'.role == (if a.leaderId == u.nodeId then C.Leader else C.Proxy)
      && (u'.role == C.Proxy ==> u'.leaderId == a.leaderId)
      && (a.InitResp? ==> u'.initialized)
      && forall l: Lane :: u'.Queue(l) == u.Queue(l)
  {
    var v := u.(initialized := true);
    assert v.Ok() by { forall l: Lane ensures v.Queue(l).Ok() { assert u.Queue(l).Ok(); } }
    BecomeKeeps(u, C.Leader, 0);
    BecomeKeeps(u, C.Proxy, a.leaderId);
    BecomeKeeps(v, C.Leader, 0);
    BecomeKeeps(v, C.Proxy, a.leaderId);
  }

  /** So the recvacks of a Send action are part of the next request of a free recvack lane, behind what was waiting. */
  lemma {:induction false} RecvacksAreIssued(u: User, bodies: seq<Body>, b: Body)
    requires u.Ok() && u.initialized && (u.role == C.Leader || u.role == C.Proxy) && !u.recvackState.processing
    requires forall i :: 0 <= i < |bodies| ==> bodies[i].frame == PingFrame || bodies[i].frame == RecvackFrame
    requires b in bodies && b.frame == RecvackFrame
    ensures LaneRequest(Recvack, AfterStep(u, Send(bodies)).recvack.messages) in Requests(AfterStep(u, Send(bodies)))
    ensures Gains(u.recvack, AfterStep(u, Send(bodies)).recvack, Frames(bodies, RecvackFrame)) && b in Frames(bodies, RecvackFrame)
  {
    var u' := AfterStep(u, Send(bodies));
    assert bodies[..|bodies|] == bodies;
    SendRoutes(u, bodies, |bodies|);
    FrameIsThere(bodies, b);
    SendKeepsOk(u, bodies);
    IssuedIff(u', Recvack, u'.recvack.messages);
  }

  lemma SendKeepsOk(u: User, bodies: seq<Body>)
    requires u.Ok()
    ensures AfterStep(u, Send(bodies)).Ok()
  {
    StepMoves(u, Send(bodies), Recvack);
  }

  lemma {:induction false} FrameIsThere(bodies: seq<Body>, b: Body)
    requires b in bodies
    ensures b in Frames(bodies, b.frame)
  {
    if bodies[0] != b { FrameIsThere(bodies[1..], b); }
  }
}
