/**
 What the outside has seen of a message by the time a stage has passed it: a persistent one is stored before it is
 acknowledged or delivered, and nothing leaves a leader's queue unacknowledged or, if accepted, undelivered.
 */
module ChannelReports {
  import opened Messages
  import opened ChannelSpec
  import opened Stages
  import opened ChannelRuns
  import opened ChannelInvariant
  import opened ChannelTheorems

  predicate Reports(s: Stage) {
    s.Storage? || s.Sendack? || s.Deliver?
  }

  /** Whether stage `s` owes the outside something for a message. */
  predicate Owes(s: Stage, m: Message, systemDevice: string) {
    match s
    case Storage => ForTheStore(m)
    case Sendack => m.sender.deviceId != systemDevice
    case Deliver => m.reason == ReasonSuccess
    case _ => false
  }

  /** It has paid: stored the message, which then had no sequence number yet, acknowledged it, or delivered it, as it stands. */
  ghost predicate Logged(log: seq<Effect>, s: Stage, m: Message) {
    match s
    case Storage => exists n: nat :: StoredMessage(m.(seqNo := n)) in log
    case Sendack => AckedMessage(AckOf(m)) in log
    case Deliver => DeliveredMessage(m) in log
    case _ => true
  }

  /** On a leader stage `s` has paid for every queued message that its cursor has passed. */
  ghost predicate PaidSoFar(y: Sys, s: Stage, systemDevice: string) {
    y.ch.role.Leader? ==>
      forall m <- y.ch.q.messages :: m.index <= y.ch.q.Cursor(s) && Owes(s, m, systemDevice) ==> Logged(y.log, s, m)
  }

  /** The system device is an option of the server: every sendack worker is given the same one. */
  predicate SameDevice(e: Event, systemDevice: string) {
    e.Answer? && e.stage.Sendack? ==> e.env.systemDevice == systemDevice
  }

  lemma LoggedStays(log: seq<Effect>, log': seq<Effect>, s: Stage, m: Message)
    requires log <= log' && Logged(log, s, m)
    ensures Logged(log', s, m)
  {
    if s.Storage? {
      var n: nat :| StoredMessage(m.(seqNo := n)) in log;
      assert StoredMessage(m.(seqNo := n)) in log';
    }
  }

  // ---------------------------------------------------------------- one answer

  /** The batch of an answered stage holds every message between its cursor and its end. */
  lemma BatchHas(y: Sys, s: Stage, env: Env, m: Message)
    requires Inv(y) && Occurs(y, Answer(s, env)) && m in y.ch.q.messages
    requires y.ch.q.Cursor(s) < m.index <= y.ch.q.Cursor(s) + |y.pending[s]|
    ensures m in y.pending[s]
  {
    var q, b := y.ch.q, y.pending[s];
    var k :| 0 <= k < |q.messages| && q.messages[k] == m;
    assert InOrder(q, y.sent, k) && BatchInPlace(q, s, b);
    assert b[m.index - q.Cursor(s) - 1] == m;
  }

  /** A worker that succeeds pays for every message of its batch. */
  lemma WorkerPays(s: Stage, batch: seq<Message>, env: Env, m: Message)
    requires Reports(s) && m in batch && Owes(s, m, env.systemDevice) && WorkAction(s, batch, env).ok
    ensures Logged(WorkEffects(s, batch, env), s, m)
  {
    var effects := WorkEffects(s, batch, env);
    match s
    case Storage =>
      SelectMember(batch, Storable, m);
      var k :| 0 <= k < |Stored(batch)| && Stored(batch)[k] == m;
      assert effects[k] == StoredMessage(m.(seqNo := m.seqNo));
    case Sendack =>
      AcksMember(batch, env.systemDevice, AckOf(m));
      var k :| 0 <= k < |Acks(batch, env.systemDevice)| && Acks(batch, env.systemDevice)[k] == AckOf(m);
      assert effects[k] == AckedMessage(AckOf(m));
    case Deliver =>
      SelectMember(batch, Accepted, m);
      var k :| 0 <= k < |Deliverable(batch)| && Deliverable(batch)[k] == m;
      assert effects[k] == DeliveredMessage(m);
  }

  lemma LoggedOn(log: seq<Effect>, more: seq<Effect>, s: Stage, m: Message)
    requires Logged(more, s, m)
    ensures Logged(log + more, s, m)
  {
    if s.Storage? {
      var n: nat :| StoredMessage(m.(seqNo := n)) in more;
      assert StoredMessage(m.(seqNo := n)) in log + more;
    }
  }

  lemma Earlier(q: Queue, q': Queue, s: Stage, n: nat, m': Message) returns (m: Message)
    requires Moves(q, q', s, n) && m' in q'.messages
    ensures m in q.messages && Follows(m, m', s, q.Cursor(s), n)
  {
    var k :| 0 <= k < |q'.messages| && q'.messages[k] == m';
    m := q.messages[k + q'.offset - q.offset];
  }

  /** The store may give a message its number and, failing, its verdict; what it still owes it owed before. */
  lemma OwedBefore(m: Message, m': Message, s: Stage, lo: nat, n: nat, systemDevice: string)
    requires Reports(s) && Follows(m, m', s, lo, n) && Owes(s, m', systemDevice)
    ensures Owes(s, m, systemDevice) && m' == (if s.Storage? then m.(seqNo := m'.seqNo) else m)
  {
  }

  lemma PaidThen(log: seq<Effect>, s: Stage, m: Message, m': Message)
    requires Reports(s) && Logged(log, s, m) && m' == (if s.Storage? then m.(seqNo := m'.seqNo) else m)
    ensures Logged(log, s, m')
  {
    if s.Storage? {
      var n: nat :| StoredMessage(m.(seqNo := n)) in log;
      assert m'.(seqNo := n) == m.(seqNo := n);
    }
  }

  /** A message that the answer of stage `s` covers is paid for now, or was before. */
  lemma OwnAnswerPays(y: Sys, s: Stage, env: Env, systemDevice: string, q': Queue, m': Message)
    requires Inv(y) && Occurs(y, Answer(s, env)) && Safe(y, Answer(s, env)) && y.ch.role.Leader? && Reports(s)
    requires PaidSoFar(y, s, systemDevice) && SameDevice(Answer(s, env), systemDevice)
    requires Moves(y.ch.q, q', s, y.ch.q.Cursor(s) + |y.pending[s]|) && WorkAction(s, y.pending[s], env).ok
    requires m' in q'.messages && m'.index <= q'.Cursor(s) && Owes(s, m', systemDevice)
    ensures Logged(Next(y, Answer(s, env)).log, s, m')
  {
    var q, n, log' := y.ch.q, y.ch.q.Cursor(s) + |y.pending[s]|, Next(y, Answer(s, env)).log;
    var m := Earlier(q, q', s, n, m');
    OwedBefore(m, m', s, q.Cursor(s), n, systemDevice);
    if m.index <= q.Cursor(s) {
      LoggedStays(y.log, log', s, m);
    } else {
      BatchHas(y, s, env, m);
      WorkerPays(s, y.pending[s], env, m);
      LoggedOn(y.log, WorkEffects(s, y.pending[s], env), s, m);
    }
    PaidThen(log', s, m, m');
  }

  /** No other stage touches what the cursor of a reporting stage has passed, or moves that cursor. */
  lemma PassedStays(q: Queue, q': Queue, s: Stage, n: nat, t: Stage, m: Message, m': Message)
    requires CursorChain(q, Leader) && s in StagesOf(Leader) && Reports(t) && t != s && Moves(q, q', s, n)
    requires Follows(m, m', s, q.Cursor(s), n) && m'.index <= q'.Cursor(t)
    ensures m' == m && m.index <= q.Cursor(t)
  {
    assert q'.Cursor(t) == q.Cursor(t);
  }

  lemma AnswerKeepsPaid(y: Sys, s: Stage, env: Env, t: Stage, systemDevice: string)
    requires Inv(y) && Occurs(y, Answer(s, env)) && Safe(y, Answer(s, env)) && Reports(t)
    requires PaidSoFar(y, t, systemDevice) && SameDevice(Answer(s, env), systemDevice)
    ensures PaidSoFar(Next(y, Answer(s, env)), t, systemDevice)
  {
    var q, y' := y.ch.q, Next(y, Answer(s, env));
    var q' := AnswerQueue(y, s, env);
    if y.ch.role.Leader? {
      forall m' | m' in q'.messages && m'.index <= q'.Cursor(t) && Owes(t, m', systemDevice) ensures Logged(y'.log, t, m') {
        if WorkAction(s, y.pending[s], env).ok {
          if s == t {
            OwnAnswerPays(y, s, env, systemDevice, q', m');
          } else {
            var m := Earlier(q, q', s, q.Cursor(s) + |y.pending[s]|, m');
            PassedStays(q, q', s, q.Cursor(s) + |y.pending[s]|, t, m, m');
            LoggedStays(y.log, y'.log, t, m');
          }
        } else {
          LoggedStays(y.log, y'.log, t, m');
        }
      }
    }
  }

  // ---------------------------------------------------------------- the other events

  lemma IndexFromOffset(q: Queue, sent: seq<Message>, m: Message)
    requires QueueInv(q, sent) && m in q.messages
    ensures q.offset <= m.index <= q.lastIndex && q.messages[m.index - q.offset] == m
  {
    var k :| 0 <= k < |q.messages| && q.messages[k] == m;
    assert InOrder(q, sent, k);
  }

  /** A rewound cursor has passed nothing that is queued. */
  lemma RewindKeepsPaid(y: Sys, e: Event, t: Stage, systemDevice: string)
    requires Inv(y) && Occurs(y, e) && Safe(y, e) && PaidSoFar(y, t, systemDevice) && (e.InitAnswer? || e.Leadership?)
    ensures PaidSoFar(Next(y, e), t, systemDevice)
  {
    var q, q' := y.ch.q, Next(y, e).ch.q;
    assert q'.messages == q.messages;
    forall m | m in q.messages ensures m.index >= q.offset { IndexFromOffset(q, y.sent, m); }
  }

  lemma AppendedAfter(q: Queue, ms: seq<Message>, m: Message)
    requires 1 <= q.offset <= q.lastIndex + 1 && |q.messages| == q.lastIndex + 1 - q.offset
    ensures m in AppendAll(q, ms).messages && m !in q.messages ==> m.index > q.lastIndex
  {
    var q' := AppendAll(q, ms);
    AppendAllGrows(q, ms);
    if m in q'.messages && m !in q.messages {
      var k :| 0 <= k < |q'.messages| && q'.messages[k] == m;
      var t := k - |q.messages|;
      assert q'.messages[|q.messages| + t] == Taken(ms)[t].(index := q.lastIndex + 1 + t, reason := ReasonSuccess);
    }
  }

  lemma IncomingKeepsPaid(y: Sys, ms: seq<Message>, t: Stage, systemDevice: string)
    requires Inv(y) && Occurs(y, Incoming(ms)) && PaidSoFar(y, t, systemDevice) && Reports(t)
    ensures PaidSoFar(Next(y, Incoming(ms)), t, systemDevice)
  {
    var q, q' := y.ch.q, AppendAll(y.ch.q, ms);
    AppendAllGrows(q, ms);
    if y.ch.role.Leader? {
      forall m | m in q'.messages && m.index <= q'.Cursor(t) ensures m in q.messages { AppendedAfter(q, ms, m); }
    }
  }

  lemma StepKeepsPaid(y: Sys, e: Event, t: Stage, systemDevice: string)
    requires Inv(y) && Occurs(y, e) && Safe(y, e) && PaidSoFar(y, t, systemDevice) && SameDevice(e, systemDevice) && Reports(t)
    ensures PaidSoFar(Next(y, e), t, systemDevice)
  {
    match e
    case Answer(s, env) => AnswerKeepsPaid(y, s, env, t, systemDevice);
    case Incoming(ms) => IncomingKeepsPaid(y, ms, t, systemDevice);
    case InitAnswer(_, _) => RewindKeepsPaid(y, e, t, systemDevice);
    case Leadership(_) => RewindKeepsPaid(y, e, t, systemDevice);
    case _ =>
  }

  lemma {:induction false} RunKeepsPaid(nodeId: nat, ys: seq<Sys>, es: seq<Event>, k: nat, t: Stage, systemDevice: string)
    requires IsRun(nodeId, ys, es) && k < |ys| && Reports(t) && forall e <- es :: SameDevice(e, systemDevice)
    ensures PaidSoFar(ys[k], t, systemDevice)
  {
    if k > 0 {
      RunKeepsPaid(nodeId, ys, es, k - 1, t, systemDevice);
      RunInv(nodeId, ys, es, k - 1);
      assert IsStep(ys[k - 1], es[k - 1], ys[k]);
      StepKeepsPaid(ys[k - 1], es[k - 1], t, systemDevice);
    }
  }

  // ---------------------------------------------------------------- nothing leaves unreported

  /** What an answer can make leave: what its batch has reached and, on a leader, the other cursors have. */
  lemma LeaverIsCovered(y: Sys, s: Stage, env: Env, m: Message)
    requires Inv(y) && Occurs(y, Answer(s, env)) && Safe(y, Answer(s, env))
    requires y.ch.q.offset <= m.index < Next(y, Answer(s, env)).ch.q.offset
    ensures WorkAction(s, y.pending[s], env).ok && m.index <= y.ch.q.Cursor(s) + |y.pending[s]|
    ensures s.Sendack? || s.Deliver? || s.Forward?
    ensures s.Deliver? ==> m.index <= y.ch.q.Cursor(Sendack)
    ensures s.Sendack? ==> m.index <= y.ch.q.Cursor(Deliver)
    ensures !s.Forward? ==> m.index <= y.ch.q.Cursor(Storage)
    ensures s.Forward? ==> y.ch.role.Proxy? && y.ch.q.Cursor(s) < m.index
    ensures !s.Forward? ==> y.ch.role.Leader?
  {
    var q' := AnswerQueue(y, s, env);
  }

  lemma ForwardLogs(y: Sys, env: Env, m: Message)
    requires Occurs(y, Answer(Forward, env)) && Safe(y, Answer(Forward, env)) && env.forward.LeaderAccepts? && m in y.pending[Forward]
    ensures ForwardedMessage(m) in Next(y, Answer(Forward, env)).log
  {
    var b := y.pending[Forward];
    var k :| 0 <= k < |b| && b[k] == m;
    assert ForwardEffects(b)[k] == ForwardedMessage(m);
    assert (y.log + ForwardEffects(b))[|y.log| + k] == ForwardedMessage(m);
  }

  /** A message that has left: forwarded as it stood, or stored, acknowledged and delivered as its verdict and packet ask for. */
  ghost predicate AccountedFor(log: seq<Effect>, m: Message, systemDevice: string) {
    ForwardedMessage(m) in log || forall s: Stage :: Reports(s) && Owes(s, m, systemDevice) ==> Logged(log, s, m)
  }

  ghost predicate Paid(y: Sys, systemDevice: string) {
    PaidSoFar(y, Storage, systemDevice) && PaidSoFar(y, Sendack, systemDevice) && PaidSoFar(y, Deliver, systemDevice)
  }

  lemma RunPays(nodeId: nat, ys: seq<Sys>, es: seq<Event>, k: nat, systemDevice: string)
    requires IsRun(nodeId, ys, es) && k < |ys| && forall e <- es :: SameDevice(e, systemDevice)
    ensures Paid(ys[k], systemDevice)
  {
    RunKeepsPaid(nodeId, ys, es, k, Storage, systemDevice);
    RunKeepsPaid(nodeId, ys, es, k, Sendack, systemDevice);
    RunKeepsPaid(nodeId, ys, es, k, Deliver, systemDevice);
  }

  lemma LeaverIsAccountedFor(y: Sys, e: Event, systemDevice: string, m: Message)
    requires Inv(y) && Occurs(y, e) && Safe(y, e) && SameDevice(e, systemDevice)
    requires Paid(y, systemDevice)
    requires m in y.ch.q.messages && m.index < Next(y, e).ch.q.offset
    ensures AccountedFor(Next(y, e).log, m, systemDevice)
  {
    IndexFromOffset(y.ch.q, y.sent, m);
    match e
    case Answer(s, env) =>
      LeaverIsCovered(y, s, env, m);
      if s.Forward? {
        BatchHas(y, s, env, m);
        ForwardLogs(y, env, m);
      } else {
        forall t: Stage | Reports(t) && Owes(t, m, systemDevice) ensures Logged(Next(y, e).log, t, m) {
          LeaverIsPaid(y, s, env, t, systemDevice, m);
        }
      }
    case Incoming(ms) => AppendAllGrows(y.ch.q, ms);
    case _ =>
  }

  lemma LeaverIsPaid(y: Sys, s: Stage, env: Env, t: Stage, systemDevice: string, m: Message)
    requires Inv(y) && Occurs(y, Answer(s, env)) && Safe(y, Answer(s, env)) && SameDevice(Answer(s, env), systemDevice)
    requires Reports(s) && Reports(t) && PaidSoFar(y, t, systemDevice) && y.ch.role.Leader? && Owes(t, m, systemDevice)
    requires WorkAction(s, y.pending[s], env).ok
    requires m in y.ch.q.messages && m.index <= y.ch.q.Cursor(t) + if t == s then |y.pending[s]| else 0
    ensures Logged(Next(y, Answer(s, env)).log, t, m)
  {
    var log' := Next(y, Answer(s, env)).log;
    if m.index <= y.ch.q.Cursor(t) {
      LoggedStays(y.log, log', t, m);
    } else {
      BatchHas(y, s, env, m);
      WorkerPays(s, y.pending[s], env, m);
      LoggedOn(y.log, WorkEffects(s, y.pending[s], env), s, m);
    }
  }

  lemma AccountStays(log: seq<Effect>, log': seq<Effect>, m: Message, systemDevice: string)
    requires log <= log' && AccountedFor(log, m, systemDevice)
    ensures AccountedFor(log', m, systemDevice)
  {
    if ForwardedMessage(m) !in log {
      forall s: Stage | Reports(s) && Owes(s, m, systemDevice) ensures Logged(log', s, m) { LoggedStays(log, log', s, m); }
    }
  }

  /** Message `i` is `m` when it leaves, in the step from `y` to `y'`, and is accounted for. */
  ghost predicate Leaves(y: Sys, y': Sys, i: nat, m: Message, systemDevice: string) {
    && y.ch.q.offset <= i < y'.ch.q.offset
    && i - y.ch.q.offset < |y.ch.q.messages| && m == y.ch.q.messages[i - y.ch.q.offset]
    && 1 <= m.index == i <= |y.sent| && SameMessage(m, y.sent[i - 1])
    && AccountedFor(y'.log, m, systemDevice)
  }

  /**
   End to end: every message that is no longer queued left at one moment of the run, and by then it was forwarded as it
   stood, or acknowledged with its verdict unless it came from the system device, delivered if its verdict was success, and
   stored if besides it was readable and persistent.
   */
  lemma {:induction false} EveryLeaverIsAccountedFor(nodeId: nat, ys: seq<Sys>, es: seq<Event>, k: nat, i: nat, systemDevice: string)
      returns (m: Message, j: nat)
    requires IsRun(nodeId, ys, es) && k < |ys| && 1 <= i < ys[k].ch.q.offset && forall e <- es :: SameDevice(e, systemDevice)
    ensures j < k && Leaves(ys[j], ys[j + 1], i, m, systemDevice)
    ensures ys[j + 1].log <= ys[k].log && ys[j].sent <= ys[k].sent
    decreases k
  {
    if k == 0 { return; }
    RunGrows(nodeId, ys, es, k - 1);
    if i < ys[k - 1].ch.q.offset {
      m, j := EveryLeaverIsAccountedFor(nodeId, ys, es, k - 1, i, systemDevice);
    } else {
      j := k - 1;
      m := LeaverAt(nodeId, ys, es, j, i, systemDevice);
    }
  }

  lemma LeaverAt(nodeId: nat, ys: seq<Sys>, es: seq<Event>, j: nat, i: nat, systemDevice: string) returns (m: Message)
    requires IsRun(nodeId, ys, es) && j < |es| && ys[j].ch.q.offset <= i < ys[j + 1].ch.q.offset
    requires forall e <- es :: SameDevice(e, systemDevice)
    ensures Leaves(ys[j], ys[j + 1], i, m, systemDevice)
  {
    RunInv(nodeId, ys, es, j);
    RunPays(nodeId, ys, es, j, systemDevice);
    m := LeaverNow(ys[j], es[j], ys[j + 1], i, systemDevice);
  }

  lemma LeaverNow(y: Sys, e: Event, y': Sys, i: nat, systemDevice: string) returns (m: Message)
    requires Inv(y) && IsStep(y, e, y') && y.ch.q.offset <= i < y'.ch.q.offset
    requires SameDevice(e, systemDevice) && Paid(y, systemDevice)
    ensures Leaves(y, y', i, m, systemDevice)
  {
    LeavesFromQueue(y, e, i);
    m := QueuedAs(y, i);
    LeaverIsAccountedFor(y, e, systemDevice, m);
  }

  lemma QueuedAs(y: Sys, i: nat) returns (m: Message)
    requires Inv(y) && y.ch.q.offset <= i <= y.ch.q.lastIndex
    ensures m in y.ch.q.messages && m == y.ch.q.messages[i - y.ch.q.offset]
    ensures 1 <= m.index == i <= |y.sent| && SameMessage(m, y.sent[i - 1])
  {
    assert InOrder(y.ch.q, y.sent, i - y.ch.q.offset);
    m := y.ch.q.messages[i - y.ch.q.offset];
  }

  lemma LeavesFromQueue(y: Sys, e: Event, i: nat)
    requires Inv(y) && Occurs(y, e) && Safe(y, e) && i < Next(y, e).ch.q.offset
    ensures i <= y.ch.q.lastIndex
  {
    match e
    case Answer(s, env) =>
      var q' := AnswerQueue(y, s, env);
      StepKeeps(y, e);
    case Incoming(ms) => AppendAllGrows(y.ch.q, ms);
    case _ =>
  }

  /** So a message that has failed and is no longer queued was acknowledged with that code, or forwarded carrying it. */
  lemma FailedMessageIsAnswered(nodeId: nat, ys: seq<Sys>, es: seq<Event>, j: nat, k: nat, i: nat, code: ReasonCode, systemDevice: string)
      returns (m: Message)
    requires IsRun(nodeId, ys, es) && j <= k < |ys| && forall e <- es :: SameDevice(e, systemDevice)
    requires code != ReasonSuccess && Holds(ys[j].ch.q, i, code) && i < ys[k].ch.q.offset
    ensures 1 <= m.index == i <= |ys[k].sent| && m.reason == code && SameMessage(m, ys[k].sent[i - 1])
    ensures m.sender.deviceId == systemDevice || AckedMessage(AckOf(m)) in ys[k].log || ForwardedMessage(m) in ys[k].log
  {
    RunInv(nodeId, ys, es, j);
    var l;
    m, l := EveryLeaverIsAccountedFor(nodeId, ys, es, k, i, systemDevice);
    if l < j { GoneForGood(nodeId, ys, es, l + 1, j, i); }
    VerdictIsFinal(nodeId, ys, es, j, l, i, code);
    AccountStays(ys[l + 1].log, ys[k].log, m, systemDevice);
    assert Reports(Sendack);
  }

  lemma LogGrows(y: Sys, e: Event, y': Sys)
    requires IsStep(y, e, y')
    ensures y.log <= y'.log && y.sent <= y'.sent
  {
  }

  lemma RunGrows(nodeId: nat, ys: seq<Sys>, es: seq<Event>, k: nat)
    requires IsRun(nodeId, ys, es) && k < |es|
    ensures ys[k].log <= ys[k + 1].log && ys[k].sent <= ys[k + 1].sent
  {
    LogGrows(ys[k], es[k], ys[k + 1]);
  }

  // ---------------------------------------------------------------- stored first

  predicate IsReport(f: Effect, m: Message) {
    f == AckedMessage(AckOf(m)) || f == DeliveredMessage(m)
  }

  /** What the sendack and deliver workers are working on has passed the store. */
  lemma BatchIsStored(y: Sys, s: Stage, systemDevice: string, m: Message)
    requires Inv(y) && s in y.pending && (s.Sendack? || s.Deliver?) && m in y.pending[s] && PaidSoFar(y, Storage, systemDevice)
    ensures ForTheStore(m) ==> Logged(y.log, Storage, m)
  {
    var q, b := y.ch.q, y.pending[s];
    assert BatchInPlace(q, s, b);
    var k :| 0 <= k < |b| && b[k] == m;
    BatchFacts(q, y.sent, s, b);
    assert q.messages[q.Cursor(s) + 1 - q.offset + k] == m;
    assert m in q.messages && m.index <= q.Cursor(Storage);
  }

  /** At this moment of a run a sendack or deliver worker that holds `m` reports it. */
  ghost predicate ReportsNow(y: Sys, e: Event, f: Effect, m: Message) {
    e.Answer? && (e.stage.Sendack? || e.stage.Deliver?) && e.stage in y.pending && m in y.pending[e.stage] && IsReport(f, m)
  }

  /**
   Every acknowledgement and every delivery is that of a message the worker held, and if that was accepted, readable and
   persistent it had been stored before.
   */
  lemma {:induction false} ReportedIsStored(nodeId: nat, ys: seq<Sys>, es: seq<Event>, k: nat, p: nat, systemDevice: string)
      returns (m: Message, j: nat)
    requires IsRun(nodeId, ys, es) && k < |ys| && forall e <- es :: SameDevice(e, systemDevice)
    requires p < |ys[k].log| && (ys[k].log[p].AckedMessage? || ys[k].log[p].DeliveredMessage?)
    ensures j < k && ReportsNow(ys[j], es[j], ys[k].log[p], m)
    ensures ForTheStore(m) ==> Logged(ys[k].log[..p], Storage, m)
  {
    if k == 0 { return; }
    RunGrows(nodeId, ys, es, k - 1);
    if p < |ys[k - 1].log| {
      m, j := ReportedIsStored(nodeId, ys, es, k - 1, p, systemDevice);
      assert ys[k - 1].log[..p] == ys[k].log[..p];
    } else {
      j := k - 1;
      m := ReportedAt(nodeId, ys, es, j, p, systemDevice);
    }
  }

  lemma ReportedAt(nodeId: nat, ys: seq<Sys>, es: seq<Event>, j: nat, p: nat, systemDevice: string) returns (m: Message)
    requires IsRun(nodeId, ys, es) && j < |es| && forall e <- es :: SameDevice(e, systemDevice)
    requires |ys[j].log| <= p < |ys[j + 1].log| && (ys[j + 1].log[p].AckedMessage? || ys[j + 1].log[p].DeliveredMessage?)
    ensures ReportsNow(ys[j], es[j], ys[j + 1].log[p], m)
    ensures ForTheStore(m) ==> Logged(ys[j + 1].log[..p], Storage, m)
  {
    RunInv(nodeId, ys, es, j);
    RunKeepsPaid(nodeId, ys, es, j, Storage, systemDevice);
    LogGrows(ys[j], es[j], ys[j + 1]);
    m := ReportedNow(ys[j], es[j], p);
    BatchIsStored(ys[j], es[j].stage, systemDevice, m);
    if ForTheStore(m) { LoggedStays(ys[j].log, ys[j + 1].log[..p], Storage, m); }
  }

  lemma ReportedNow(y: Sys, e: Event, p: nat) returns (m: Message)
    requires Occurs(y, e) && Safe(y, e) && |y.log| <= p < |Next(y, e).log|
    requires Next(y, e).log[p].AckedMessage? || Next(y, e).log[p].DeliveredMessage?
    ensures ReportsNow(y, e, Next(y, e).log[p], m)
  {
    OnlyAcceptedLeave(y, e, p);
    var f := Next(y, e).log[p];
    if f.DeliveredMessage? {
      m := f.m;
    } else {
      m :| m in y.pending[Sendack] && m.sender.deviceId != e.env.systemDevice && f.ack == AckOf(m);
    }
  }

  // ---------------------------------------------------------------- in order

  predicate IsOf(s: Stage, f: Effect) {
    (s.Sendack? && f.AckedMessage?) || (s.Deliver? && f.DeliveredMessage?)
  }

  /** The effects of stage `s` from position `from` on are about messages beyond `lo`, up to `hi`, in increasing order. */
  ghost predicate Ordered(log: seq<Effect>, from: nat, s: Stage, lo: nat, hi: nat) {
    && (forall n :: from <= n < |log| && IsOf(s, log[n]) ==> lo < About(log[n]) <= hi)
    && (forall n, o :: from <= n < o < |log| && IsOf(s, log[n]) && IsOf(s, log[o]) ==> About(log[n]) < About(log[o]))
  }

  predicate Increasing(ms: seq<Message>) {
    forall i, j :: 0 <= i < j < |ms| ==> ms[i].index < ms[j].index
  }

  lemma {:induction false} SelectIncreasing(ms: seq<Message>, p: Message -> bool)
    requires Increasing(ms)
    ensures Increasing(Select(ms, p))
  {
    if ms != [] {
      var init := ms[..|ms| - 1];
      SelectIncreasing(init, p);
      forall m | m in Select(init, p) ensures m.index < ms[|ms| - 1].index { SelectMember(init, p, m); }
    }
  }

  lemma {:induction false} AcksIncreasing(ms: seq<Message>, systemDevice: string)
    requires Increasing(ms)
    ensures forall i, j :: 0 <= i < j < |Acks(ms, systemDevice)| ==> Acks(ms, systemDevice)[i].index < Acks(ms, systemDevice)[j].index
  {
    if ms != [] {
      var init := ms[..|ms| - 1];
      AcksIncreasing(init, systemDevice);
      forall a | a in Acks(init, systemDevice) ensures a.index < ms[|ms| - 1].index { AcksMember(init, systemDevice, a); }
    }
  }

  /** One answer of stage `s` is about messages behind its cursor, in order. */
  lemma WorkIsOrdered(y: Sys, s: Stage, env: Env)
    requires Inv(y) && Occurs(y, Answer(s, env)) && (s.Sendack? || s.Deliver?)
    ensures Ordered(WorkEffects(s, y.pending[s], env), 0, s, y.ch.q.Cursor(s), y.ch.q.Cursor(s) + |y.pending[s]|)
  {
    var b, effects := y.pending[s], WorkEffects(s, y.pending[s], env);
    BatchFacts(y.ch.q, y.sent, s, b);
    if s.Deliver? { SelectIncreasing(b, Accepted); } else { AcksIncreasing(b, env.systemDevice); }
    forall n | 0 <= n < |effects| ensures y.ch.q.Cursor(s) < About(effects[n]) <= y.ch.q.Cursor(s) + |b| {
      var m := EffectIsOfBatch(s, b, env, effects[n]);
      var k :| 0 <= k < |b| && b[k] == m;
    }
  }

  lemma OrderedOn(log: seq<Effect>, more: seq<Effect>, from: nat, s: Stage, lo: nat, mid: nat, hi: nat)
    requires from <= |log| && lo <= mid <= hi && Ordered(log, from, s, lo, mid) && Ordered(more, 0, s, mid, hi)
    ensures Ordered(log + more, from, s, lo, hi)
  {
    var all := log + more;
    forall n, o | from <= n < o < |all| && IsOf(s, all[n]) && IsOf(s, all[o]) ensures About(all[n]) < About(all[o]) {
      if n >= |log| { assert all[n] == more[n - |log|] && all[o] == more[o - |log|]; }
      else if o >= |log| { assert all[o] == more[o - |log|]; }
    }
  }

  lemma OthersEffects(s: Stage, t: Stage, batch: seq<Message>, env: Env)
    requires s != t
    ensures forall f <- WorkEffects(t, batch, env) :: !IsOf(s, f)
  {
  }

  /** Within one leadership the other events neither report for stage `s` nor move its cursor. */
  lemma OthersAreSilent(y: Sys, e: Event, y': Sys, s: Stage)
    requires Inv(y) && IsStep(y, e, y') && y'.epoch == y.epoch && !(e.Answer? && e.stage == s)
    ensures y'.ch.q.Cursor(s) == y.ch.q.Cursor(s) && y.log <= y'.log
    ensures forall n :: |y.log| <= n < |y'.log| ==> !IsOf(s, y'.log[n])
  {
    match e
    case Answer(t, env) =>
      var q' := AnswerQueue(y, t, env);
      OthersEffects(s, t, y.pending[t], env);
    case Incoming(ms) => AppendAllGrows(y.ch.q, ms);
    case _ =>
  }

  /** From `y` to `z`, within one leadership, stage `s` has reported in the order the messages came in, each at most once. */
  ghost predicate InOrderSince(y: Sys, z: Sys, s: Stage) {
    && y.log <= z.log && y.ch.q.Cursor(s) <= z.ch.q.Cursor(s)
    && Ordered(z.log, |y.log|, s, y.ch.q.Cursor(s), z.ch.q.Cursor(s))
  }

  lemma StepIsOrdered(y: Sys, z: Sys, e: Event, z': Sys, s: Stage)
    requires Inv(z) && IsStep(z, e, z') && z'.epoch == z.epoch && (s.Sendack? || s.Deliver?) && InOrderSince(y, z, s)
    ensures InOrderSince(y, z', s)
  {
    if e.Answer? && e.stage == s {
      var q' := AnswerQueue(z, s, e.env);
      WorkIsOrdered(z, s, e.env);
      OrderedOn(z.log, WorkEffects(s, z.pending[s], e.env), |y.log|, s, y.ch.q.Cursor(s), z.ch.q.Cursor(s), q'.Cursor(s));
    } else {
      OthersAreSilent(z, e, z', s);
    }
  }

  lemma {:induction false} EpochGrows(nodeId: nat, ys: seq<Sys>, es: seq<Event>, j: nat, k: nat)
    requires IsRun(nodeId, ys, es) && j <= k < |ys|
    ensures ys[j].epoch <= ys[k].epoch
    decreases k
  {
    if j < k {
      EpochGrows(nodeId, ys, es, j, k - 1);
      assert IsStep(ys[k - 1], es[k - 1], ys[k]);
    }
  }

  /** In any run messages are acknowledged, and delivered, in order and at most once during one leadership. */
  lemma {:induction false} ReportsAreInOrder(nodeId: nat, ys: seq<Sys>, es: seq<Event>, j: nat, k: nat, s: Stage)
    requires IsRun(nodeId, ys, es) && j <= k < |ys| && ys[j].epoch == ys[k].epoch && (s.Sendack? || s.Deliver?)
    ensures InOrderSince(ys[j], ys[k], s)
    decreases k
  {
    if j < k {
      EpochGrows(nodeId, ys, es, j, k - 1);
      EpochGrows(nodeId, ys, es, k - 1, k);
      ReportsAreInOrder(nodeId, ys, es, j, k - 1, s);
      RunInv(nodeId, ys, es, k - 1);
      StepIsOrdered(ys[j], ys[k - 1], es[k - 1], ys[k], s);
    }
  }
}
