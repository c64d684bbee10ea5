/**
 Whole runs of one channel: the pipeline of ChannelSpec driven by its reactor, its workers and
 an arbitrary environment. A request is answered at most once, and only if no role change came
 between the request and the answer.
 */
module ChannelRuns {
  import opened Messages
  import opened ChannelSpec
  import opened Stages

  /** What the workers did to the outside world. */
  datatype Effect =
    | StoredMessage(m: Message)
    | MaybeStoredMessage(m: Message)  // the store call failed; it may have written or not
    | DeliveredMessage(m: Message)
    | AckedMessage(ack: Ack)
    | ForwardedMessage(m: Message)

  /** Stage `stage` successfully finished message `index` during leadership epoch `epoch`. */
  datatype Done = Done(epoch: nat, stage: Stage, index: nat)

  datatype Sys = Sys(
    ch: Chan,
    initPending: bool,
    pending: map<Stage, seq<Message>>,
    epoch: nat,
    sent: seq<Message>,
    done: set<Done>,
    log: seq<Effect>)

  /** The answers the outside gives to the worker of one request. */
  datatype Env = Env(conns: seq<Connection>, access: Access, store: StoreReply, systemDevice: string, forward: ForwardReply)

  datatype Event =
    | Ready
    | Tick
    | Incoming(ms: seq<Message>)
    | InitAnswer(ok: bool, leaderId: nat)
    | Leadership(leaderId: nat)
    | Answer(stage: Stage, env: Env)
    | Fail(stage: Stage)

  function Start(nodeId: nat): Sys {
    Sys(NewChan(nodeId), false, map[], 0, [], {}, [])
  }

  function Taken(ms: seq<Message>): seq<Message> { Select(ms, ChannelSpec.Queued) }

  function Ids(ms: seq<Message>): set<int> { set m <- ms :: m.id }

  // ---------------------------------------------------------------- one step

  function WorkAction(s: Stage, batch: seq<Message>, env: Env): (a: Action)
    requires |batch| > 0
    requires s.Decrypt? ==> |env.conns| == |batch|
    ensures a.Resp? && a.stage == s
  {
    var last := batch[|batch| - 1].index;
    match s
    case Decrypt => Resp(s, true, 0, DecryptBatch(batch, env.conns))
    case Permission => Resp(s, true, last, CheckBatch(batch, env.access))
    case Storage => Resp(s, StoreOk(batch, env.store), last, StoreBatch(batch, env.store))
    case Sendack => Resp(s, true, last, [])
    case Deliver => Resp(s, true, last, [])
    case Forward => Resp(s, env.forward.LeaderAccepts?, 0, batch)
  }

  function StoreEffects(ms: seq<Message>, failed: bool): seq<Effect> {
    seq(|ms|, i requires 0 <= i < |ms| => if failed then MaybeStoredMessage(ms[i]) else StoredMessage(ms[i]))
  }
  function DeliverEffects(ms: seq<Message>): seq<Effect> { seq(|ms|, i requires 0 <= i < |ms| => DeliveredMessage(ms[i])) }
  function AckEffects(acks: seq<Ack>): seq<Effect> { seq(|acks|, i requires 0 <= i < |acks| => AckedMessage(acks[i])) }

  function ForwardEffects(ms: seq<Message>): seq<Effect> { seq(|ms|, i requires 0 <= i < |ms| => ForwardedMessage(ms[i])) }

  function WorkEffects(s: Stage, batch: seq<Message>, env: Env): seq<Effect> {
    match s
    case Storage => StoreEffects(Stored(batch), env.store.failed)
    case Deliver => DeliverEffects(Deliverable(batch))
    case Sendack => AckEffects(Acks(batch, env.systemDevice))
    case Forward => ForwardEffects(Forwarded(batch, env.forward))
    case _ => []
  }

  function Finished(epoch: nat, s: Stage, batch: seq<Message>): set<Done> {
    set m <- batch :: Done(epoch, s, m.index)
  }

  predicate Occurs(y: Sys, e: Event) {
    match e
    case Ready => true
    case Tick => true
    case Incoming(ms) => DistinctIds(ms) && Ids(ms) !! Ids(y.sent)
    case InitAnswer(_, _) => y.initPending
    case Leadership(_) => true
    case Answer(s, env) =>
      && s in y.pending && |y.pending[s]| > 0
      && (s.Decrypt? ==> |env.conns| == |y.pending[s]|)
      && (s.Storage? ==> forall r <- env.store.results :: r.0 in Ids(Stored(y.pending[s])))
    case Fail(s) => s in y.pending
  }

  function AsAction(y: Sys, e: Event): Action
    requires Occurs(y, e) && !e.Ready? && !e.Tick?
  {
    match e
    case Incoming(ms) => Send(ms)
    case InitAnswer(ok, leaderId) => InitResp(ok, leaderId)
    case Leadership(leaderId) => LeaderChange(leaderId)
    case Answer(s, env) => WorkAction(s, y.pending[s], env)
    case Fail(s) => Resp(s, false, 0, [])
  }

  predicate Safe(y: Sys, e: Event)
    requires Occurs(y, e)
  {
    match e
    case Ready => ReadySafe(y.ch)
    case Tick => true
    case _ => StepSafe(y.ch, AsAction(y, e))
  }

  /** The event makes the channel start over in a (new) role. */
  predicate Resets(y: Sys, e: Event) {
    match e
    case InitAnswer(ok, _) => ok
    case Leadership(leaderId) =>
      (y.ch.role.Leader? && leaderId != y.ch.nodeId) || (y.ch.role.Proxy? && leaderId == y.ch.nodeId)
    case _ => false
  }

  function Next(y: Sys, e: Event): Sys
    requires Occurs(y, e) && Safe(y, e)
  {
    match e
    case Ready =>
      y.(ch := AfterReady(y.ch), initPending := y.initPending || InitRequested(y.ch), pending := y.pending + Requests(y.ch))
    case Tick => y.(ch := AfterTick(y.ch))
    case Incoming(ms) => y.(ch := AfterStep(y.ch, Send(ms)), sent := y.sent + Taken(ms))
    case InitAnswer(ok, _) =>
      y.(ch := AfterStep(y.ch, AsAction(y, e)), initPending := false,
         pending := if ok then map[] else y.pending, epoch := y.epoch + if ok then 1 else 0)
    case Leadership(_) =>
      y.(ch := AfterStep(y.ch, AsAction(y, e)),
         pending := if Resets(y, e) then map[] else y.pending, epoch := y.epoch + if Resets(y, e) then 1 else 0)
    case Answer(s, env) =>
      var a := WorkAction(s, y.pending[s], env);
      y.(ch := AfterStep(y.ch, a), pending := y.pending - {s},
         done := y.done + if a.ok then Finished(y.epoch, s, y.pending[s]) else {},
         log := y.log + WorkEffects(s, y.pending[s], env))
    case Fail(s) => y.(ch := AfterStep(y.ch, AsAction(y, e)), pending := y.pending - {s})
  }

  // ---------------------------------------------------------------- the invariant

  predicate Shape(q: Queue) {
    1 <= q.offset <= q.lastIndex + 1 && |q.messages| == q.lastIndex + 1 - q.offset
  }

  /** Indices are contiguous and every queued message is the one that was sent as number `index`. */
  ghost predicate QueueInv(q: Queue, sent: seq<Message>) {
    && Shape(q)
    && |sent| == q.lastIndex
    && DistinctIds(sent)
    && (forall k {:trigger InOrder(q, sent, k)} :: 0 <= k < |q.messages| ==> InOrder(q, sent, k))
    && (forall m <- q.messages :: VerdictInv(m) && (m.index <= q.Cursor(Decrypt) ==> Plain(m)))
  }

  predicate InOrder(q: Queue, sent: seq<Message>, k: nat)
    requires Shape(q) && |sent| == q.lastIndex && k < |q.messages|
  {
    q.messages[k].index == q.offset + k && SameMessage(q.messages[k], sent[q.offset - 1 + k])
  }

  /** What no stage may change of a message. */
  predicate SameMessage(m: Message, n: Message) {
    m.id == n.id && m.sender == n.sender && m.isSystem == n.isSystem
  }

  /** The cursors of a leader form a chain, those of a proxy another. */
  ghost predicate CursorChain(q: Queue, role: Role) {
    match role
    case Unknown =>
      q.offset == 1 && forall s: Stage :: q.Cursor(s) == 0
    case Leader =>
      && q.offset - 1 <= q.Cursor(Sendack) <= q.Cursor(Storage)
      && q.offset - 1 <= q.Cursor(Deliver) <= q.Cursor(Storage)
      && q.Cursor(Storage) <= q.Cursor(Permission) <= q.Cursor(Decrypt) <= q.lastIndex
      && (q.Cursor(Sendack) == q.Cursor(Deliver) ==> q.offset - 1 == q.Cursor(Sendack))
    case Proxy =>
      q.offset - 1 == q.Cursor(Forward) <= q.Cursor(Decrypt) <= q.lastIndex
  }

  /** An outstanding batch is a non-empty, unchanged piece of the queue right behind its stage's cursor. */
  ghost predicate BatchInPlace(q: Queue, s: Stage, batch: seq<Message>) {
    && |batch| > 0
    && q.offset <= q.Cursor(s) + 1
    && q.Cursor(s) + |batch| <= q.Upstream(s)
    && q.Cursor(s) + |batch| + 1 - q.offset <= |q.messages|
    && forall i :: 0 <= i < |batch| ==> batch[i] == q.messages[q.Cursor(s) + 1 - q.offset + i]
  }

  /** A stage is `processing` exactly while one request is out or its retry timer runs, never both. */
  ghost predicate SingleFlight(r: ReadyState, outstanding: bool) {
    && r.processing == (outstanding || r.willRetry)
    && !(outstanding && r.willRetry)
    && r.retryTick < RETRY_TICKS
    && (!r.willRetry ==> r.retryTick == 0)
  }

  ghost predicate FlagsInv(c: Chan, initPending: bool, pending: map<Stage, seq<Message>>) {
    && c.initialized == !c.role.Unknown?
    && SingleFlight(c.init, initPending)
    && (c.initialized ==> !initPending && c.init == IDLE)
    && (c.role.Unknown? ==> forall s: Stage :: s !in pending)
    && (forall s: Stage :: SingleFlight(c.flags.Get(s), s in pending))
    && (forall s <- pending :: s in StagesOf(c.role))
  }

  ghost predicate BatchesInv(q: Queue, pending: map<Stage, seq<Message>>) {
    forall s <- pending :: BatchInPlace(q, s, pending[s])
  }

  /** Message i left the queue legitimately. */
  ghost predicate Settled(done: set<Done>, i: nat) {
    || (exists e: nat :: Done(e, Sendack, i) in done && Done(e, Deliver, i) in done)
    || (exists e: nat :: Done(e, Forward, i) in done)
  }

  /** Nothing left the queue unfinished; a leader's cursors stand for work done in this epoch. */
  ghost predicate History(q: Queue, role: Role, epoch: nat, done: set<Done>) {
    && (forall i: nat :: 1 <= i < q.offset ==> Settled(done, i))
    && (role.Leader? ==> forall s: Stage, i: nat :: (s.Sendack? || s.Deliver?) && q.offset <= i <= q.Cursor(s) ==> Done(epoch, s, i) in done)
  }

  /** Decryption leaves the message alone. */
  predicate Plain(m: Message) {
    !m.isEncrypt || m.sender.connId == 0
  }

  /** A message that failed can never be decrypted again, so nothing can overwrite its verdict. */
  predicate VerdictInv(m: Message) {
    m.packet.Some? && (m.reason != ReasonSuccess ==> Plain(m))
  }

  ghost predicate Inv(y: Sys) {
    && QueueInv(y.ch.q, y.sent)
    && CursorChain(y.ch.q, y.ch.role)
    && FlagsInv(y.ch, y.initPending, y.pending)
    && BatchesInv(y.ch.q, y.pending)
    && History(y.ch.q, y.ch.role, y.epoch, y.done)
  }

  lemma StartInv(nodeId: nat)
    ensures Inv(Start(nodeId))
  {
  }
}
