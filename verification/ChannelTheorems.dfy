/** What holds of every run of a channel. */
module ChannelTheorems {
  import opened Messages
  import opened ChannelSpec
  import opened Stages
  import opened ChannelRuns
  import opened ChannelInvariant

  // ---------------------------------------------------------------- runs

  /** `ys` are the states and `es` the events of a run of a fresh channel. */
  ghost predicate IsRun(nodeId: nat, ys: seq<Sys>, es: seq<Event>) {
    && |ys| == |es| + 1
    && ys[0] == Start(nodeId)
    && forall k {:trigger es[k]} :: 0 <= k < |es| ==> IsStep(ys[k], es[k], ys[k + 1])
  }

  ghost predicate IsStep(y: Sys, e: Event, y': Sys) {
    Occurs(y, e) && Safe(y, e) && y' == Next(y, e)
  }

  lemma StepKeeps(y: Sys, e: Event)
    requires Inv(y) && Occurs(y, e)
    ensures Safe(y, e) && Inv(Next(y, e))
  {
    match e
    case Ready => ReadyKeeps(y);
    case Tick => TickKeeps(y);
    case Incoming(ms) => IncomingKeeps(y, ms);
    case InitAnswer(_, _) => ResetKeeps(y, e);
    case Leadership(_) => ResetKeeps(y, e);
    case Answer(s, env) => AnswerKeeps(y, s, env);
    case Fail(s) => FailKeeps(y, s);
  }

  lemma IsStepKeeps(y: Sys, e: Event, y': Sys)
    requires Inv(y) && IsStep(y, e, y')
    ensures Inv(y')
  {
    StepKeeps(y, e);
  }

  lemma {:induction false} RunInv(nodeId: nat, ys: seq<Sys>, es: seq<Event>, k: nat)
    requires IsRun(nodeId, ys, es) && k < |ys|
    ensures Inv(ys[k])
  {
    if k == 0 {
      StartInv(nodeId);
    } else {
      RunInv(nodeId, ys, es, k - 1);
      IsStepKeeps(ys[k - 1], es[k - 1], ys[k]);
    }
  }

  /** No run ever slices, writes back or truncates outside the queue, whatever happens next. */
  lemma NeverOutOfRange(nodeId: nat, ys: seq<Sys>, es: seq<Event>, k: nat, e: Event)
    requires IsRun(nodeId, ys, es) && k < |ys| && Occurs(ys[k], e)
    ensures Safe(ys[k], e)
  {
    RunInv(nodeId, ys, es, k);
    StepKeeps(ys[k], e);
  }

  /** The queue and the six cursors of every reachable state, in plain terms. */
  lemma ReachableCursors(nodeId: nat, ys: seq<Sys>, es: seq<Event>, k: nat)
    requires IsRun(nodeId, ys, es) && k < |ys|
    ensures var q := ys[k].ch.q;
      && |q.messages| == q.lastIndex + 1 - q.offset
      && (forall i :: 0 <= i < |q.messages| ==> q.messages[i].index == q.offset + i)
      && (ys[k].ch.role.Leader? ==>
            && q.offset - 1 <= q.sendacking <= q.storaging && q.offset - 1 <= q.delivering <= q.storaging
            && q.storaging <= q.permissionChecking <= q.payloadDecrypting <= q.lastIndex
            && (q.sendacking == q.delivering ==> q.offset - 1 == q.sendacking))
      && (ys[k].ch.role.Proxy? ==> q.offset - 1 == q.forwarding <= q.payloadDecrypting <= q.lastIndex)
  {
    RunInv(nodeId, ys, es, k);
    var q := ys[k].ch.q;
    forall i | 0 <= i < |q.messages| ensures q.messages[i].index == q.offset + i { assert InOrder(q, ys[k].sent, i); }
  }

  /**
   In every reachable state a stage is `processing` exactly while its one request is out or its retry timer runs, never
   both; the request is a non-empty piece of the queue right behind the stage's cursor, unchanged since it was issued.
   */
  lemma ReachableFlags(nodeId: nat, ys: seq<Sys>, es: seq<Event>, k: nat, s: Stage)
    requires IsRun(nodeId, ys, es) && k < |ys|
    ensures var y := ys[k]; var r := y.ch.flags.Get(s);
      && (r.processing <==> s in y.pending || r.willRetry) && !(s in y.pending && r.willRetry)
      && (s in y.pending ==>
            var b := y.pending[s]; var at := y.ch.q.Cursor(s) + 1 - y.ch.q.offset;
            && s in StagesOf(y.ch.role) && b != [] && 0 <= at && at + |b| <= |y.ch.q.messages|
            && b == y.ch.q.messages[at..at + |b|] && y.ch.q.Cursor(s) + |b| <= y.ch.q.Upstream(s))
  {
    RunInv(nodeId, ys, es, k);
    var y := ys[k];
    assert SingleFlight(y.ch.flags.Get(s), s in y.pending);
    if s in y.pending { assert BatchInPlace(y.ch.q, s, y.pending[s]); }
  }

  // ---------------------------------------------------------------- roles

  /** The leader that the last successful initialisation or leadership change has named. */
  function Named(es: seq<Event>): (leader: nat) {
    if es == [] then 0
    else match es[|es| - 1]
      case InitAnswer(true, l) => l
      case Leadership(l) => l
      case _ => Named(es[..|es| - 1])
  }

  /** An initialized channel is the leader exactly if this node was named last, and otherwise a proxy of the node that was. */
  lemma {:induction false} RoleFollowsElections(nodeId: nat, ys: seq<Sys>, es: seq<Event>, k: nat)
    requires IsRun(nodeId, ys, es) && k < |ys|
    ensures ys[k].ch.nodeId == nodeId && (ys[k].ch.initialized <==> !ys[k].ch.role.Unknown?)
    ensures ys[k].ch.role.Leader? ==> Named(es[..k]) == nodeId
    ensures ys[k].ch.role.Proxy? ==> Named(es[..k]) != nodeId && ys[k].ch.leaderId == Named(es[..k])
  {
    if k > 0 {
      RoleFollowsElections(nodeId, ys, es, k - 1);
      NamedOn(es, k - 1);
      ElectionStep(nodeId, ys, es, k - 1);
    }
  }

  lemma NamedOn(es: seq<Event>, k: nat)
    requires k < |es|
    ensures Named(es[..k + 1]) ==
            if (es[k].InitAnswer? && es[k].ok) || es[k].Leadership? then es[k].leaderId else Named(es[..k])
  {
    assert es[..k + 1][..k] == es[..k] && es[..k + 1][k] == es[k];
  }

  lemma ElectionStep(nodeId: nat, ys: seq<Sys>, es: seq<Event>, k: nat)
    requires IsRun(nodeId, ys, es) && k < |es|
    ensures var c, c', e := ys[k].ch, ys[k + 1].ch, es[k];
      && c'.nodeId == c.nodeId
      && (e.InitAnswer? && e.ok ==> c'.initialized && c'.role == (if e.leaderId == c.nodeId then Leader else Proxy))
      && (e.InitAnswer? && e.ok && c'.role.Proxy? ==> c'.leaderId == e.leaderId)
      && (e.Leadership? ==> c'.initialized == c.initialized && (if c.role.Unknown? then c'.role == Unknown
            else c'.role == (if e.leaderId == c.nodeId then Leader else Proxy) && (c'.role.Proxy? ==> c'.leaderId == e.leaderId)))
      && (!e.Leadership? && !(e.InitAnswer? && e.ok) ==> c'.role == c.role && c'.leaderId == c.leaderId && c'.initialized == c.initialized)
  {
    RunInv(nodeId, ys, es, k);
    match es[k]
    case Answer(s, env) =>
      if WorkAction(s, ys[k].pending[s], env).ok { AnswerKeepsRole(ys[k], s, env); }
    case Incoming(ms) => AppendAllGrows(ys[k].ch.q, ms);
    case _ =>
  }

  lemma AnswerKeepsRole(y: Sys, s: Stage, env: Env)
    requires Occurs(y, Answer(s, env)) && Safe(y, Answer(s, env))
    ensures var c, c' := y.ch, Next(y, Answer(s, env)).ch;
      c'.nodeId == c.nodeId && c'.role == c.role && c'.leaderId == c.leaderId && c'.initialized == c.initialized
  {
  }

  // ---------------------------------------------------------------- conservation

  /** Every message ever taken in is still queued, in its place, or was finished as it should be. */
  lemma Conservation(nodeId: nat, ys: seq<Sys>, es: seq<Event>, k: nat, i: nat)
    requires IsRun(nodeId, ys, es) && k < |ys| && 1 <= i <= |ys[k].sent|
    ensures var y := ys[k];
      if i >= y.ch.q.offset
      then i - y.ch.q.offset < |y.ch.q.messages| && SameMessage(y.ch.q.messages[i - y.ch.q.offset], y.sent[i - 1])
      else Settled(y.done, i)
  {
    RunInv(nodeId, ys, es, k);
    var y := ys[k];
    if i >= y.ch.q.offset { assert InOrder(y.ch.q, y.sent, i - y.ch.q.offset); }
  }

  /** `done` only grows by the batch of a stage that just answered with success, in the epoch of that moment. */
  lemma DoneIsEarned(y: Sys, e: Event, d: Done)
    requires Inv(y) && Occurs(y, e) && Safe(y, e) && d in Next(y, e).done && d !in y.done
    ensures e.Answer? && d.stage == e.stage && d.epoch == y.epoch && WorkAction(e.stage, y.pending[e.stage], e.env).ok
    ensures exists m <- y.pending[e.stage] :: m.index == d.index
  {
  }

  /** At this moment of a run the worker of `d.stage` succeeded, in epoch `d.epoch`, on a batch with message `d.index`. */
  ghost predicate FinishesNow(y: Sys, e: Event, d: Done) {
    && e.Answer? && e.stage == d.stage && y.epoch == d.epoch && Occurs(y, e)
    && WorkAction(e.stage, y.pending[e.stage], e.env).ok
    && exists m <- y.pending[e.stage] :: m.index == d.index
  }

  lemma {:induction false} DoneHappened(nodeId: nat, ys: seq<Sys>, es: seq<Event>, k: nat, d: Done) returns (j: nat)
    requires IsRun(nodeId, ys, es) && k < |ys| && d in ys[k].done
    ensures j < k && FinishesNow(ys[j], es[j], d)
  {
    if k > 0 {
      if d in ys[k - 1].done {
        j := DoneHappened(nodeId, ys, es, k - 1, d);
      } else {
        j := k - 1;
        DoneNow(nodeId, ys, es, j, d);
      }
    }
  }

  lemma DoneNow(nodeId: nat, ys: seq<Sys>, es: seq<Event>, j: nat, d: Done)
    requires IsRun(nodeId, ys, es) && j < |es| && d in ys[j + 1].done && d !in ys[j].done
    ensures FinishesNow(ys[j], es[j], d)
  {
    RunInv(nodeId, ys, es, j);
    DoneIsEarned(ys[j], es[j], d);
  }

  /**
   A message leaves the queue only after the sendack worker and the deliver worker have both succeeded on it during one
   leadership, or the forward worker has, whatever role changes the run went through.
   */
  lemma LeavesOnlyFinished(nodeId: nat, ys: seq<Sys>, es: seq<Event>, k: nat, i: nat)
    requires IsRun(nodeId, ys, es) && k < |ys| && 1 <= i < ys[k].ch.q.offset
    ensures
      || (exists a: nat, b: nat, e: nat :: a < k && b < k && FinishesNow(ys[a], es[a], Done(e, Sendack, i)) && FinishesNow(ys[b], es[b], Done(e, Deliver, i)))
      || (exists a: nat, e: nat :: a < k && FinishesNow(ys[a], es[a], Done(e, Forward, i)))
  {
    RunInv(nodeId, ys, es, k);
    var done := ys[k].done;
    assert Settled(done, i);
    if e: nat :| Done(e, Sendack, i) in done && Done(e, Deliver, i) in done {
      var a := DoneHappened(nodeId, ys, es, k, Done(e, Sendack, i));
      var b := DoneHappened(nodeId, ys, es, k, Done(e, Deliver, i));
    } else {
      var e: nat :| Done(e, Forward, i) in done;
      var a := DoneHappened(nodeId, ys, es, k, Done(e, Forward, i));
    }
  }

  /** A role change drops no message and no history. */
  lemma ResetLosesNothing(y: Sys, e: Event)
    requires Inv(y) && Occurs(y, e) && Safe(y, e) && Resets(y, e)
    ensures var y' := Next(y, e);
      && y'.ch.q.messages == y.ch.q.messages && y'.ch.q.offset == y.ch.q.offset && y'.ch.q.lastIndex == y.ch.q.lastIndex
      && y'.sent == y.sent && y'.done == y.done && y'.epoch == y.epoch + 1
      && forall s: Stage :: y'.ch.q.Cursor(s) == y.ch.q.offset - 1
  {
  }

  // ---------------------------------------------------------------- verdicts

  predicate Holds(q: Queue, i: nat, code: ReasonCode) {
    q.offset <= i && i - q.offset < |q.messages| && q.messages[i - q.offset].reason == code
  }

  /** What may happen outside to message `i` once its verdict is `code`. */
  predicate Respects(f: Effect, i: nat, code: ReasonCode) {
    match f
    case StoredMessage(m) => m.index != i
    case MaybeStoredMessage(m) => m.index != i
    case DeliveredMessage(m) => m.index != i
    case AckedMessage(a) => a.index == i ==> a.reason == code
    case ForwardedMessage(m) => m.index == i ==> m.reason == code
  }

  /** The effects of a worker respect the verdict its batch carries. */
  lemma EffectsRespect(s: Stage, batch: seq<Message>, env: Env, i: nat, code: ReasonCode, f: Effect)
    requires code != ReasonSuccess && f in WorkEffects(s, batch, env)
    requires forall m <- batch :: m.index == i ==> m.reason == code
    ensures Respects(f, i, code)
  {
    match s
    case Storage =>
      var k :| 0 <= k < |Stored(batch)| && f.m == Stored(batch)[k];
      SelectMember(batch, Storable, Stored(batch)[k]);
    case Deliver =>
      var k :| 0 <= k < |Deliverable(batch)| && f == DeliveredMessage(Deliverable(batch)[k]);
      SelectMember(batch, Accepted, Deliverable(batch)[k]);
    case Sendack =>
      var acks := Acks(batch, env.systemDevice);
      var k :| 0 <= k < |acks| && f == AckedMessage(acks[k]);
      AcksMember(batch, env.systemDevice, acks[k]);
    case Forward =>
      var k :| 0 <= k < |Forwarded(batch, env.forward)| && f == ForwardedMessage(Forwarded(batch, env.forward)[k]);
    case _ =>
  }

  lemma MovesKeepVerdict(q: Queue, q': Queue, s: Stage, n: nat, i: nat, code: ReasonCode)
    requires Moves(q, q', s, n) && code != ReasonSuccess && Holds(q, i, code)
    ensures i >= q'.offset ==> Holds(q', i, code)
  {
    if i >= q'.offset { assert Follows(q.messages[i - q.offset], q'.messages[i - q'.offset], s, q.Cursor(s), n); }
  }

  lemma BatchHolds(q: Queue, sent: seq<Message>, s: Stage, batch: seq<Message>, i: nat, code: ReasonCode)
    requires QueueInv(q, sent) && BatchInPlace(q, s, batch) && Holds(q, i, code)
    ensures forall m <- batch :: m.index == i ==> m.reason == code
  {
    BatchFacts(q, sent, s, batch);
    forall k | 0 <= k < |batch| && batch[k].index == i ensures batch[k].reason == code {
      assert batch[k] == q.messages[q.Cursor(s) + 1 - q.offset + k];
    }
  }

  lemma WorkRespects(y: Sys, s: Stage, env: Env, i: nat, code: ReasonCode)
    requires Inv(y) && Occurs(y, Answer(s, env)) && code != ReasonSuccess && Holds(y.ch.q, i, code)
    ensures forall f <- WorkEffects(s, y.pending[s], env) :: Respects(f, i, code)
  {
    BatchHolds(y.ch.q, y.sent, s, y.pending[s], i, code);
    forall f | f in WorkEffects(s, y.pending[s], env) ensures Respects(f, i, code) {
      EffectsRespect(s, y.pending[s], env, i, code, f);
    }
  }

  lemma AnswerKeepsVerdict(y: Sys, s: Stage, env: Env, i: nat, code: ReasonCode)
    requires Inv(y) && Occurs(y, Answer(s, env)) && Safe(y, Answer(s, env))
    requires code != ReasonSuccess && Holds(y.ch.q, i, code)
    ensures var q' := Next(y, Answer(s, env)).ch.q; i >= q'.offset ==> Holds(q', i, code)
  {
    var q' := AnswerQueue(y, s, env);
    if WorkAction(s, y.pending[s], env).ok {
      MovesKeepVerdict(y.ch.q, q', s, y.ch.q.Cursor(s) + |y.pending[s]|, i, code);
    }
  }

  lemma StepKeepsVerdict(y: Sys, e: Event, i: nat, code: ReasonCode)
    requires Inv(y) && Occurs(y, e) && Safe(y, e)
    requires code != ReasonSuccess && Holds(y.ch.q, i, code)
    ensures var y' := Next(y, e);
      && (i >= y'.ch.q.offset ==> Holds(y'.ch.q, i, code))
      && y.log <= y'.log
      && forall k :: |y.log| <= k < |y'.log| ==> Respects(y'.log[k], i, code)
  {
    match e
    case Answer(s, env) =>
      AnswerKeepsVerdict(y, s, env, i, code);
      WorkRespects(y, s, env, i, code);
    case Incoming(ms) => AppendAllGrows(y.ch.q, ms);
    case _ =>
  }

  /** What the verdict `code` of message `i` in state `y` says about a later state `z`. */
  ghost predicate StaysFailed(y: Sys, z: Sys, i: nat, code: ReasonCode) {
    && (i >= z.ch.q.offset ==> Holds(z.ch.q, i, code))
    && y.log <= z.log && y.ch.q.offset <= z.ch.q.offset
    && forall n :: |y.log| <= n < |z.log| ==> Respects(z.log[n], i, code)
  }

  lemma StaysFailedStep(y: Sys, z: Sys, e: Event, i: nat, code: ReasonCode)
    requires Inv(z) && Occurs(z, e) && Safe(z, e) && code != ReasonSuccess && StaysFailed(y, z, i, code)
    ensures StaysFailed(y, Next(z, e), i, code)
  {
    OffsetGrows(z, e);
    if i >= z.ch.q.offset { StepKeepsVerdict(z, e, i, code); } else { GoneStaysSilent(z, e, i); }
  }

  /** Once a message has failed, every later state of the run that still queues it shows the same code. */
  lemma {:induction false} VerdictIsFinal(nodeId: nat, ys: seq<Sys>, es: seq<Event>, j: nat, k: nat, i: nat, code: ReasonCode)
    requires IsRun(nodeId, ys, es) && j <= k < |ys|
    requires code != ReasonSuccess && Holds(ys[j].ch.q, i, code)
    ensures StaysFailed(ys[j], ys[k], i, code)
    decreases k
  {
    if j < k {
      VerdictIsFinal(nodeId, ys, es, j, k - 1, i, code);
      RunInv(nodeId, ys, es, k - 1);
      assert IsStep(ys[k - 1], es[k - 1], ys[k]);
      StaysFailedStep(ys[j], ys[k - 1], es[k - 1], i, code);
    }
  }

  lemma OffsetGrows(y: Sys, e: Event)
    requires Inv(y) && Occurs(y, e) && Safe(y, e)
    ensures y.ch.q.offset <= Next(y, e).ch.q.offset
  {
    match e
    case Answer(s, env) => var q' := AnswerQueue(y, s, env);
    case Incoming(ms) => AppendAllGrows(y.ch.q, ms);
    case _ =>
  }

  /** The message that an effect is about. */
  function About(f: Effect): nat {
    match f
    case StoredMessage(m) => m.index
    case MaybeStoredMessage(m) => m.index
    case DeliveredMessage(m) => m.index
    case AckedMessage(a) => a.index
    case ForwardedMessage(m) => m.index
  }

  /** Every effect of a worker is about a message of its batch. */
  lemma EffectIsOfBatch(s: Stage, batch: seq<Message>, env: Env, f: Effect) returns (m: Message)
    requires f in WorkEffects(s, batch, env)
    ensures m in batch && m.index == About(f)
  {
    match s
    case Storage =>
      m := f.m;
      SelectMember(batch, Storable, m);
    case Deliver =>
      m := f.m;
      SelectMember(batch, Accepted, m);
    case Sendack =>
      AcksMember(batch, env.systemDevice, f.ack);
      m :| m in batch && m.sender.deviceId != env.systemDevice && f.ack == AckOf(m);
    case Forward =>
      m := f.m;
    case _ =>
  }

  ghost predicate SilentSince(log: seq<Effect>, log': seq<Effect>, i: nat) {
    log <= log' && forall n :: |log| <= n < |log'| ==> About(log'[n]) != i
  }

  /** No step does anything about a message that has left the queue. */
  lemma GoneStaysSilent(y: Sys, e: Event, i: nat)
    requires Inv(y) && Occurs(y, e) && Safe(y, e) && i < y.ch.q.offset
    ensures SilentSince(y.log, Next(y, e).log, i)
  {
    match e
    case Answer(s, env) =>
      BatchFacts(y.ch.q, y.sent, s, y.pending[s]);
      forall f | f in WorkEffects(s, y.pending[s], env) ensures About(f) != i {
        var m := EffectIsOfBatch(s, y.pending[s], env, f);
        var k :| 0 <= k < |y.pending[s]| && y.pending[s][k] == m;
      }
    case _ =>
  }

  /** Nor does any later step of the run. */
  lemma {:induction false} GoneForGood(nodeId: nat, ys: seq<Sys>, es: seq<Event>, j: nat, k: nat, i: nat)
    requires IsRun(nodeId, ys, es) && j <= k < |ys| && i < ys[j].ch.q.offset
    ensures i < ys[k].ch.q.offset && SilentSince(ys[j].log, ys[k].log, i)
    decreases k
  {
    if j < k {
      GoneForGood(nodeId, ys, es, j, k - 1, i);
      GoneNow(nodeId, ys, es, k - 1, ys[j].log, i);
    }
  }

  lemma GoneNow(nodeId: nat, ys: seq<Sys>, es: seq<Event>, k: nat, log: seq<Effect>, i: nat)
    requires IsRun(nodeId, ys, es) && k < |es| && i < ys[k].ch.q.offset && SilentSince(log, ys[k].log, i)
    ensures i < ys[k + 1].ch.q.offset && SilentSince(log, ys[k + 1].log, i)
  {
    RunInv(nodeId, ys, es, k);
    OffsetGrows(ys[k], es[k]);
    GoneStaysSilent(ys[k], es[k], i);
  }

  /** A message that belongs into the store: accepted, readable, and not one that asks not to be kept. */
  predicate ForTheStore(m: Message) {
    m.reason == ReasonSuccess && !m.isEncrypt && m.packet.Some? && m.packet.value.noPersist == false
  }

  /** Only accepted messages are stored or delivered, in any run. */
  lemma OnlyAcceptedLeave(y: Sys, e: Event, k: nat)
    requires Occurs(y, e) && Safe(y, e) && |y.log| <= k < |Next(y, e).log|
    ensures match Next(y, e).log[k]
      case StoredMessage(m) => e.Answer? && e.stage == Storage && m in y.pending[Storage] && ForTheStore(m) && !e.env.store.failed
      case MaybeStoredMessage(m) => e.Answer? && e.stage == Storage && m in y.pending[Storage] && ForTheStore(m) && e.env.store.failed
      case DeliveredMessage(m) => e.Answer? && e.stage == Deliver && m in y.pending[Deliver] && m.reason == ReasonSuccess
      case AckedMessage(a) => e.Answer? && e.stage == Sendack && exists m <- y.pending[Sendack] :: m.sender.deviceId != e.env.systemDevice && a == AckOf(m)
      case ForwardedMessage(m) => e.Answer? && e.stage == Forward && m in y.pending[Forward]
  {
    var s, batch := e.stage, y.pending[e.stage];
    var f := WorkEffects(s, batch, e.env)[k - |y.log|];
    match s
    case Storage => SelectMember(batch, Storable, f.m);
    case Deliver => SelectMember(batch, Accepted, f.m);
    case Sendack => AcksMember(batch, e.env.systemDevice, f.ack);
    case _ =>
  }

  /** A sendack worker tells every sender but the system device the verdict of its message. */
  lemma EverySenderIsTold(y: Sys, env: Env, m: Message)
    requires Occurs(y, Answer(Sendack, env)) && Safe(y, Answer(Sendack, env))
    requires m in y.pending[Sendack] && m.sender.deviceId != env.systemDevice
    ensures AckedMessage(AckOf(m)) in Next(y, Answer(Sendack, env)).log
  {
    var acks := Acks(y.pending[Sendack], env.systemDevice);
    AcksMember(y.pending[Sendack], env.systemDevice, AckOf(m));
    var k :| 0 <= k < |acks| && acks[k] == AckOf(m);
    assert AckEffects(acks)[k] == AckedMessage(acks[k]);
    assert Next(y, Answer(Sendack, env)).log == y.log + AckEffects(acks);
    assert (y.log + AckEffects(acks))[|y.log| + k] == AckedMessage(AckOf(m));
  }

  /** End to end: whoever's message failed hears exactly that verdict when the sendack stage reaches it. */
  lemma FailedSenderIsTold(nodeId: nat, ys: seq<Sys>, es: seq<Event>, j: nat, k: nat, code: ReasonCode, env: Env, m: Message)
    requires IsRun(nodeId, ys, es) && j <= k < |es| && es[k] == Answer(Sendack, env)
    requires Occurs(ys[k], es[k]) && m in ys[k].pending[Sendack] && m.sender.deviceId != env.systemDevice
    requires code != ReasonSuccess && Holds(ys[j].ch.q, m.index, code)
    ensures AckedMessage(Ack(m.id, m.index, m.seqNo, code, m.sender)) in ys[k + 1].log
  {
    var y := ys[k];
    RunInv(nodeId, ys, es, k);
    assert IsStep(y, es[k], ys[k + 1]);
    VerdictIsFinal(nodeId, ys, es, j, k, m.index, code);
    BatchFacts(y.ch.q, y.sent, Sendack, y.pending[Sendack]);
    var n :| 0 <= n < |y.pending[Sendack]| && y.pending[Sendack][n] == m;
    BatchHolds(y.ch.q, y.sent, Sendack, y.pending[Sendack], m.index, code);
    EverySenderIsTold(y, env, m);
  }
}
