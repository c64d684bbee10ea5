/**
 Why a run may not answer a request from before a role change. The source tells answers apart by
 the channel's unique number only, and a role change keeps that number.
 */
module ChannelStale {
  import opened Messages
  import opened ChannelSpec
  import opened Stages
  import opened ChannelRuns
  import opened ChannelTheorems
  import opened ChannelReach

  /**
   For an answer to any stage of the role, with any index: it stays in range and leaves the cursor chain whole
   exactly when the stage before it has reached that index.
   */
  lemma AnswerKeepsChainIff(c: Chan, a: Action)
    requires !c.role.Unknown? && Shape(c.q) && CursorChain(c.q, c.role)
    requires a.Resp? && a.ok && a.stage in StagesOf(c.role)
    ensures StepSafe(c, a) && CursorChain(AfterStep(c, a).q, c.role) <==> Target(a) <= c.q.Upstream(a.stage)
  {
    var q, s, n := c.q, a.stage, Target(a);
    if Advances(c, a) && StepSafe(c, a) {
      var q' := AfterSuccess(c, a);
      if c.role.Leader? { LeaderChainIff(q, q', s, n); } else { ProxyChainIff(q, q', s, n); }
    } else if Advances(c, a) {
      UnsafeIsBeyond(c, a);
    }
  }

  /**
   An answer of a stage that the channel's role does not have, such as one that comes late after a role change, changes
   nothing at all, whatever it says.
   */
  lemma ForeignAnswerIsIgnored(c: Chan, a: Action)
    requires a.Resp?
    requires match c.role
      case Leader => a.stage.Forward?
      case Proxy => a.stage.Permission? || a.stage.Storage? || a.stage.Sendack? || a.stage.Deliver?
      case Unknown => !a.stage.Decrypt?
    ensures StepSafe(c, a) && AfterStep(c, a) == c
  {
  }

  lemma AfterSuccess(c: Chan, a: Action) returns (q': Queue)
    requires a.Resp? && Advances(c, a) && StepSafe(c, a)
    ensures q' == AfterStep(c, a).q && q'.lastIndex == c.q.lastIndex
    ensures forall t: Stage :: q'.Cursor(t) == if t == a.stage then Target(a) else c.q.Cursor(t)
    ensures q'.offset == if Drops(c.q, a.stage, Target(a)) then Target(a) + 1 else c.q.offset
  {
    q' := AfterStep(c, a).q;
  }

  lemma LeaderChainIff(q: Queue, q': Queue, s: Stage, n: nat)
    requires Shape(q) && CursorChain(q, Leader) && s in StagesOf(Leader) && n > q.Cursor(s) && q'.lastIndex == q.lastIndex
    requires forall t: Stage :: q'.Cursor(t) == if t == s then n else q.Cursor(t)
    requires q'.offset == if Drops(q, s, n) then n + 1 else q.offset
    ensures CursorChain(q', Leader) <==> n <= q.Upstream(s)
  {
    match s case _ =>
  }

  lemma ProxyChainIff(q: Queue, q': Queue, s: Stage, n: nat)
    requires Shape(q) && CursorChain(q, Proxy) && s in StagesOf(Proxy) && n > q.Cursor(s) && q'.lastIndex == q.lastIndex
    requires forall t: Stage :: q'.Cursor(t) == if t == s then n else q.Cursor(t)
    requires q'.offset == if Drops(q, s, n) then n + 1 else q.offset
    ensures CursorChain(q', Proxy) <==> n <= q.Upstream(s)
  {
    match s case _ =>
  }

  lemma UnsafeIsBeyond(c: Chan, a: Action)
    requires !c.role.Unknown? && Shape(c.q) && CursorChain(c.q, c.role)
    requires a.Resp? && Advances(c, a) && !StepSafe(c, a)
    ensures Target(a) > c.q.Upstream(a.stage)
  {
    match a.stage case _ =>
  }

  /** A message as it stands after decryption on a fresh channel. */
  function Readable(m: Message): Message { Decrypted(First(m), Online([], false)) }

  /** The state of a channel that has changed roles twice and has just sent its one message to decryption again. */
  function Restarted(leaderId: nat, m: Message): Chan {
    Chan(1, One(m, REWOUND), true, RoleOn(1, leaderId), if leaderId == 1 then 0 else leaderId, IDLE, Waiting({Decrypt}))
  }

  /** The stage that asks for a decrypted message, as leader or as proxy. */
  function Second(leaderId: nat): Stage { if leaderId == 1 then Permission else Forward }

  /**
   Every message can be where the two witnesses below start: its request of the first term is out, the channel changes
   roles and back, and asks for decryption again, all in one run.
   */
  lemma RestartIsReached(leaderId: nat, m: Message) returns (before: Sys, after: Sys)
    requires ChannelSpec.Queued(m)
    ensures Reaches(1, before) && before.pending == Asked({Second(leaderId)}, Readable(m))
    ensures Reaches(1, after) && after.ch == Restarted(leaderId, Readable(m)) && after.pending == Asked({Decrypt}, Readable(m))
    ensures before.epoch + 2 == after.epoch
  {
    var d, y := Readable(m), FirstTerm(1, m);
    var h := Holding(1, leaderId, d, DECRYPTED, y);
    ReachesDecrypted(1, leaderId, m, Online([], false));
    ReadyStep(1, leaderId, d, DECRYPTED, y, {Second(leaderId)});
    before := Asking({Second(leaderId)}, d, h);
    ReachesNext(1, h, Ready, before);
    after := SecondTerm(leaderId, d, y, before);
  }

  /** Away and back again, while that request is out. */
  lemma SecondTerm(leaderId: nat, d: Message, y: Sys, before: Sys) returns (after: Sys)
    requires Reaches(1, before) && before == Asking({Second(leaderId)}, d, Holding(1, leaderId, d, DECRYPTED, y))
    ensures Reaches(1, after) && after == Asking({Decrypt}, d, Holding(1, leaderId, d, REWOUND, y.(epoch := y.epoch + 2)))
  {
    var other := if leaderId == 1 then 2 else 1;
    var y1, y2 := y.(epoch := y.epoch + 1), y.(epoch := y.epoch + 2);
    var away, back := Holding(1, other, d, REWOUND, y1), Holding(1, leaderId, d, REWOUND, y2);
    RoleStep(1, leaderId, other, d, DECRYPTED, y, before);
    ReachesNext(1, before, Leadership(other), away);
    RoleStep(1, other, leaderId, d, REWOUND, y1, away);
    ReachesNext(1, away, Leadership(leaderId), back);
    DecryptIsNext(1, leaderId, d, y2);
    after := Asking({Decrypt}, d, back);
    ReachesNext(1, back, Ready, after);
  }

  /** What the worker of the first term answers, whatever the outside told it. */
  function LateAnswer(leaderId: nat, m: Message, env: Env): Action {
    WorkAction(Second(leaderId), [m], env)
  }

  /**
   A leader that was re-elected. The permission answer of its first term arrives while it waits for decryption; storage,
   sendack and deliver then run ahead of decryption and drop the message, and the decrypt answer that it is still
   waiting for indexes the queue at -1.
   */
  lemma StalePermissionAnswerCrashes(m: Message, env: Env)
    requires m.index == 1 && |env.conns| == 1
    ensures var c0 := Restarted(1, m); var late := LateAnswer(1, m, env);
      && late.ok && Target(late) == 1 > c0.q.Upstream(Permission)
      && StepSafe(c0, late)
      && var c1 := AfterStep(c0, late);
      && Enabled(c1, Storage) && StepSafe(c1, Resp(Storage, true, 1, [m]))
      && var c2 := AfterStep(c1, Resp(Storage, true, 1, [m]));
      && Enabled(c2, Sendack) && Enabled(c2, Deliver) && StepSafe(c2, Resp(Sendack, true, 1, []))
      && var c3 := AfterStep(c2, Resp(Sendack, true, 1, []));
      && StepSafe(c3, Resp(Deliver, true, 1, []))
      && var c4 := AfterStep(c3, Resp(Deliver, true, 1, []));
      && c4.q.messages == [] && !StepSafe(c4, WorkAction(Decrypt, [m], env))
  {
    var c1 := LatePermission(m, env);
    RunsAhead(c1, m, env);
  }

  lemma LatePermission(m: Message, env: Env) returns (c1: Chan)
    requires m.index == 1
    ensures var c0 := Restarted(1, m); var late := LateAnswer(1, m, env);
      late.ok && Target(late) == 1 > c0.q.Upstream(Permission) && StepSafe(c0, late) && c1 == AfterStep(c0, late)
    ensures c1 == Restarted(1, m).(q := One(c1.q.messages[0], REWOUND.(permission := 1))) && |c1.q.messages| == 1
  {
    assert CheckBatch([m], env.access)[0].index == 1;
    c1 := AfterStep(Restarted(1, m), LateAnswer(1, m, env));
  }

  lemma RunsAhead(c1: Chan, m: Message, env: Env)
    requires m.index == 1 && |env.conns| == 1 && |c1.q.messages| == 1
    requires c1 == Restarted(1, m).(q := One(c1.q.messages[0], REWOUND.(permission := 1)))
    ensures Enabled(c1, Storage) && StepSafe(c1, Resp(Storage, true, 1, [m]))
    ensures var c2 := AfterStep(c1, Resp(Storage, true, 1, [m]));
      && Enabled(c2, Sendack) && Enabled(c2, Deliver) && StepSafe(c2, Resp(Sendack, true, 1, []))
      && var c3 := AfterStep(c2, Resp(Sendack, true, 1, []));
      && StepSafe(c3, Resp(Deliver, true, 1, []))
      && var c4 := AfterStep(c3, Resp(Deliver, true, 1, []));
      && c4.q.messages == [] && !StepSafe(c4, WorkAction(Decrypt, [m], env))
  {
  }

  /** A proxy again. The forward answer of its first term drops the message, and the awaited decrypt answer indexes at -1. */
  lemma StaleForwardAnswerCrashes(m: Message, env: Env)
    requires m.index == 1 && |env.conns| == 1 && env.forward.LeaderAccepts?
    ensures var c0 := Restarted(2, m); var late := LateAnswer(2, m, env);
      && late.ok && Target(late) == 1 > c0.q.Upstream(Forward)
      && StepSafe(c0, late)
      && var c1 := AfterStep(c0, late);
      && c1.q.messages == [] && !StepSafe(c1, WorkAction(Decrypt, [m], env))
  {
  }
}
