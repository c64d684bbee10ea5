/** Nothing gets stuck: every success moves the pipeline forward, and there is always something to do. */
module ChannelProgress {
  import opened Messages
  import opened ChannelSpec
  import opened Stages
  import opened ChannelRuns
  import opened ChannelInvariant
  import opened ChannelTheorems

  /** Work left for one stage. */
  function Left(q: Queue, s: Stage): int { q.lastIndex - q.Cursor(s) }

  /** Work left for all stages of the role. */
  function Total(q: Queue, role: Role): int {
    match role
    case Unknown => 0
    case Leader => Left(q, Decrypt) + Left(q, Permission) + Left(q, Storage) + Left(q, Sendack) + Left(q, Deliver)
    case Proxy => Left(q, Decrypt) + Left(q, Forward)
  }

  function Work(y: Sys): int { Total(y.ch.q, y.ch.role) }

  lemma TotalDrops(q: Queue, q': Queue, role: Role, s: Stage, n: nat)
    requires s in StagesOf(role) && !role.Unknown? && q'.lastIndex == q.lastIndex
    requires forall t: Stage :: q'.Cursor(t) == if t == s then n else q.Cursor(t)
    ensures Total(q', role) == Total(q, role) - (n - q.Cursor(s))
  {
  }

  lemma WorkIsCounted(y: Sys)
    requires Inv(y)
    ensures Work(y) >= 0
    ensures !y.ch.role.Unknown? && Work(y) == 0 ==> y.ch.q.messages == []
  {
  }

  /** A success finishes at least one message of its stage and undoes nothing of any other. */
  lemma SuccessIsProgress(y: Sys, s: Stage, env: Env)
    requires Inv(y) && Occurs(y, Answer(s, env)) && Safe(y, Answer(s, env))
    ensures var y' := Next(y, Answer(s, env));
      if WorkAction(s, y.pending[s], env).ok then Work(y') == Work(y) - |y.pending[s]| else Work(y') == Work(y)
  {
    var q' := AnswerQueue(y, s, env);
    if WorkAction(s, y.pending[s], env).ok {
      TotalDrops(y.ch.q, q', y.ch.role, s, y.ch.q.Cursor(s) + |y.pending[s]|);
    }
  }

  /** Only new messages and role changes bring new work. */
  lemma NothingElseAddsWork(y: Sys, e: Event)
    requires Inv(y) && Occurs(y, e) && Safe(y, e) && !e.Answer? && !e.Incoming? && !Resets(y, e)
    ensures Work(Next(y, e)) == Work(y)
  {
  }

  /** With work left, no request out and no retry timer running, the reactor's next pass issues a request. */
  lemma SomeStageIsReady(y: Sys)
    requires Inv(y) && !y.ch.role.Unknown? && Work(y) > 0
    requires forall s: Stage :: s !in y.pending && !y.ch.flags.Get(s).willRetry
    ensures ReadySafe(y.ch) && exists s <- StagesOf(y.ch.role) :: s in Requests(y.ch)
  {
    ReadyKeeps(y);
    var q := y.ch.q;
    forall s: Stage ensures !y.ch.flags.Get(s).processing { assert SingleFlight(y.ch.flags.Get(s), s in y.pending); }
    var s := if q.Cursor(Decrypt) < q.lastIndex then Decrypt
             else if y.ch.role.Proxy? then Forward
             else if q.Cursor(Permission) < q.Cursor(Decrypt) then Permission
             else if q.Cursor(Storage) < q.Cursor(Permission) then Storage
             else if q.Cursor(Sendack) < q.Cursor(Storage) then Sendack else Deliver;
    assert Enabled(y.ch, s);
    StageBounds(q, y.ch.role, s);
    BatchIsPlaced(q, s);
  }

  /** Ticks still to wait until a failed stage is free again. */
  function Wait(r: ReadyState): int {
    if r.willRetry then RETRY_TICKS - r.retryTick else 0
  }

  function Waits(y: Sys): int {
    var f := y.ch.flags;
    Wait(f.Get(Decrypt)) + Wait(f.Get(Permission)) + Wait(f.Get(Storage)) + Wait(f.Get(Sendack)) + Wait(f.Get(Deliver)) + Wait(f.Get(Forward))
  }

  /** The environment answers everything favourably. */
  function Favourable(batch: seq<Message>): Env {
    Env(seq(|batch|, _ => Online([], false)),
        Access(Info, false, false, {}, true, _ => Local, (_, _) => Known(false), (_, _) => Known(true), _ => Known(true), Known(false)),
        StoreReply(false, [], Off), "", LeaderAccepts)
  }

  predicate Quiet(e: Event) {
    e.Ready? || e.Tick? || e.Answer?
  }

  /** `es` are events of the reactor and its workers alone that lead from `y` to `z`. */
  ghost predicate Leads(y: Sys, es: seq<Event>, z: Sys)
    decreases |es|
  {
    if es == [] then y == z
    else Quiet(es[0]) && Occurs(y, es[0]) && Safe(y, es[0]) && Leads(Next(y, es[0]), es[1..], z)
  }

  function Todo(y: Sys): int {
    if exists s: Stage :: s in y.pending then 0 else 1
  }

  /** One step of the reactor or a worker that brings the end nearer. */
  ghost predicate Nearer(y: Sys, e: Event) {
    && Quiet(e) && Occurs(y, e) && Safe(y, e)
    && var z := Next(y, e);
      && Inv(z) && z.ch.role == y.ch.role && z.sent == y.sent
      && Work(z) >= 0 && Waits(z) >= 0
      && (|| Work(z) < Work(y)
          || (Work(z) == Work(y) && Waits(z) < Waits(y))
          || (Work(z) == Work(y) && Waits(z) == Waits(y) && Todo(z) < Todo(y)))
  }

  lemma WaitsAreCounted(y: Sys)
    requires Inv(y)
    ensures Waits(y) >= 0
    ensures Waits(y) == 0 ==> forall s: Stage :: !y.ch.flags.Get(s).willRetry
  {
    forall s: Stage ensures Wait(y.ch.flags.Get(s)) >= 0 { assert SingleFlight(y.ch.flags.Get(s), s in y.pending); }
  }

  lemma FavourableSucceeds(y: Sys, s: Stage)
    requires Inv(y) && s in y.pending
    ensures Occurs(y, Answer(s, Favourable(y.pending[s])))
    ensures WorkAction(s, y.pending[s], Favourable(y.pending[s])).ok && |y.pending[s]| >= 1
  {
    assert BatchInPlace(y.ch.q, s, y.pending[s]);
  }

  lemma AnswerIsNearer(y: Sys, s: Stage)
    requires Inv(y) && s in y.pending
    ensures Nearer(y, Answer(s, Favourable(y.pending[s])))
  {
    var e := Answer(s, Favourable(y.pending[s]));
    FavourableSucceeds(y, s);
    StepKeeps(y, e);
    SuccessIsProgress(y, s, e.env);
    WorkIsCounted(Next(y, e));
    WaitsAreCounted(Next(y, e));
  }

  lemma TickIsNearer(y: Sys)
    requires Inv(y) && Waits(y) > 0
    ensures Nearer(y, Tick)
  {
    StepKeeps(y, Tick);
    NothingElseAddsWork(y, Tick);
    WorkIsCounted(y);
    var f, f' := y.ch.flags, Next(y, Tick).ch.flags;
    forall s: Stage ensures f'.Get(s) == TickState(f.Get(s)) && 0 <= Wait(f'.Get(s)) <= Wait(f.Get(s)) && (Wait(f.Get(s)) > 0 ==> Wait(f'.Get(s)) < Wait(f.Get(s))) {
      assert SingleFlight(f.Get(s), s in y.pending);
    }
  }

  lemma ReadyIsNearer(y: Sys)
    requires Inv(y) && !y.ch.role.Unknown? && Work(y) > 0 && Waits(y) == 0 && forall s: Stage :: s !in y.pending
    ensures Nearer(y, Ready)
  {
    WaitsAreCounted(y);
    SomeStageIsReady(y);
    StepKeeps(y, Ready);
    NothingElseAddsWork(y, Ready);
    var z := Next(y, Ready);
    var s :| s in Requests(y.ch);
    assert s in z.pending;
    forall t: Stage ensures Wait(z.ch.flags.Get(t)) == Wait(y.ch.flags.Get(t)) { }
  }

  /** What the reactor does next: take an answer, wait for a retry timer, or issue requests. */
  lemma NextQuietStep(y: Sys) returns (e: Event)
    requires Inv(y) && !y.ch.role.Unknown? && Work(y) > 0
    ensures Nearer(y, e)
  {
    WaitsAreCounted(y);
    if s: Stage :| s in y.pending {
      e := Answer(s, Favourable(y.pending[s]));
      AnswerIsNearer(y, s);
    } else if Waits(y) > 0 {
      e := Tick;
      TickIsNearer(y);
    } else {
      e := Ready;
      ReadyIsNearer(y);
    }
  }

  /** From every reachable leader or proxy state the queue can be drained by the reactor and its workers alone. */
  lemma {:induction false} CanDrain(y: Sys) returns (es: seq<Event>, z: Sys)
    requires Inv(y) && !y.ch.role.Unknown?
    ensures Leads(y, es, z) && z.ch.q.messages == [] && z.sent == y.sent
    decreases Work(y), Waits(y), Todo(y)
  {
    WorkIsCounted(y);
    if Work(y) == 0 { return [], y; }
    var e := NextQuietStep(y);
    var rest;
    rest, z := CanDrain(Next(y, e));
    es := [e] + rest;
    assert es[1..] == rest;
  }

  // ---------------------------------------------------------------- becoming initialized

  predicate Starting(e: Event) { e.Ready? || e.Tick? || e.InitAnswer? }

  ghost predicate StartsBy(y: Sys, es: seq<Event>, z: Sys)
    decreases |es|
  {
    if es == [] then y == z
    else Starting(es[0]) && Occurs(y, es[0]) && Safe(y, es[0]) && StartsBy(Next(y, es[0]), es[1..], z)
  }

  /** What a channel waits for that is not initialized yet. */
  function ToStart(y: Sys): int {
    if y.initPending then 0 else if y.ch.init.willRetry then 2 + Wait(y.ch.init) else 1
  }

  lemma StartStep(y: Sys, e: Event)
    requires Inv(y) && y.ch.role.Unknown? && !y.initPending && e == (if y.ch.init.willRetry then Tick else Ready)
    ensures Occurs(y, e) && Safe(y, e) && Inv(Next(y, e)) && Next(y, e).ch.role.Unknown?
    ensures 0 <= ToStart(Next(y, e)) < ToStart(y) && Next(y, e).ch.q == y.ch.q && Next(y, e).sent == y.sent
  {
    StepKeeps(y, e);
    assert SingleFlight(y.ch.init, y.initPending);
  }

  /** From every reachable state in which the channel has no role yet, also after failed attempts, it can take one. */
  lemma {:induction false} CanStart(y: Sys, leaderId: nat) returns (es: seq<Event>, z: Sys)
    requires Inv(y) && y.ch.role.Unknown?
    ensures StartsBy(y, es, z) && z.ch.initialized && z.ch.q.messages == y.ch.q.messages && z.sent == y.sent
    ensures z.ch.role == if leaderId == y.ch.nodeId then Leader else Proxy
    decreases ToStart(y)
  {
    assert SingleFlight(y.ch.init, y.initPending);
    var e := if y.initPending then InitAnswer(true, leaderId) else if y.ch.init.willRetry then Tick else Ready;
    if y.initPending {
      StepKeeps(y, e);
      z := Next(y, e);
      es := [e];
      assert es[1..] == [];
    } else {
      StartStep(y, e);
      var rest;
      rest, z := CanStart(Next(y, e), leaderId);
      es := [e] + rest;
      assert es[1..] == rest;
    }
  }
}
