/** How a channel with a single message gets from one state to the next: the steps that concrete runs are built of. */
module ChannelReach {
  import opened Options
  import opened Messages
  import opened ChannelSpec
  import opened Stages
  import opened ChannelRuns
  import opened ChannelInvariant
  import opened ChannelTheorems
  import Channel

  /** Some run of a fresh channel on node `n` ends in `y`. */
  ghost predicate Reaches(n: nat, y: Sys) {
    exists ys: seq<Sys>, es: seq<Event> :: IsRun(n, ys, es) && ys[|es|] == y
  }

  lemma ReachesStart(n: nat)
    ensures Reaches(n, Start(n))
  {
    var ys: seq<Sys>, es: seq<Event> := [Start(n)], [];
    assert IsRun(n, ys, es) && ys[|es|] == Start(n);
  }

  lemma ReachesNext(n: nat, y: Sys, e: Event, y': Sys)
    requires Reaches(n, y) && IsStep(y, e, y')
    ensures Reaches(n, y')
  {
    var ys: seq<Sys>, es: seq<Event> :| IsRun(n, ys, es) && ys[|es|] == y;
    var ys', es' := ys + [y'], es + [e];
    forall k | 0 <= k < |es'| ensures IsStep(ys'[k], es'[k], ys'[k + 1]) {
      if k < |es| { assert IsStep(ys[k], es[k], ys[k + 1]); }
    }
    assert IsRun(n, ys', es') && ys'[|es'|] == y';
  }

  // ---------------------------------------------------------------- one message

  const BUSY := ReadyState(true, false, 0)

  /** The cursors of a queue that holds message 1 only. */
  datatype Cursors = Cursors(decrypt: nat, permission: nat, storage: nat, sendack: nat, deliver: nat, forward: nat)

  const REWOUND := Cursors(0, 0, 0, 0, 0, 0)

  function One(m: Message, c: Cursors): Queue {
    Queue([m], 1, 1, c.decrypt, c.permission, c.storage, c.sendack, c.deliver, c.forward)
  }

  function RoleOn(n: nat, leaderId: nat): Role { if leaderId == n then Leader else Proxy }

  /** Node `n` under leader `leaderId` with one message and nothing outstanding. */
  function Holding(n: nat, leaderId: nat, m: Message, c: Cursors, y: Sys): Sys {
    y.(ch := Chan(n, One(m, c), true, RoleOn(n, leaderId), if leaderId == n then 0 else leaderId, IDLE, ALL_IDLE),
       initPending := false, pending := map[])
  }

  /** Exactly the stages of `ss` are waiting for an answer. */
  function Waiting(ss: set<Stage>): (f: Flags)
    ensures forall t: Stage :: f.Get(t) == if t in ss then BUSY else IDLE
  {
    Flags(if Decrypt in ss then BUSY else IDLE, if Permission in ss then BUSY else IDLE, if Storage in ss then BUSY else IDLE,
          if Sendack in ss then BUSY else IDLE, if Deliver in ss then BUSY else IDLE, if Forward in ss then BUSY else IDLE)
  }

  function Asked(ss: set<Stage>, m: Message): map<Stage, seq<Message>> { map s <- ss :: [m] }

  /** The same with the requests of the stages `ss` outstanding. */
  function Asking(ss: set<Stage>, m: Message, y: Sys): Sys {
    y.(ch := y.ch.(flags := Waiting(ss)), pending := Asked(ss, m))
  }

  function First(m: Message): Message { m.(index := 1, reason := ReasonSuccess) }

  function Fresh(n: nat, leaderId: nat, m: Message): Sys {
    Holding(n, leaderId, First(m), REWOUND, Start(n).(epoch := 1, sent := [m]))
  }

  function Initializing(n: nat): Sys {
    Start(n).(ch := Start(n).ch.(init := BUSY), initPending := true)
  }

  function Elected(n: nat, leaderId: nat): Sys {
    Start(n).(ch := Chan(n, NewChan(n).q, true, RoleOn(n, leaderId), if leaderId == n then 0 else leaderId, IDLE, ALL_IDLE), epoch := 1)
  }

  lemma InitializingStep(n: nat)
    ensures IsStep(Start(n), Ready, Initializing(n))
  {
    var y := Start(n);
    assert y.pending + Requests(y.ch) == map[];
  }

  lemma ElectedStep(n: nat, leaderId: nat)
    ensures IsStep(Initializing(n), InitAnswer(true, leaderId), Elected(n, leaderId))
  {
  }

  lemma FreshStep(n: nat, leaderId: nat, m: Message)
    requires ChannelSpec.Queued(m)
    ensures IsStep(Elected(n, leaderId), Incoming([m]), Fresh(n, leaderId, m))
  {
    var q := NewChan(n).q;
    assert [m][..0] == [];
    assert AppendAll(q, [m]) == Append(AppendAll(q, []), m) == One(First(m), REWOUND);
    assert Taken([m]) == Taken([]) + [m] == [m];
  }

  /** A node becomes leader or proxy and takes in one message. */
  lemma ReachesFresh(n: nat, leaderId: nat, m: Message)
    requires ChannelSpec.Queued(m)
    ensures Reaches(n, Fresh(n, leaderId, m))
  {
    ReachesStart(n);
    InitializingStep(n);
    ReachesNext(n, Start(n), Ready, Initializing(n));
    ElectedStep(n, leaderId);
    ReachesNext(n, Initializing(n), InitAnswer(true, leaderId), Elected(n, leaderId));
    FreshStep(n, leaderId, m);
    ReachesNext(n, Elected(n, leaderId), Incoming([m]), Fresh(n, leaderId, m));
  }

  // ---------------------------------------------------------------- a request and its answer

  /** What the workers are answered; `World` leaves open only what the stage in question asks for. */
  function World(conns: seq<Connection>, access: Access, forward: ForwardReply): Env {
    Env(conns, access, StoreReply(false, [], Off), "", forward)
  }

  const OPEN := Access(Info, false, false, {}, true, _ => Local, (_, _) => Known(false), (_, _) => Known(true), _ => Known(true), Known(false))

  lemma BatchOfOne(q: Queue, s: Stage, m: Message)
    requires q.messages == [m] && q.offset == 1 && q.Cursor(s) == 0 && q.Upstream(s) == 1
    ensures BatchSafe(q, s) && Batch(q, s) == [m]
  {
    assert q.messages[0..1] == [m];
    LimitIsPrefix([m], MaxSize(s));
  }

  /** Exactly the stages of `ss` have work. */
  predicate Wanting(c: Chan, ss: set<Stage>) {
    forall t: Stage :: t in ss <==> t in StagesOf(c.role) && Enabled(c, t)
  }

  /** The stages that want message 1 ask for it. */
  lemma RequestsAre(c: Chan, ss: set<Stage>, m: Message)
    requires c.initialized && c.q.messages == [m] && c.q.offset == 1 && Wanting(c, ss)
    requires forall s <- ss :: c.q.Cursor(s) == 0 && c.q.Upstream(s) == 1
    ensures ReadySafe(c) && Requests(c) == Asked(ss, m)
  {
    forall s | s in StagesOf(c.role) && Enabled(c, s) ensures BatchSafe(c.q, s) && Batch(c.q, s) == [m] {
      assert s in ss;
      BatchOfOne(c.q, s, m);
    }
  }

  lemma ReadyRaises(c: Chan, ss: set<Stage>)
    requires c.initialized && c.flags == ALL_IDLE && Wanting(c, ss)
    ensures AfterReady(c) == c.(flags := Waiting(ss))
  {
    forall t: Stage ensures AfterReady(c).flags.Get(t) == Waiting(ss).Get(t) { assert t in ss <==> t in StagesOf(c.role) && Enabled(c, t); }
    Channel.FlagsEqual(AfterReady(c).flags, Waiting(ss));
  }

  lemma ReadyIs(z: Sys, ss: set<Stage>, m: Message)
    requires z.ch.initialized && z.pending == map[] && ReadySafe(z.ch) && Requests(z.ch) == Asked(ss, m)
    requires AfterReady(z.ch) == z.ch.(flags := Waiting(ss))
    ensures IsStep(z, Ready, Asking(ss, m, z))
  {
    assert z.pending + Requests(z.ch) == Asked(ss, m);
  }

  lemma ReadyStep(n: nat, leaderId: nat, m: Message, c: Cursors, y: Sys, ss: set<Stage>)
    requires var z := Holding(n, leaderId, m, c, y);
      Wanting(z.ch, ss) && forall s <- ss :: z.ch.q.Cursor(s) == 0 && z.ch.q.Upstream(s) == 1
    ensures IsStep(Holding(n, leaderId, m, c, y), Ready, Asking(ss, m, Holding(n, leaderId, m, c, y)))
  {
    var z := Holding(n, leaderId, m, c, y);
    RequestsAre(z.ch, ss, m);
    ReadyRaises(z.ch, ss);
    ReadyIs(z, ss, m);
  }

  /** What stays of the requests when stage `s` has answered. */
  lemma AnswerFrees(s: Stage, ss: set<Stage>, m: Message)
    requires s in ss
    ensures Waiting(ss).Put(s, Waiting(ss).Get(s).(processing := false)) == Waiting(ss - {s})
    ensures Asked(ss, m) - {s} == Asked(ss - {s}, m)
  {
    Channel.FlagsEqual(Waiting(ss).Put(s, Waiting(ss).Get(s).(processing := false)), Waiting(ss - {s}));
  }

  /** A success of one of the writing stages replaces the message by what the worker made of it. */
  lemma WriteStep(n: nat, leaderId: nat, m: Message, m': Message, c: Cursors, c': Cursors, y: Sys, s: Stage, env: Env)
    requires m.index == 1 && s in StagesOf(RoleOn(n, leaderId)) && Writes(s) && One(m, c).Cursor(s) == 0
    requires One(m, c') == One(m, c).WithCursor(s, 1)
    requires s.Decrypt? ==> |env.conns| == 1
    requires s.Storage? ==> env.store == StoreReply(false, [], Off)
    requires m' == Worked(s, [m], env, 0) && m'.id == m.id && m'.index == 1 && Merge(s, m, m') == m'
    ensures IsStep(Asking({s}, m, Holding(n, leaderId, m, c, y)), Answer(s, env),
                   Holding(n, leaderId, m', c', y.(done := y.done + {Done(y.epoch, s, 1)}, log := y.log + WorkEffects(s, [m], env))))
  {
    var z := Asking({s}, m, Holding(n, leaderId, m, c, y));
    WorkActionAnswers(s, [m], env);
    assert Answers(s, [m], env) == [m'];
    assert z.pending[s] == [m];
    var a := WorkAction(s, [m], env);
    assert a.ok && Target(a) == 1;
    assert Patch(s, m, [m']) == m';
    assert WriteBack(s, [m], 0, 1, [m']) == [m'];
    StepOnSuccess(z.ch, a, 1);
    WritingAnswer(z.ch.q, s, 1, a.answers);
    assert AfterAnswer(z.ch.q, s, 1, a.answers) == One(m', c');
    AnswerFrees(s, {s}, m);
    assert {s} - {s} == {} && Asked({}, m) == map[] && Waiting({}) == ALL_IDLE;
    assert Finished(y.epoch, s, [m]) == {Done(y.epoch, s, 1)} by { assert m in [m]; }
  }

  /** The decryption of message 1, on whichever node. */
  lemma DecryptStep(n: nat, leaderId: nat, m: Message, y: Sys, conn: Connection)
    requires m.index == 1 && m.packet.Some?
    ensures IsStep(Asking({Decrypt}, m, Holding(n, leaderId, m, REWOUND, y)), Answer(Decrypt, World([conn], OPEN, LeaderAccepts)),
                   Holding(n, leaderId, Decrypted(m, conn), REWOUND.(decrypt := 1), y.(done := y.done + {Done(y.epoch, Decrypt, 1)})))
  {
    WriteStep(n, leaderId, m, Decrypted(m, conn), REWOUND, REWOUND.(decrypt := 1), y, Decrypt, World([conn], OPEN, LeaderAccepts));
    assert y.log + [] == y.log;
  }

  /** A role change forgets what is outstanding and rewinds. */
  lemma RoleStep(n: nat, leaderId: nat, leaderId': nat, m: Message, c: Cursors, y: Sys, z: Sys)
    requires (leaderId == n) != (leaderId' == n) && z.ch.(flags := ALL_IDLE) == Holding(n, leaderId, m, c, y).ch
    requires z == Holding(n, leaderId, m, c, y).(ch := z.ch, pending := z.pending)
    ensures IsStep(z, Leadership(leaderId'), Holding(n, leaderId', m, REWOUND, y.(epoch := y.epoch + 1)))
  {
  }

  /** The base of the states of a first term: what has been sent, and that decryption is done. */
  function FirstTerm(n: nat, m: Message): Sys { Start(n).(epoch := 1, sent := [m], done := {Done(1, Decrypt, 1)}) }

  const DECRYPTED := REWOUND.(decrypt := 1)

  /** A node becomes leader or proxy, takes in one message and decrypts it. */
  lemma ReachesDecrypted(n: nat, leaderId: nat, m: Message, conn: Connection)
    requires ChannelSpec.Queued(m)
    ensures Reaches(n, Holding(n, leaderId, Decrypted(First(m), conn), DECRYPTED, FirstTerm(n, m)))
  {
    var y, f := Start(n).(epoch := 1, sent := [m]), First(m);
    var h := Holding(n, leaderId, f, REWOUND, y);
    ReachesFresh(n, leaderId, m);
    DecryptIsNext(n, leaderId, f, y);
    ReachesNext(n, h, Ready, Asking({Decrypt}, f, h));
    DecryptStep(n, leaderId, f, y, conn);
    FirstTermIs(n, leaderId, m, Decrypted(f, conn), y);
    ReachesNext(n, Asking({Decrypt}, f, h), Answer(Decrypt, World([conn], OPEN, LeaderAccepts)),
                Holding(n, leaderId, Decrypted(f, conn), DECRYPTED, FirstTerm(n, m)));
  }

  lemma FirstTermIs(n: nat, leaderId: nat, m: Message, d: Message, y: Sys)
    requires y == Start(n).(epoch := 1, sent := [m])
    ensures Holding(n, leaderId, d, REWOUND.(decrypt := 1), y.(done := y.done + {Done(y.epoch, Decrypt, 1)}))
         == Holding(n, leaderId, d, DECRYPTED, FirstTerm(n, m))
  {
    assert y.done + {Done(y.epoch, Decrypt, 1)} == {Done(1, Decrypt, 1)};
  }

  lemma DecryptIsNext(n: nat, leaderId: nat, m: Message, y: Sys)
    ensures IsStep(Holding(n, leaderId, m, REWOUND, y), Ready, Asking({Decrypt}, m, Holding(n, leaderId, m, REWOUND, y)))
  {
    ReadyStep(n, leaderId, m, REWOUND, y, {Decrypt});
  }
}
