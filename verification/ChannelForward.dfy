/**
 What a verdict is worth across nodes. A proxy forwards its whole batch, and the leader proposes each message anew
 with a clean record (internal/server/channel_reactor_process.go:301-400, server_cluster.go:66-102): a verdict of the
 node is final on that node (ChannelTheorems) and lost at the next leader.
 */
module ChannelForward {
  import opened Options
  import opened Messages
  import opened ChannelSpec
  import opened Stages
  import opened ChannelRuns
  import opened ChannelInvariant
  import opened ChannelTheorems
  import opened ChannelReach

  /** The message as the leader's queue holds it. */
  function AtLeader(q: Queue, m: Message): Message
    requires ChannelSpec.Queued(m)
  {
    var q' := Append(q, Reproposed(m));
    q'.messages[|q'.messages| - 1]
  }

  /** A verdict survives forwarding exactly if it is success; identity, sender and packet always do. */
  lemma VerdictSurvivesForwardingIff(q: Queue, m: Message)
    requires ChannelSpec.Queued(m)
    ensures var l := AtLeader(q, m);
      && l.id == m.id && l.sender == m.sender && l.packet == m.packet && l.index == q.lastIndex + 1
      && (l.reason == m.reason <==> m.reason == ReasonSuccess)
      && (l.isEncrypt == m.isEncrypt <==> !m.isEncrypt)
      && !l.isEncrypt && !l.isSystem && l.seqNo == 0
  {
  }

  /** Whether a proxy's decryption leaves a message as the leader will take it to be: accepted and readable. */
  predicate Decryptable(m: Message, conn: Connection) {
    m.isEncrypt ==> m.sender.connId != 0 && conn.Online? && !conn.failed && m.packet.Some? && m.packet.value.payload != []
  }

  /**
   For a message in a proxy's queue: the leader holds it with the proxy's verdict and the proxy's encryption flag exactly
   if it had not failed before, on an earlier term of this node as leader, and needed no decryption or could be decrypted.
   In every other case the leader takes a message that failed, or is still encrypted, for a good one.
   */
  lemma LeaderAgreesIff(q: Queue, m: Message, conn: Connection)
    requires ChannelSpec.Queued(m)
    ensures ChannelSpec.Queued(Decrypted(m, conn))
    ensures var d := Decrypted(m, conn); var l := AtLeader(q, d);
      l.reason == d.reason && l.isEncrypt == d.isEncrypt <==> m.reason == ReasonSuccess && Decryptable(m, conn)
  {
    VerdictSurvivesForwardingIff(q, Decrypted(m, conn));
  }

  /** What the leader's workers then make of it: everything hangs on the permission check alone. */
  lemma LeaderStoresIff(q: Queue, m: Message, conn: Connection, a: Access)
    requires ChannelSpec.Queued(m) && !m.packet.value.noPersist
    ensures ChannelSpec.Queued(Decrypted(m, conn))
    ensures var l := Checked(AtLeader(q, Decrypted(m, conn)), a);
      && (Storable(l) <==> HasPermission(a, m.sender.uid) == ReasonSuccess)
      && (Accepted(l) <==> HasPermission(a, m.sender.uid) == ReasonSuccess)
      && AckOf(l).reason == HasPermission(a, m.sender.uid)
  {
  }

  // ---------------------------------------------------------------- two runs that show it

  /** A proxy on node 1 that finds the sender offline and forwards the failed message to node 2. */
  lemma ProxyForwardsFailure(m: Message) returns (y: Sys, d: Message)
    requires ChannelSpec.Queued(m) && m.isEncrypt && m.sender.connId != 0
    ensures Reaches(1, y) && y.sent == [m] && y.ch.role == Proxy && y.ch.q.messages == []
    ensures d.id == m.id && d.sender == m.sender && d.packet == m.packet && d.reason == ReasonSenderOffline
    ensures y.log == [ForwardedMessage(d)]
  {
    d := Decrypted(First(m), Offline);
    var y0, env := FirstTerm(1, m), World([], OPEN, LeaderAccepts);
    var h := Holding(1, 2, d, DECRYPTED, y0);
    ReachesDecrypted(1, 2, m, Offline);
    ReadyStep(1, 2, d, DECRYPTED, y0, {Forward});
    ReachesNext(1, h, Ready, Asking({Forward}, d, h));
    y := ForwardStep(Asking({Forward}, d, h), d, y0, env);
    ReachesNext(1, Asking({Forward}, d, h), Answer(Forward, env), y);
  }

  lemma ForwardStep(z: Sys, d: Message, y: Sys, env: Env) returns (z': Sys)
    requires z == Asking({Forward}, d, Holding(1, 2, d, DECRYPTED, y)) && d.index == 1 && env.forward.LeaderAccepts?
    ensures IsStep(z, Answer(Forward, env), z')
    ensures z'.ch.role == Proxy && z'.ch.q.messages == [] && z'.sent == y.sent && z'.log == y.log + [ForwardedMessage(d)]
  {
    assert z.pending[Forward] == [d];
    z' := Next(z, Answer(Forward, env));
    assert ForwardEffects([d]) == [ForwardedMessage(d)];
  }

  /** The leader on node 2 stores, delivers and acknowledges as a success whatever was forwarded to it. */
  lemma LeaderAcceptsForwarded(d: Message) returns (z: Sys)
    requires ChannelSpec.Queued(d) && !d.packet.value.noPersist && d.sender.deviceId != ""
    ensures Reaches(2, z) && z.sent == [Reproposed(d)] && z.ch.role == Leader
    ensures var l := First(Reproposed(d));
      z.log == [StoredMessage(l), AckedMessage(AckOf(l)), DeliveredMessage(l)] && l.reason == ReasonSuccess
  {
    var l, y := First(Reproposed(d)), FirstTerm(2, Reproposed(d));
    ReachesDecrypted(2, 2, Reproposed(d), Online([], false));
    var env := World([], OPEN, LeaderAccepts);
    var y1 := Write(2, l, l, DECRYPTED, CHECKED, y, Permission, env);
    var y2 := Write(2, l, l, CHECKED, STORED, y1, Storage, env);
    z := Finish(l, STORED, y2, env);
    SelectOne(l, Storable);
    assert Stored([l]) == [l] && StoreEffects([l], false) == [StoredMessage(l)];
  }

  lemma SelectOne(m: Message, p: Message -> bool)
    ensures Select([m], p) == if p(m) then [m] else []
  {
    assert [m][..0] == [];
    assert Select([m], p) == Select([], p) + if p(m) then [m] else [];
  }

  const CHECKED := DECRYPTED.(permission := 1)
  const STORED := CHECKED.(storage := 1)

  /** A leader's permission check or store, asked for and answered: `m` becomes `m'`. */
  lemma Write(n: nat, m: Message, m': Message, c: Cursors, c': Cursors, y: Sys, s: Stage, env: Env) returns (y': Sys)
    requires Reaches(n, Holding(n, n, m, c, y)) && m.index == m'.index == 1 && m'.id == m.id
    requires (s == Permission && c == DECRYPTED && c' == CHECKED) || (s == Storage && c == CHECKED && c' == STORED)
    requires env.store == StoreReply(false, [], Off)
    requires m' == Worked(s, [m], env, 0) && Merge(s, m, m') == m'
    ensures Reaches(n, Holding(n, n, m', c', y')) && y'.sent == y.sent && y'.log == y.log + WorkEffects(s, [m], env)
  {
    var h := Holding(n, n, m, c, y);
    ReadyStep(n, n, m, c, y, {s});
    ReachesNext(n, h, Ready, Asking({s}, m, h));
    WriteStep(n, n, m, m', c, c', y, s, env);
    y' := y.(done := y.done + {Done(y.epoch, s, 1)}, log := y.log + WorkEffects(s, [m], env));
    ReachesNext(n, Asking({s}, m, h), Answer(s, env), Holding(n, n, m', c', y'));
  }

  lemma Finish(l: Message, c: Cursors, y: Sys, env: Env) returns (z: Sys)
    requires Reaches(2, Holding(2, 2, l, c, y)) && l.index == 1 && l.reason == ReasonSuccess && l.sender.deviceId != ""
    requires c == STORED && env == World([], OPEN, LeaderAccepts)
    ensures Reaches(2, z) && z.sent == y.sent && z.ch.role == Leader
    ensures z.log == y.log + [AckedMessage(AckOf(l))] + [DeliveredMessage(l)]
  {
    var h, both := Holding(2, 2, l, c, y), {Sendack, Deliver};
    ReadyStep(2, 2, l, c, y, both);
    var z0 := Asking(both, l, h);
    ReachesNext(2, h, Ready, z0);
    var z1 := SendackStep(z0, l, env);
    ReachesNext(2, z0, Answer(Sendack, env), z1);
    z := DeliverStep(z1, l, env);
    ReachesNext(2, z1, Answer(Deliver, env), z);
  }

  lemma SendackStep(z: Sys, l: Message, env: Env) returns (z': Sys)
    requires z.ch.role == Leader && z.ch.q.messages == [l] && l.index == 1 && z.ch.q.sendacking == 0 && z.ch.q.delivering == 0
    requires z.pending == Asked({Sendack, Deliver}, l) && l.sender.deviceId != env.systemDevice
    ensures IsStep(z, Answer(Sendack, env), z')
    ensures z'.ch.(flags := ALL_IDLE) == z.ch.(q := z.ch.q.(sendacking := 1), flags := ALL_IDLE)
    ensures z'.pending == Asked({Deliver}, l) && z'.sent == z.sent && z'.initPending == z.initPending
    ensures z'.log == z.log + [AckedMessage(AckOf(l))]
  {
    assert z.pending[Sendack] == [l];
    z' := Next(z, Answer(Sendack, env));
    assert [l][..0] == [];
    assert Acks([l], env.systemDevice) == [AckOf(l)];
    assert AckEffects([AckOf(l)]) == [AckedMessage(AckOf(l))];
  }

  lemma DeliverStep(z: Sys, l: Message, env: Env) returns (z': Sys)
    requires z.ch.role == Leader && z.ch.q.messages == [l] && z.ch.q.offset == 1 && l.index == 1 && l.reason == ReasonSuccess
    requires z.pending == Asked({Deliver}, l)
    ensures IsStep(z, Answer(Deliver, env), z')
    ensures z'.ch.role == Leader && z'.sent == z.sent && z'.log == z.log + [DeliveredMessage(l)]
  {
    assert z.pending[Deliver] == [l];
    z' := Next(z, Answer(Deliver, env));
    SelectOne(l, Accepted);
    assert DeliverEffects([l]) == [DeliveredMessage(l)];
  }

  /**
   So across nodes a verdict is not final: for every message whose sender went offline before the proxy decrypted it,
   there is a run of the proxy that forwards it as failed, and a run of the leader that takes in what it was forwarded
   and stores, delivers and acknowledges it as a success.
   */
  lemma FailedMessageIsStoredElsewhere(m: Message) returns (y: Sys, z: Sys, d: Message, l: Message)
    requires ChannelSpec.Queued(m) && !m.packet.value.noPersist && m.isEncrypt && m.sender.connId != 0 && m.sender.deviceId != ""
    ensures Reaches(1, y) && y.sent == [m] && ForwardedMessage(d) in y.log && d.id == m.id && d.reason == ReasonSenderOffline
    ensures Reaches(2, z) && z.sent == [Reproposed(d)]
    ensures l.id == m.id && l.reason == ReasonSuccess
    ensures StoredMessage(l) in z.log && DeliveredMessage(l) in z.log && AckedMessage(AckOf(l)) in z.log
  {
    y, d := ProxyForwardsFailure(m);
    z := LeaderAcceptsForwarded(d);
    l := First(Reproposed(d));
    assert z.log[0] == StoredMessage(l) && z.log[1] == AckedMessage(AckOf(l)) && z.log[2] == DeliveredMessage(l);
    assert y.log[0] == ForwardedMessage(d);
  }

  // ---------------------------------------------------------------- a refusal that a role change undoes

  const BANNED := OPEN.(kind := Group(""), ban := true)

  /** A leader on node 1 refuses a message, and stores nothing. */
  lemma LeaderRefuses(m: Message) returns (y: Sys, d: Message)
    requires ChannelSpec.Queued(m) && !m.isEncrypt && !m.isSystem
    ensures d == First(m).(reason := ReasonBan) && Reaches(1, Holding(1, 1, d, STORED, y)) && y.sent == [m] && y.log == []
  {
    var l, env := First(m), World([], BANNED, LeaderAccepts);
    d := l.(reason := ReasonBan);
    ReachesDecrypted(1, 1, m, Offline);
    var y1 := Write(1, l, d, DECRYPTED, CHECKED, FirstTerm(1, m), Permission, env);
    SelectOne(d, Storable);
    y := Write(1, d, d, CHECKED, STORED, y1, Storage, env);
  }

  /** It says so to the sender and then loses the leadership to node 2. */
  lemma LeaderStepsDown(d: Message, y: Sys) returns (z: Sys)
    requires Reaches(1, Holding(1, 1, d, STORED, y)) && d.index == 1 && d.sender.deviceId != ""
    ensures Reaches(1, Holding(1, 2, d, REWOUND, z)) && z.sent == y.sent && z.log == y.log + [AckedMessage(AckOf(d))]
  {
    var env, h := World([], BANNED, LeaderAccepts), Holding(1, 1, d, STORED, y);
    ReadyStep(1, 1, d, STORED, y, {Sendack, Deliver});
    ReachesNext(1, h, Ready, Asking({Sendack, Deliver}, d, h));
    var w := SendackStep(Asking({Sendack, Deliver}, d, h), d, env);
    ReachesNext(1, Asking({Sendack, Deliver}, d, h), Answer(Sendack, env), w);
    RoleStep(1, 1, 2, d, STORED.(sendack := 1), w, w);
    z := w.(epoch := w.epoch + 1);
    ReachesNext(1, w, Leadership(2), Holding(1, 2, d, REWOUND, z));
  }

  /** A proxy decrypts and forwards its only message, which needs no decryption. */
  lemma ProxyForwards(d: Message, y: Sys) returns (z: Sys)
    requires Reaches(1, Holding(1, 2, d, REWOUND, y)) && d.index == 1 && d.packet.Some? && !d.isEncrypt
    ensures Reaches(1, z) && z.sent == y.sent && z.log == y.log + [ForwardedMessage(d)]
  {
    var h := Holding(1, 2, d, REWOUND, y);
    DecryptIsNext(1, 2, d, y);
    ReachesNext(1, h, Ready, Asking({Decrypt}, d, h));
    DecryptStep(1, 2, d, y, Offline);
    var y' := y.(done := y.done + {Done(y.epoch, Decrypt, 1)});
    var h' := Holding(1, 2, d, DECRYPTED, y');
    ReachesNext(1, Asking({Decrypt}, d, h), Answer(Decrypt, World([Offline], OPEN, LeaderAccepts)), h');
    ReadyStep(1, 2, d, DECRYPTED, y', {Forward});
    ReachesNext(1, h', Ready, Asking({Forward}, d, h'));
    var env := World([], OPEN, LeaderAccepts);
    z := ForwardStep(Asking({Forward}, d, h'), d, y', env);
    ReachesNext(1, Asking({Forward}, d, h'), Answer(Forward, env), z);
  }

  /**
   Nor is a refusal final: for every plain message there is a run of node 1 that refuses it as leader, tells the sender,
   and forwards it after a role change, and a run of node 2 that takes in what it was forwarded, stores and delivers it
   and tells the sender that it succeeded.
   */
  lemma RefusedMessageIsStoredElsewhere(m: Message) returns (y: Sys, z: Sys, d: Message, l: Message)
    requires ChannelSpec.Queued(m) && !m.packet.value.noPersist && !m.isEncrypt && !m.isSystem && m.sender.deviceId != ""
    ensures Reaches(1, y) && y.sent == [m] && d.id == m.id && d.reason == ReasonBan
    ensures y.log == [AckedMessage(AckOf(d)), ForwardedMessage(d)]
    ensures Reaches(2, z) && z.sent == [Reproposed(d)]
    ensures l.id == m.id && l.sender == m.sender && l.reason == ReasonSuccess
    ensures z.log == [StoredMessage(l), AckedMessage(AckOf(l)), DeliveredMessage(l)]
  {
    y, d := LeaderRefuses(m);
    y := LeaderStepsDown(d, y);
    y := ProxyForwards(d, y);
    z := LeaderAcceptsForwarded(d);
    l := First(Reproposed(d));
  }
}
