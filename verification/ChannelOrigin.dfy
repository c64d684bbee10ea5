/**
 Where the messages come from that a channel stores and delivers: who was admitted to send them, and who has decoded
 their payload.
 */
module ChannelOrigin {
  import opened Options
  import opened Messages
  import opened ChannelSpec
  import opened Stages
  import opened ChannelRuns
  import opened ChannelInvariant
  import opened ChannelTheorems
  import opened ChannelReports

  // ---------------------------------------------------------------- one step back

  /** A success of a writing stage replaces exactly the messages of its batch by what the worker made of them. */
  lemma WrittenQueue(y: Sys, s: Stage, env: Env) returns (q': Queue)
    requires Inv(y) && Occurs(y, Answer(s, env)) && Safe(y, Answer(s, env)) && Writes(s) && WorkAction(s, y.pending[s], env).ok
    ensures q' == Next(y, Answer(s, env)).ch.q && q'.offset == y.ch.q.offset
    ensures var lo, b := y.ch.q.Cursor(s) + 1 - y.ch.q.offset, y.pending[s];
      q'.messages == WriteBack(s, y.ch.q.messages, lo, lo + |b|, Answers(s, b, env))
    ensures BatchInPlace(y.ch.q, s, y.pending[s]) && GoodEnv(s, y.pending[s], env)
    ensures y.ch.q.Upstream(s) <= y.ch.q.Cursor(Decrypt) || s.Decrypt?
  {
    var c, b, n := y.ch, y.pending[s], y.ch.q.Cursor(s) + |y.pending[s]|;
    var a := WorkAction(s, b, env);
    StageBounds(c.q, c.role, s);
    AnswerTarget(c.q, y.sent, s, b, env);
    StepOnSuccess(c, a, n);
    WritingAnswer(c.q, s, n, a.answers);
    q' := AfterAnswer(c.q, s, n, a.answers);
  }

  /** The decrypt worker answers for message `i` in this step. */
  ghost predicate InDecryption(y: Sys, e: Event, i: nat) {
    e.Answer? && e.stage.Decrypt? && Decrypt in y.pending && y.ch.q.Cursor(Decrypt) < i <= y.ch.q.Cursor(Decrypt) + |y.pending[Decrypt]|
  }

  /** Message `m'` after a step is `m` before it, worked on at most. */
  ghost predicate ComesFrom(y: Sys, e: Event, m: Message, m': Message) {
    && m in y.ch.q.messages && m'.index == m.index && SameMessage(m', m)
    && (m'.reason == ReasonSuccess ==> m.reason == ReasonSuccess)
    && ((m'.packet == m.packet && m'.isEncrypt == m.isEncrypt) || InDecryption(y, e, m.index))
  }

  lemma OldOrNew(y: Sys, e: Event, y': Sys, m': Message) returns (m: Message)
    requires Inv(y) && IsStep(y, e, y') && m' in y'.ch.q.messages && m'.index <= y.ch.q.lastIndex
    ensures ComesFrom(y, e, m, m')
  {
    m := m';
    match e
    case Answer(s, env) =>
      var q' := AnswerQueue(y, s, env);
      if WorkAction(s, y.pending[s], env).ok { m := Earlier(y.ch.q, q', s, y.ch.q.Cursor(s) + |y.pending[s]|, m'); }
    case Incoming(ms) => AppendedAfter(y.ch.q, ms, m');
    case _ =>
  }

  /** A message that a writing stage's success covers for the first time is what its worker made of one of the batch. */
  lemma WorkedNow(y: Sys, s: Stage, env: Env, m': Message) returns (i: nat)
    requires Inv(y) && Occurs(y, Answer(s, env)) && Safe(y, Answer(s, env)) && Writes(s) && WorkAction(s, y.pending[s], env).ok
    requires m' in Next(y, Answer(s, env)).ch.q.messages
    requires y.ch.q.Cursor(s) < m'.index <= y.ch.q.Cursor(s) + |y.pending[s]|
    ensures i < |y.pending[s]| && m' == Worked(s, y.pending[s], env, i)
    ensures y.pending[s][i] in y.ch.q.messages && y.pending[s][i].index == m'.index
  {
    var q' := WrittenQueue(y, s, env);
    PlacedAfter(y, s, env, q', m');
    i := WorkedIn(y.ch.q, q', y.sent, s, y.pending[s], env, m');
  }

  lemma WorkedIn(q: Queue, q': Queue, sent: seq<Message>, s: Stage, batch: seq<Message>, env: Env, m': Message) returns (i: nat)
    requires QueueInv(q, sent) && BatchInPlace(q, s, batch) && GoodEnv(s, batch, env) && Writes(s)
    requires q.Upstream(s) <= q.Cursor(Decrypt) || s.Decrypt?
    requires q.Cursor(s) < m'.index <= q.Cursor(s) + |batch| && q'.offset == q.offset
    requires var lo := q.Cursor(s) + 1 - q.offset; q'.messages == WriteBack(s, q.messages, lo, lo + |batch|, Answers(s, batch, env))
    requires q'.messages[m'.index - q'.offset] == m'
    ensures i < |batch| && m' == Worked(s, batch, env, i) && batch[i] in q.messages && batch[i].index == m'.index
  {
    i := m'.index - q.Cursor(s) - 1;
    WorkedAt(q, sent, s, batch, env, m'.index - q.offset);
  }

  lemma PlacedAfter(y: Sys, s: Stage, env: Env, q': Queue, m': Message)
    requires Inv(y) && Occurs(y, Answer(s, env)) && Safe(y, Answer(s, env)) && q' == Next(y, Answer(s, env)).ch.q
    requires m' in q'.messages && q'.offset == y.ch.q.offset
    ensures q'.offset <= m'.index && m'.index - q'.offset < |q'.messages| && q'.messages[m'.index - q'.offset] == m'
  {
    StepKeeps(y, Answer(s, env));
    IndexFromOffset(q', y.sent, m');
  }

  lemma WorkedAt(q: Queue, sent: seq<Message>, s: Stage, batch: seq<Message>, env: Env, k: nat)
    requires QueueInv(q, sent) && BatchInPlace(q, s, batch) && GoodEnv(s, batch, env) && Writes(s)
    requires q.Upstream(s) <= q.Cursor(Decrypt) || s.Decrypt?
    requires q.Cursor(s) + 1 - q.offset <= k < q.Cursor(s) + 1 - q.offset + |batch|
    ensures var lo := q.Cursor(s) + 1 - q.offset;
      && WriteBack(s, q.messages, lo, lo + |batch|, Answers(s, batch, env))[k] == Worked(s, batch, env, k - lo)
      && batch[k - lo] in q.messages && batch[k - lo].index == q.offset + k
  {
    WrittenAt(q, sent, s, batch, env, k);
    assert batch[k - (q.Cursor(s) + 1 - q.offset)] == q.messages[k];
    assert InOrder(q, sent, k);
  }

  // ---------------------------------------------------------------- who was admitted

  /** At this moment the permission worker succeeds on a batch with message `m`, and its answers admit the sender. */
  ghost predicate AdmittedNow(y: Sys, e: Event, m: Message) {
    && e.Answer? && e.stage.Permission? && Permission in y.pending
    && (exists n <- y.pending[Permission] :: n.index == m.index && n.sender == m.sender)
    && Admits(e.env.access, m.sender.uid)
  }

  /** It did so before, in this leadership. */
  ghost predicate AdmittedBefore(ys: seq<Sys>, es: seq<Event>, k: nat, m: Message)
    requires |ys| == |es| + 1 && k < |ys|
  {
    exists j: nat :: j < k && ys[j].epoch == ys[k].epoch && AdmittedNow(ys[j], es[j], m)
  }

  /** What a leader's permission cursor has passed as accepted had a sender who was admitted, but for system messages. */
  ghost predicate NeedsAdmission(y: Sys, m: Message) {
    y.ch.role.Leader? && m in y.ch.q.messages && m.index <= y.ch.q.Cursor(Permission) && m.reason == ReasonSuccess && !m.isSystem
  }

  lemma AdmissionStep(y: Sys, e: Event, y': Sys, m': Message) returns (m: Message)
    requires Inv(y) && IsStep(y, e, y') && NeedsAdmission(y', m')
    ensures y'.epoch == y.epoch
    ensures AdmittedNow(y, e, m') || (NeedsAdmission(y, m) && m.index == m'.index && m.sender == m'.sender)
  {
    StepKeeps(y, e);
    IndexFromOffset(y'.ch.q, y'.sent, m');
    CursorMoves(y, e, y');
    m := OldOrNew(y, e, y', m');
    if m'.index > y.ch.q.Cursor(Permission) {
      var i := WorkedNow(y, Permission, e.env, m');
      PermissionHasCause(e.env.access, m'.sender.uid, ReasonSuccess);
      assert y.pending[Permission][i] in y.pending[Permission];
    }
  }

  /** Only the permission worker moves the permission cursor; a role change rewinds it. */
  lemma CursorMoves(y: Sys, e: Event, y': Sys)
    requires Inv(y) && IsStep(y, e, y') && y'.ch.role.Leader?
    ensures y'.ch.q.Cursor(Permission) >= y'.ch.q.offset ==>
      && y'.epoch == y.epoch && y.ch.role.Leader? && y'.ch.q.Cursor(Permission) <= y.ch.q.lastIndex
      && (y'.ch.q.Cursor(Permission) <= y.ch.q.Cursor(Permission)
          || (e.Answer? && e.stage.Permission? && WorkAction(Permission, y.pending[Permission], e.env).ok
              && y'.ch.q.Cursor(Permission) == y.ch.q.Cursor(Permission) + |y.pending[Permission]|))
  {
    match e
    case Answer(s, env) =>
      StageBounds(y.ch.q, y.ch.role, s);
      var q' := AnswerQueue(y, s, env);
    case Incoming(ms) => AppendAllGrows(y.ch.q, ms);
    case _ =>
  }

  lemma {:induction false} RunAdmits(nodeId: nat, ys: seq<Sys>, es: seq<Event>, k: nat, m: Message)
    requires IsRun(nodeId, ys, es) && k < |ys| && NeedsAdmission(ys[k], m)
    ensures AdmittedBefore(ys, es, k, m)
    decreases k
  {
    if k > 0 {
      var n := AdmissionAt(nodeId, ys, es, k - 1, m);
      if !AdmittedNow(ys[k - 1], es[k - 1], m) {
        RunAdmits(nodeId, ys, es, k - 1, n);
        var j: nat :| j < k - 1 && ys[j].epoch == ys[k - 1].epoch && AdmittedNow(ys[j], es[j], n);
        assert AdmittedNow(ys[j], es[j], m);
      }
    }
  }

  lemma AdmissionAt(nodeId: nat, ys: seq<Sys>, es: seq<Event>, k: nat, m': Message) returns (m: Message)
    requires IsRun(nodeId, ys, es) && k < |es| && NeedsAdmission(ys[k + 1], m')
    ensures ys[k].epoch == ys[k + 1].epoch
    ensures AdmittedNow(ys[k], es[k], m') || (NeedsAdmission(ys[k], m) && m.index == m'.index && m.sender == m'.sender)
  {
    RunInv(nodeId, ys, es, k);
    m := AdmissionStep(ys[k], es[k], ys[k + 1], m');
  }

  // ---------------------------------------------------------------- who has decoded

  /** `m` is what taking in `n` has made of it, with the plaintext that the connection gave for it. */
  predicate CarriesPlaintext(n: Message, conn: Connection, m: Message) {
    && Encrypted(n) && !m.isEncrypt && n.packet.Some?
    && m.packet == Some(n.packet.value.(payload := Plaintext(n.packet.value.payload, conn)))
    && (m.reason == ReasonSuccess ==> conn.Online? && !conn.failed && n.packet.value.payload != [])
  }

  predicate Intact(n: Message, m: Message) {
    m.packet == n.packet && m.isEncrypt == n.isEncrypt
  }

  /** At this moment the decrypt worker answers for message `m`, taken in as `n`. */
  ghost predicate DecodedNow(y: Sys, e: Event, n: Message, m: Message) {
    && e.Answer? && e.stage.Decrypt? && Decrypt in y.pending && |e.env.conns| == |y.pending[Decrypt]|
    && exists i :: 0 <= i < |y.pending[Decrypt]| && y.pending[Decrypt][i].index == m.index && CarriesPlaintext(n, e.env.conns[i], m)
  }

  ghost predicate DecodedBefore(ys: seq<Sys>, es: seq<Event>, k: nat, n: Message, m: Message)
    requires |ys| == |es| + 1 && k < |ys|
  {
    exists j: nat :: j < k && DecodedNow(ys[j], es[j], n, m)
  }

  /** A queued message is as it was taken in, or as a decrypt answer of the run has left it. */
  ghost predicate HasOrigin(ys: seq<Sys>, es: seq<Event>, k: nat, m: Message)
    requires |ys| == |es| + 1 && k < |ys| && 1 <= m.index <= |ys[k].sent|
  {
    Intact(ys[k].sent[m.index - 1], m) || DecodedBefore(ys, es, k, ys[k].sent[m.index - 1], m)
  }

  /** Where a message of the queue was one step before: nowhere, unchanged in what matters here, or in decryption. */
  lemma OriginStep(y: Sys, e: Event, y': Sys, m': Message) returns (m: Message)
    requires Inv(y) && IsStep(y, e, y') && m' in y'.ch.q.messages
    ensures 1 <= m'.index <= |y'.sent| && y.sent <= y'.sent
    ensures m'.index > |y.sent| ==> Intact(y'.sent[m'.index - 1], m')
    ensures m'.index <= |y.sent| ==>
      && m in y.ch.q.messages && m.index == m'.index && SameMessage(m, y.sent[m.index - 1])
      && (m'.reason == ReasonSuccess ==> m.reason == ReasonSuccess)
      && (Intact(m, m') || (Encrypted(m) && DecodedNow(y, e, m, m')))
  {
    StepKeeps(y, e);
    IndexFromOffset(y'.ch.q, y'.sent, m');
    LogGrows(y, e, y');
    m := m';
    if m'.index > |y.sent| {
      NewIsIntact(y, e, y', m');
    } else {
      m := OldOrNew(y, e, y', m');
      QueuedIsSent(y, m);
      if !Intact(m, m') { DecryptsOne(y, e.env, m, m'); }
    }
  }

  lemma QueuedIsSent(y: Sys, m: Message)
    requires Inv(y) && m in y.ch.q.messages
    ensures 1 <= m.index <= |y.sent| && SameMessage(m, y.sent[m.index - 1])
  {
    IndexFromOffset(y.ch.q, y.sent, m);
    assert InOrder(y.ch.q, y.sent, m.index - y.ch.q.offset);
  }

  lemma DecryptsOne(y: Sys, env: Env, m: Message, m': Message)
    requires Inv(y) && Occurs(y, Answer(Decrypt, env)) && Safe(y, Answer(Decrypt, env))
    requires m in y.ch.q.messages && m' in Next(y, Answer(Decrypt, env)).ch.q.messages && m'.index == m.index
    requires InDecryption(y, Answer(Decrypt, env), m.index) && !Intact(m, m')
    ensures Encrypted(m) && DecodedNow(y, Answer(Decrypt, env), m, m')
  {
    var i := WorkedNow(y, Decrypt, env, m');
    var b := y.pending[Decrypt];
    IndexFromOffset(y.ch.q, y.sent, m);
    IndexFromOffset(y.ch.q, y.sent, b[i]);
    assert b[i] == m;
    DecryptedCarries(m, env.conns[i], m');
  }

  lemma DecryptedCarries(m: Message, conn: Connection, m': Message)
    requires m' == Decrypted(m, conn) && VerdictInv(m) && !Intact(m, m')
    ensures CarriesPlaintext(m, conn, m')
  {
  }

  lemma NewIsIntact(y: Sys, e: Event, y': Sys, m': Message)
    requires Inv(y) && IsStep(y, e, y') && m' in y'.ch.q.messages && |y.sent| < m'.index <= |y'.sent|
    requires y'.ch.q.offset <= m'.index && m'.index - y'.ch.q.offset < |y'.ch.q.messages| && y'.ch.q.messages[m'.index - y'.ch.q.offset] == m'
    ensures Intact(y'.sent[m'.index - 1], m')
  {
    if e.Incoming? {
      AppendAllGrows(y.ch.q, e.ms);
      var t := m'.index - |y.sent| - 1;
      assert y'.ch.q.messages[|y.ch.q.messages| + t] == Taken(e.ms)[t].(index := y.ch.q.lastIndex + 1 + t, reason := ReasonSuccess);
    }
  }

  lemma {:induction false} RunHasOrigin(nodeId: nat, ys: seq<Sys>, es: seq<Event>, k: nat, m': Message)
    requires IsRun(nodeId, ys, es) && k < |ys| && m' in ys[k].ch.q.messages
    ensures 1 <= m'.index <= |ys[k].sent| && HasOrigin(ys, es, k, m')
    decreases k
  {
    if k > 0 {
      var m := OriginAt(nodeId, ys, es, k - 1, m');
      if m'.index <= |ys[k - 1].sent| {
        RunHasOrigin(nodeId, ys, es, k - 1, m);
        OriginGoesOn(ys, es, k - 1, m, m');
      }
    }
  }

  lemma OriginGoesOn(ys: seq<Sys>, es: seq<Event>, k: nat, m: Message, m': Message)
    requires |ys| == |es| + 1 && k < |es| && 1 <= m.index == m'.index <= |ys[k].sent| && ys[k].sent <= ys[k + 1].sent
    requires HasOrigin(ys, es, k, m) && SameMessage(m, ys[k].sent[m.index - 1])
    requires m'.reason == ReasonSuccess ==> m.reason == ReasonSuccess
    requires Intact(m, m') || (Encrypted(m) && DecodedNow(ys[k], es[k], m, m'))
    ensures HasOrigin(ys, es, k + 1, m')
  {
    var n := ys[k].sent[m.index - 1];
    if !Intact(n, m) {
      var j: nat :| j < k && DecodedNow(ys[j], es[j], n, m);
      var i :| 0 <= i < |ys[j].pending[Decrypt]| && ys[j].pending[Decrypt][i].index == m.index && CarriesPlaintext(n, es[j].env.conns[i], m);
      assert CarriesPlaintext(n, es[j].env.conns[i], m');
      assert DecodedNow(ys[j], es[j], n, m');
    } else if !Intact(m, m') {
      var i :| 0 <= i < |ys[k].pending[Decrypt]| && ys[k].pending[Decrypt][i].index == m'.index && CarriesPlaintext(m, es[k].env.conns[i], m');
      assert CarriesPlaintext(n, es[k].env.conns[i], m');
      assert DecodedNow(ys[k], es[k], n, m');
    }
  }

  lemma OriginAt(nodeId: nat, ys: seq<Sys>, es: seq<Event>, k: nat, m': Message) returns (m: Message)
    requires IsRun(nodeId, ys, es) && k < |es| && m' in ys[k + 1].ch.q.messages
    ensures 1 <= m'.index <= |ys[k + 1].sent| && ys[k].sent <= ys[k + 1].sent
    ensures m'.index > |ys[k].sent| ==> Intact(ys[k + 1].sent[m'.index - 1], m')
    ensures m'.index <= |ys[k].sent| ==>
      && m in ys[k].ch.q.messages && m.index == m'.index && SameMessage(m, ys[k].sent[m.index - 1])
      && (m'.reason == ReasonSuccess ==> m.reason == ReasonSuccess)
      && (Intact(m, m') || (Encrypted(m) && DecodedNow(ys[k], es[k], m, m')))
  {
    RunInv(nodeId, ys, es, k);
    m := OriginStep(ys[k], es[k], ys[k + 1], m');
  }

  // ---------------------------------------------------------------- what is stored and delivered

  predicate Puts(f: Effect) {
    f.StoredMessage? || f.MaybeStoredMessage? || f.DeliveredMessage?
  }

  /** What a storage or deliver worker holds, accepted, was queued there, admitted and decrypted. */
  lemma HeldByWorker(y: Sys, e: Event, p: nat) returns (m: Message)
    requires Inv(y) && Occurs(y, e) && Safe(y, e) && |y.log| <= p < |Next(y, e).log| && Puts(Next(y, e).log[p])
    ensures m == Next(y, e).log[p].m && m in y.ch.q.messages && m.reason == ReasonSuccess && y.ch.role.Leader?
    ensures !m.isSystem ==> NeedsAdmission(y, m)
    ensures !Encrypted(m)
  {
    OnlyAcceptedLeave(y, e, p);
    m := Next(y, e).log[p].m;
    HeldInBatch(y, e.stage, m);
  }

  lemma HeldInBatch(y: Sys, s: Stage, m: Message)
    requires Inv(y) && s in y.pending && (s.Storage? || s.Deliver?) && m in y.pending[s]
    ensures m in y.ch.q.messages && y.ch.role.Leader? && m.index <= y.ch.q.Cursor(Permission) && !Encrypted(m)
  {
    var b := y.pending[s];
    BatchFacts(y.ch.q, y.sent, s, b);
    assert BatchInPlace(y.ch.q, s, b) && s in StagesOf(y.ch.role);
    var k :| 0 <= k < |b| && b[k] == m;
    assert y.ch.q.messages[y.ch.q.Cursor(s) + 1 - y.ch.q.offset + k] == m;
    assert m.index <= y.ch.q.Upstream(s);
  }

  /** The effect at position `p` of the log, which the `l`-th step brought, is about `m`, and this is where `m` comes from. */
  ghost predicate PutFrom(ys: seq<Sys>, es: seq<Event>, l: nat, p: nat, m: Message)
    requires |ys| == |es| + 1 && l < |es|
  {
    && |ys[l].log| <= p < |ys[l + 1].log| && Puts(ys[l + 1].log[p]) && m == ys[l + 1].log[p].m && m.reason == ReasonSuccess
    && 1 <= m.index <= |ys[l].sent| && SameMessage(m, ys[l].sent[m.index - 1])
    && (var n := ys[l].sent[m.index - 1];
        if Encrypted(n) then DecodedBefore(ys, es, l, n, m) else m.packet == n.packet)
    && (m.isSystem || AdmittedBefore(ys, es, l, m))
  }

  /**
   Everything a channel stores or delivers was accepted, is what some sender sent, and if that was encrypted it carries the
   plaintext that an online connection gave without an error; and unless it is a system message its sender was admitted
   before, in the same leadership, by the answers that a permission worker got for it.
   */
  lemma {:induction false} PutHasOrigin(nodeId: nat, ys: seq<Sys>, es: seq<Event>, k: nat, p: nat) returns (m: Message, l: nat)
    requires IsRun(nodeId, ys, es) && k < |ys| && p < |ys[k].log| && Puts(ys[k].log[p])
    ensures l < k && PutFrom(ys, es, l, p, m) && m == ys[k].log[p].m && ys[l].sent <= ys[k].sent
    decreases k
  {
    if k == 0 { return; }
    RunGrows(nodeId, ys, es, k - 1);
    if p < |ys[k - 1].log| {
      m, l := PutHasOrigin(nodeId, ys, es, k - 1, p);
    } else {
      l := k - 1;
      m := PutNow(nodeId, ys, es, l, p);
    }
  }

  lemma PutNow(nodeId: nat, ys: seq<Sys>, es: seq<Event>, l: nat, p: nat) returns (m: Message)
    requires IsRun(nodeId, ys, es) && l < |es| && |ys[l].log| <= p < |ys[l + 1].log| && Puts(ys[l + 1].log[p])
    ensures PutFrom(ys, es, l, p, m)
  {
    m := HeldAt(nodeId, ys, es, l, p);
    RunHasOrigin(nodeId, ys, es, l, m);
    OriginTells(ys, es, l, m);
    if !m.isSystem { RunAdmits(nodeId, ys, es, l, m); }
  }

  lemma OriginTells(ys: seq<Sys>, es: seq<Event>, l: nat, m: Message)
    requires |ys| == |es| + 1 && l < |ys| && 1 <= m.index <= |ys[l].sent| && HasOrigin(ys, es, l, m)
    requires SameMessage(m, ys[l].sent[m.index - 1]) && !Encrypted(m)
    ensures var n := ys[l].sent[m.index - 1];
      if Encrypted(n) then DecodedBefore(ys, es, l, n, m) else m.packet == n.packet
  {
    var n := ys[l].sent[m.index - 1];
    if !Intact(n, m) {
      var j: nat :| j < l && DecodedNow(ys[j], es[j], n, m);
      assert Encrypted(n);
    }
  }

  lemma HeldAt(nodeId: nat, ys: seq<Sys>, es: seq<Event>, l: nat, p: nat) returns (m: Message)
    requires IsRun(nodeId, ys, es) && l < |es| && |ys[l].log| <= p < |ys[l + 1].log| && Puts(ys[l + 1].log[p])
    ensures m == ys[l + 1].log[p].m && m in ys[l].ch.q.messages && m.reason == ReasonSuccess && !Encrypted(m)
    ensures 1 <= m.index <= |ys[l].sent| && SameMessage(m, ys[l].sent[m.index - 1])
    ensures !m.isSystem ==> NeedsAdmission(ys[l], m)
  {
    RunInv(nodeId, ys, es, l);
    m := HeldByWorker(ys[l], es[l], p);
    IndexFromOffset(ys[l].ch.q, ys[l].sent, m);
    assert InOrder(ys[l].ch.q, ys[l].sent, m.index - ys[l].ch.q.offset);
  }
}
