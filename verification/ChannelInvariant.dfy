/** Every event of a run is safe and keeps the invariant of ChannelRuns. */
module ChannelInvariant {
  import opened Messages
  import opened ChannelSpec
  import opened Stages
  import opened ChannelRuns

  // ---------------------------------------------------------------- every step keeps it

  lemma ReadyFlags(c: Chan, initPending: bool, pending: map<Stage, seq<Message>>)
    requires Shape(c.q) && CursorChain(c.q, c.role) && FlagsInv(c, initPending, pending) && BatchesInv(c.q, pending)
    ensures ReadySafe(c)
    ensures FlagsInv(AfterReady(c), initPending || InitRequested(c), pending + Requests(c))
    ensures BatchesInv(c.q, pending + Requests(c))
  {
    if c.initialized {
      forall s | s in StagesOf(c.role) && Enabled(c, s)
        ensures BatchSafe(c.q, s) && BatchInPlace(c.q, s, Batch(c.q, s))
      {
        StageBounds(c.q, c.role, s);
        BatchIsPlaced(c.q, s);
      }
      forall s: Stage ensures s in pending + Requests(c) <==> s in pending || (s in StagesOf(c.role) && Enabled(c, s)) { }
    }
  }

  lemma ReadyKeeps(y: Sys)
    requires Inv(y)
    ensures ReadySafe(y.ch) && Inv(Next(y, Ready))
  {
    ReadyFlags(y.ch, y.initPending, y.pending);
  }

  /** What the cursor chain says about one stage of the role. */
  lemma StageBounds(q: Queue, role: Role, s: Stage)
    requires Shape(q) && CursorChain(q, role) && s in StagesOf(role) && !role.Unknown?
    ensures q.offset <= q.Cursor(s) + 1 && q.Upstream(s) <= q.lastIndex
    ensures s.Decrypt? || q.Upstream(s) <= q.Cursor(Decrypt)
    ensures forall n :: q.Cursor(s) < n <= q.Upstream(s) && Drops(q, s, n) ==> TruncateSafe(q, n)
  {
    match s case _ =>
  }

  lemma SliceIsPiece(q: Queue, lo: nat, hi: nat, max: nat)
    requires Shape(q) && q.offset <= lo < hi <= q.lastIndex + 1
    ensures SliceSafe(q, lo, hi) && 1 <= |Slice(q, lo, hi, max)| <= hi - lo
    ensures forall i :: 0 <= i < |Slice(q, lo, hi, max)| ==> Slice(q, lo, hi, max)[i] == q.messages[lo - q.offset + i]
  {
    LimitIsPrefix(q.messages[lo - q.offset..hi - q.offset], max);
  }

  /** The batch is as long as the byte limit of the stage lets it be; the checks and the acknowledgements have none. */
  lemma BatchIsLongest(q: Queue, s: Stage)
    requires Shape(q) && q.offset <= q.Cursor(s) + 1 && q.Cursor(s) < q.Upstream(s) <= q.lastIndex
    ensures BatchSafe(q, s)
    ensures var todo := q.messages[q.Cursor(s) + 1 - q.offset..q.Upstream(s) + 1 - q.offset];
      && Batch(q, s) == todo[..|Batch(q, s)|]
      && (if s.Permission? || s.Sendack? then Batch(q, s) == todo else LongestFit(todo, 2097152, |Batch(q, s)|))
  {
    LimitIsLongest(q.messages[q.Cursor(s) + 1 - q.offset..q.Upstream(s) + 1 - q.offset], MaxSize(s));
  }

  lemma BatchIsPlaced(q: Queue, s: Stage)
    requires Shape(q) && q.offset <= q.Cursor(s) + 1 && q.Cursor(s) < q.Upstream(s) <= q.lastIndex
    ensures BatchSafe(q, s) && BatchInPlace(q, s, Batch(q, s))
  {
    SliceIsPiece(q, q.Cursor(s) + 1, q.Upstream(s) + 1, MaxSize(s));
  }

  lemma TickKeeps(y: Sys)
    requires Inv(y)
    ensures Inv(Next(y, Tick))
  {
  }

  lemma {:induction false} AppendAllGrows(q: Queue, ms: seq<Message>)
    requires 1 <= q.offset <= q.lastIndex + 1 && |q.messages| == q.lastIndex + 1 - q.offset
    ensures var q' := AppendAll(q, ms);
      && q.messages <= q'.messages
      && q' == q.(messages := q'.messages, lastIndex := q.lastIndex + |Taken(ms)|)
      && |q'.messages| == |q.messages| + |Taken(ms)|
      && forall k :: 0 <= k < |Taken(ms)| ==>
           q'.messages[|q.messages| + k] == Taken(ms)[k].(index := q.lastIndex + 1 + k, reason := ReasonSuccess)
  {
    if ms != [] { AppendAllGrows(q, ms[..|ms| - 1]); }
  }

  lemma {:induction false} TakenDistinct(ms: seq<Message>)
    requires DistinctIds(ms)
    ensures DistinctIds(Taken(ms)) && forall m <- Taken(ms) :: m in ms && ChannelSpec.Queued(m)
  {
    if ms != [] {
      var init := ms[..|ms| - 1];
      TakenDistinct(init);
      var last := ms[|ms| - 1];
      forall m | m in Taken(init) ensures m.id != last.id { }
    }
  }

  lemma AppendedDistinct(a: seq<Message>, b: seq<Message>)
    requires DistinctIds(a) && DistinctIds(b) && Ids(a) !! Ids(b)
    ensures DistinctIds(a + b)
  {
    var c := a + b;
    forall i, j | 0 <= i < j < |c| ensures c[i].id != c[j].id {
      if i < |a| <= j { assert a[i].id in Ids(a) && b[j - |a|].id in Ids(b); }
    }
  }

  /** A new message takes the next index and starts without a verdict. */
  lemma NewAt(q: Queue, q': Queue, sent: seq<Message>, ms: seq<Message>, t: nat)
    requires Shape(q) && |sent| == q.lastIndex && t < |Taken(ms)| && ChannelSpec.Queued(Taken(ms)[t])
    requires Shape(q') && q'.lastIndex == |sent + Taken(ms)| && q'.offset == q.offset && |q.messages| + t < |q'.messages|
    requires q'.messages[|q.messages| + t] == Taken(ms)[t].(index := q.lastIndex + 1 + t, reason := ReasonSuccess)
    ensures InOrder(q', sent + Taken(ms), |q.messages| + t) && VerdictInv(q'.messages[|q.messages| + t])
  {
    assert (sent + Taken(ms))[q.offset - 1 + |q.messages| + t] == Taken(ms)[t];
  }

  lemma OldAt(q: Queue, q': Queue, sent: seq<Message>, more: seq<Message>, k: nat)
    requires Shape(q) && |sent| == q.lastIndex && k < |q.messages| <= |q'.messages| && InOrder(q, sent, k)
    requires Shape(q') && q'.lastIndex == |sent + more| && q'.offset == q.offset && q'.messages[k] == q.messages[k]
    ensures InOrder(q', sent + more, k)
  {
  }

  lemma IncomingAt(q: Queue, q': Queue, sent: seq<Message>, ms: seq<Message>, k: nat)
    requires Shape(q) && |sent| == q.lastIndex && q.Cursor(Decrypt) <= q.lastIndex && q' == AppendAll(q, ms)
    requires Shape(q') && q'.lastIndex == |sent + Taken(ms)| && k < |q'.messages|
    requires k < |q.messages| ==> InOrder(q, sent, k) && VerdictInv(q.messages[k])
    requires k < |q.messages| && q.messages[k].index <= q.Cursor(Decrypt) ==> Plain(q.messages[k])
    requires forall i :: 0 <= i < |Taken(ms)| ==> ChannelSpec.Queued(Taken(ms)[i])
    ensures InOrder(q', sent + Taken(ms), k) && VerdictInv(q'.messages[k])
    ensures q'.messages[k].index <= q'.Cursor(Decrypt) ==> Plain(q'.messages[k])
  {
    AppendAllGrows(q, ms);
    if k < |q.messages| {
      OldAt(q, q', sent, Taken(ms), k);
    } else {
      NewAt(q, q', sent, ms, k - |q.messages|);
    }
  }

  lemma IncomingQueue(q: Queue, sent: seq<Message>, ms: seq<Message>)
    requires QueueInv(q, sent) && q.Cursor(Decrypt) <= q.lastIndex && DistinctIds(ms) && Ids(ms) !! Ids(sent)
    ensures QueueInv(AppendAll(q, ms), sent + Taken(ms))
  {
    AppendAllGrows(q, ms);
    TakenDistinct(ms);
    AppendedDistinct(sent, Taken(ms));
    var q' := AppendAll(q, ms);
    forall k | 0 <= k < |q'.messages|
      ensures InOrder(q', sent + Taken(ms), k) && VerdictInv(q'.messages[k])
      ensures q'.messages[k].index <= q'.Cursor(Decrypt) ==> Plain(q'.messages[k])
    {
      assert k < |q.messages| ==> InOrder(q, sent, k) && q.messages[k] in q.messages;
      IncomingAt(q, q', sent, ms, k);
    }
  }

  lemma GrowthKeeps(q: Queue, q': Queue, pending: map<Stage, seq<Message>>)
    requires Shape(q) && Shape(q') && BatchesInv(q, pending)
    requires q.messages <= q'.messages && q.offset == q'.offset
    requires forall s: Stage :: q'.Cursor(s) == q.Cursor(s) && q'.Upstream(s) >= q.Upstream(s)
    ensures BatchesInv(q', pending)
  {
    forall s | s in pending ensures BatchInPlace(q', s, pending[s]) {
      var batch := pending[s];
      assert BatchInPlace(q, s, batch);
      forall i | 0 <= i < |batch| ensures batch[i] == q'.messages[q'.Cursor(s) + 1 - q'.offset + i] {
        assert batch[i] == q.messages[q.Cursor(s) + 1 - q.offset + i];
      }
    }
  }

  lemma IncomingKeeps(y: Sys, ms: seq<Message>)
    requires Inv(y) && Occurs(y, Incoming(ms))
    ensures Inv(Next(y, Incoming(ms)))
  {
    assert y.ch.q.Cursor(Decrypt) <= y.ch.q.lastIndex;
    IncomingQueue(y.ch.q, y.sent, ms);
    AppendAllGrows(y.ch.q, ms);
    var q' := AppendAll(y.ch.q, ms);
    forall s: Stage ensures q'.Cursor(s) == y.ch.q.Cursor(s) && q'.Upstream(s) >= y.ch.q.Upstream(s) {
      match s case _ =>
    }
    GrowthKeeps(y.ch.q, q', y.pending);
  }

  lemma BecomeKeeps(c: Chan, role: Role, leaderId: nat)
    requires Shape(c.q) && c.initialized && !role.Unknown?
    ensures var c' := Become(c, role, leaderId);
      Shape(c'.q) && CursorChain(c'.q, role) && FlagsInv(c', false, map[]) && BatchesInv(c'.q, map[])
  {
  }

  lemma ResetKeeps(y: Sys, e: Event)
    requires Inv(y) && Occurs(y, e) && (e.InitAnswer? || e.Leadership?)
    ensures Safe(y, e) && Inv(Next(y, e))
  {
    if Resets(y, e) {
      var y' := Next(y, e);
      BecomeKeeps(y.ch.(initialized := true), y'.ch.role, y'.ch.leaderId);
      forall k | 0 <= k < |y'.ch.q.messages| ensures InOrder(y'.ch.q, y.sent, k) { assert InOrder(y.ch.q, y.sent, k); }
    }
  }

  lemma FailKeeps(y: Sys, s: Stage)
    requires Inv(y) && Occurs(y, Fail(s))
    ensures Safe(y, Fail(s)) && Inv(Next(y, Fail(s)))
  {
  }

  // ---------------------------------------------------------------- answers

  /** What the worker of stage `s` makes of the i-th message of its batch. */
  function Worked(s: Stage, batch: seq<Message>, env: Env, i: nat): Message
    requires i < |batch| && (s.Decrypt? ==> |env.conns| == |batch|)
  {
    match s
    case Decrypt => Decrypted(batch[i], env.conns[i])
    case Permission => Checked(batch[i], env.access)
    case Storage => if Stored(batch) == [] then batch[i] else Numbered(batch[i], env.store.results, env.store.failed)
    case _ => batch[i]
  }

  /** A worker's answer keeps the identity of a message and only changes what its stage may change. */
  lemma {:induction false} NumberedKeeps(m: Message, results: seq<(int, nat)>, failed: bool)
    ensures var n := Numbered(m, results, failed); n == m.(seqNo := n.seqNo, reason := n.reason)
    ensures m.id !in (set r <- results :: r.0) ==> Numbered(m, results, failed) == m
  {
    if results != [] {
      NumberedKeeps(m, results[..|results| - 1], failed);
      assert results[|results| - 1] in results;
      forall r | r in results[..|results| - 1] ensures r in results { }
    }
  }

  lemma WorkedKeeps(s: Stage, batch: seq<Message>, env: Env, i: nat)
    requires i < |batch| && (s.Decrypt? ==> |env.conns| == |batch|)
    requires s.Storage? ==> forall r <- env.store.results :: r.0 in Ids(Stored(batch))
    requires DistinctIds(batch) && VerdictInv(batch[i]) && (s.Decrypt? || Plain(batch[i]))
    ensures var w := Worked(s, batch, env, i);
      && Plain(w)
      && SameMessage(w, batch[i]) && w.index == batch[i].index && VerdictInv(w)
      && Merge(s, batch[i], w) == (if s.Decrypt? || s.Permission? || s.Storage? then w else batch[i])
      && (batch[i].reason != ReasonSuccess ==> w.reason == batch[i].reason)
      && (!s.Decrypt? ==> w == batch[i].(seqNo := w.seqNo, reason := w.reason))
  {
    if s.Storage? {
      var m := batch[i];
      NumberedKeeps(m, env.store.results, env.store.failed);
      if m.id in (set r <- env.store.results :: r.0) {
        var n :| n in Stored(batch) && n.id == m.id;
        SelectMember(batch, Storable, n);
        assert n == m && Storable(m);
      }
    }
  }

  lemma {:induction false} PatchFinds(s: Stage, m: Message, answers: seq<Message>, i: nat)
    requires i < |answers| && answers[i].id == m.id && DistinctIds(answers)
    ensures Patch(s, m, answers) == Merge(s, m, answers[i])
  {
    if i > 0 {
      assert answers[0].id != answers[i].id;
      PatchFinds(s, m, answers[1..], i - 1);
    }
  }

  /** A batch that lies in the queue is distinct, in order, and ends where its stage's cursor will go. */
  lemma BatchFacts(q: Queue, sent: seq<Message>, s: Stage, batch: seq<Message>)
    requires QueueInv(q, sent) && BatchInPlace(q, s, batch)
    ensures DistinctIds(batch)
    ensures forall i :: 0 <= i < |batch| ==> batch[i].index == q.Cursor(s) + 1 + i && VerdictInv(batch[i])
    ensures q.Upstream(s) <= q.Cursor(Decrypt) ==> forall i :: 0 <= i < |batch| ==> Plain(batch[i])
  {
    var lo := q.Cursor(s) + 1 - q.offset;
    forall i | 0 <= i < |batch|
      ensures batch[i].index == q.Cursor(s) + 1 + i && VerdictInv(batch[i])
      ensures SameMessage(batch[i], sent[q.Cursor(s) + i])
      ensures batch[i].index <= q.Cursor(Decrypt) ==> Plain(batch[i])
    {
      assert batch[i] == q.messages[lo + i] && InOrder(q, sent, lo + i) && q.messages[lo + i] in q.messages;
    }
  }

  predicate Writes(s: Stage) {
    s.Decrypt? || s.Permission? || s.Storage?
  }

  lemma WriteBackAt(s: Stage, ms: seq<Message>, lo: nat, answers: seq<Message>, k: nat)
    requires k < |ms| && lo + |answers| <= |ms| && DistinctIds(answers)
    requires forall i :: 0 <= i < |answers| ==> answers[i].id == ms[lo + i].id
    ensures WriteBack(s, ms, lo, lo + |answers|, answers)[k]
         == if lo <= k < lo + |answers| then Merge(s, ms[k], answers[k - lo]) else ms[k]
  {
    if lo <= k < lo + |answers| { PatchFinds(s, ms[k], answers, k - lo); }
  }

  /** The answer of a writing stage: the batch, each message replaced by what the worker made of it. */
  function Answers(s: Stage, batch: seq<Message>, env: Env): seq<Message>
    requires s.Decrypt? ==> |env.conns| == |batch|
  {
    seq(|batch|, i requires 0 <= i < |batch| => Worked(s, batch, env, i))
  }

  lemma WorkActionAnswers(s: Stage, batch: seq<Message>, env: Env)
    requires |batch| > 0 && (s.Decrypt? ==> |env.conns| == |batch|)
    ensures Writes(s) ==> WorkAction(s, batch, env).answers == Answers(s, batch, env)
  {
    if s.Storage? { assert StoreBatch(batch, env.store) == Answers(s, batch, env); }
  }

  ghost predicate GoodEnv(s: Stage, batch: seq<Message>, env: Env) {
    && (s.Decrypt? ==> |env.conns| == |batch|)
    && (s.Storage? ==> forall r <- env.store.results :: r.0 in Ids(Stored(batch)))
  }

  /** The answers of a batch in place lie over the queued messages with the same ids. */
  lemma AnswersLineUp(q: Queue, sent: seq<Message>, s: Stage, batch: seq<Message>, env: Env)
    requires QueueInv(q, sent) && BatchInPlace(q, s, batch) && GoodEnv(s, batch, env) && Writes(s)
    requires q.Upstream(s) <= q.Cursor(Decrypt) || s.Decrypt?
    ensures var answers := Answers(s, batch, env);
      DistinctIds(answers) && forall i :: 0 <= i < |batch| ==> answers[i].id == q.messages[q.Cursor(s) + 1 - q.offset + i].id
  {
    BatchFacts(q, sent, s, batch);
    forall i | 0 <= i < |batch| ensures Answers(s, batch, env)[i].id == batch[i].id {
      WorkedKeeps(s, batch, env, i);
    }
  }

  /** After a writing stage's success the k-th message is what the worker made of it, or unchanged. */
  lemma WrittenAt(q: Queue, sent: seq<Message>, s: Stage, batch: seq<Message>, env: Env, k: nat)
    requires QueueInv(q, sent) && BatchInPlace(q, s, batch) && GoodEnv(s, batch, env) && Writes(s)
    requires q.Upstream(s) <= q.Cursor(Decrypt) || s.Decrypt?
    requires k < |q.messages|
    ensures var lo := q.Cursor(s) + 1 - q.offset;
      var m := WriteBack(s, q.messages, lo, lo + |batch|, Answers(s, batch, env))[k];
      && (lo <= k < lo + |batch| ==> m == Worked(s, batch, env, k - lo) && Plain(m))
      && (!(lo <= k < lo + |batch|) ==> m == q.messages[k])
      && SameMessage(m, q.messages[k]) && m.index == q.messages[k].index && VerdictInv(m)
      && (q.messages[k].reason != ReasonSuccess ==> m.reason == q.messages[k].reason)
      && (!s.Decrypt? ==> m == q.messages[k].(seqNo := m.seqNo, reason := m.reason))
  {
    var lo := q.Cursor(s) + 1 - q.offset;
    AnswersLineUp(q, sent, s, batch, env);
    WriteBackAt(s, q.messages, lo, Answers(s, batch, env), k);
    BatchFacts(q, sent, s, batch);
    if lo <= k < lo + |batch| {
      assert batch[k - lo] == q.messages[k];
      WorkedKeeps(s, batch, env, k - lo);
    } else {
      assert q.messages[k] in q.messages;
    }
  }

  // ---------------------------------------------------------------- one answer, seen from outside

  /** How an answer of stage `s` that moves the cursor from `lo` to `n` may change a message. */
  predicate Follows(m: Message, m': Message, s: Stage, lo: nat, n: nat) {
    && SameMessage(m', m) && m'.index == m.index && VerdictInv(m')
    && (m.reason != ReasonSuccess ==> m'.reason == m.reason)
    && (if Writes(s) && lo < m.index <= n then Plain(m') else m' == m)
    && (!s.Decrypt? ==> m' == m.(seqNo := m'.seqNo, reason := m'.reason))
  }

  /** Everything the invariant needs to know about a successful answer of stage `s` up to index `n`. */
  ghost predicate Moves(q: Queue, q': Queue, s: Stage, n: nat) {
    && q.Cursor(s) < n <= q.Upstream(s)
    && (forall t: Stage :: q'.Cursor(t) == if t == s then n else q.Cursor(t))
    && q'.lastIndex == q.lastIndex
    && q'.offset == (if Drops(q, s, n) then n + 1 else q.offset) >= q.offset
    && |q'.messages| + q'.offset == |q.messages| + q.offset
    && forall k {:trigger q'.messages[k]} :: 0 <= k < |q'.messages| ==>
         Follows(q.messages[k + q'.offset - q.offset], q'.messages[k], s, q.Cursor(s), n)
  }

  lemma MovesKeepsQueue(q: Queue, q': Queue, sent: seq<Message>, s: Stage, n: nat)
    requires QueueInv(q, sent) && Moves(q, q', s, n) && q'.offset <= q'.lastIndex + 1
    ensures QueueInv(q', sent)
  {
    forall k | 0 <= k < |q'.messages|
      ensures InOrder(q', sent, k) && VerdictInv(q'.messages[k])
      ensures q'.messages[k].index <= q'.Cursor(Decrypt) ==> Plain(q'.messages[k])
    {
      var j := k + q'.offset - q.offset;
      assert InOrder(q, sent, j) && q.messages[j] in q.messages;
    }
  }

  lemma MovesKeepsChain(q: Queue, q': Queue, role: Role, s: Stage, n: nat)
    requires Shape(q) && CursorChain(q, role) && s in StagesOf(role) && !role.Unknown? && Moves(q, q', s, n)
    ensures CursorChain(q', role) && Shape(q')
  {
    assert forall t: Stage :: q'.Cursor(t) == if t == s then n else q.Cursor(t);
  }

  lemma MovesBounds(q: Queue, q': Queue, role: Role, s: Stage, n: nat, t: Stage)
    requires Shape(q) && CursorChain(q, role) && s in StagesOf(role) && t in StagesOf(role) && !role.Unknown? && t != s
    requires q.Cursor(s) < n <= q.Upstream(s) && q'.lastIndex == q.lastIndex
    requires forall u: Stage :: q'.Cursor(u) == if u == s then n else q.Cursor(u)
    requires q'.offset == if Drops(q, s, n) then n + 1 else q.offset
    ensures q'.Cursor(t) == q.Cursor(t) && q'.Upstream(t) >= q.Upstream(t)
    ensures q.Cursor(t) < q.Upstream(t) ==> q'.offset <= q'.Cursor(t) + 1
    ensures Writes(s) ==> q.Upstream(t) <= q.Cursor(s) || n <= q.Cursor(t)
  {
    match t
    case Decrypt =>
    case Permission => assert q'.Cursor(Decrypt) >= q.Cursor(Decrypt);
    case Storage => assert q'.Cursor(Permission) >= q.Cursor(Permission);
    case Sendack => assert q'.Cursor(Storage) >= q.Cursor(Storage);
    case Deliver => assert q'.Cursor(Storage) >= q.Cursor(Storage);
    case Forward => assert q'.Cursor(Decrypt) >= q.Cursor(Decrypt);
  }

  lemma MovesKeepsBatch(q: Queue, q': Queue, s: Stage, n: nat, t: Stage, batch: seq<Message>)
    requires Moves(q, q', s, n) && BatchInPlace(q, t, batch)
    requires forall k :: 0 <= k < |q.messages| ==> q.messages[k].index == q.offset + k
    requires q'.Cursor(t) == q.Cursor(t) && q'.Upstream(t) >= q.Upstream(t) && q'.offset <= q'.Cursor(t) + 1
    requires Writes(s) ==> q.Upstream(t) <= q.Cursor(s) || n <= q.Cursor(t)
    ensures BatchInPlace(q', t, batch)
  {
    var lo, lo' := q.Cursor(t) + 1 - q.offset, q'.Cursor(t) + 1 - q'.offset;
    forall i | 0 <= i < |batch| ensures batch[i] == q'.messages[lo' + i] {
      assert batch[i] == q.messages[lo + i];
    }
  }

  lemma MovesKeepsBatches(q: Queue, q': Queue, sent: seq<Message>, role: Role, pending: map<Stage, seq<Message>>, s: Stage, n: nat)
    requires QueueInv(q, sent) && CursorChain(q, role) && !role.Unknown? && BatchesInv(q, pending)
    requires s in pending && forall t <- pending :: t in StagesOf(role)
    requires Moves(q, q', s, n) && CursorChain(q', role) && Shape(q')
    ensures BatchesInv(q', pending - {s})
  {
    forall k | 0 <= k < |q.messages| ensures q.messages[k].index == q.offset + k { assert InOrder(q, sent, k); }
    forall t | t in pending && t != s ensures BatchInPlace(q', t, pending[t]) {
      MovesBounds(q, q', role, s, n, t);
      MovesKeepsBatch(q, q', s, n, t, pending[t]);
    }
  }

  lemma MovesKeepsHistory(q: Queue, q': Queue, role: Role, epoch: nat, done: set<Done>, done': set<Done>, s: Stage, n: nat)
    requires Shape(q) && CursorChain(q, role) && s in StagesOf(role) && History(q, role, epoch, done) && !role.Unknown?
    requires Moves(q, q', s, n) && done <= done'
    requires forall i: nat :: q.Cursor(s) < i <= n ==> Done(epoch, s, i) in done'
    ensures History(q', role, epoch, done')
  {
    forall i: nat | 1 <= i < q'.offset ensures Settled(done', i) {
      if i < q.offset {
        assert Settled(done, i);
      } else if s.Forward? {
        assert Done(epoch, Forward, i) in done';
      } else {
        assert i <= q'.Cursor(Sendack) && i <= q'.Cursor(Deliver);
        assert Done(epoch, Sendack, i) in done' && Done(epoch, Deliver, i) in done';
      }
    }
  }

  // ---------------------------------------------------------------- a worker's answer

  /** The answer to a batch in place reports exactly the end of that batch. */
  lemma AnswerTarget(q: Queue, sent: seq<Message>, s: Stage, batch: seq<Message>, env: Env)
    requires QueueInv(q, sent) && BatchInPlace(q, s, batch) && GoodEnv(s, batch, env)
    requires q.Upstream(s) <= q.Cursor(Decrypt) || s.Decrypt?
    ensures Target(WorkAction(s, batch, env)) == q.Cursor(s) + |batch|
    ensures Writes(s) ==> WorkAction(s, batch, env).answers == Answers(s, batch, env)
  {
    BatchFacts(q, sent, s, batch);
    WorkActionAnswers(s, batch, env);
    if s.Decrypt? { WorkedKeeps(s, batch, env, |batch| - 1); }
  }

  /** A successful answer that reaches `n` behaves as AfterAnswer says; the invariant is not needed for that. */
  lemma StepOnSuccess(c: Chan, a: Action, n: nat)
    requires a.Resp? && a.ok && Handles(c, a) && Target(a) == n > c.q.Cursor(a.stage)
    requires Writes(a.stage) ==> c.q.offset <= c.q.Cursor(a.stage) + 1 && n + 1 - c.q.offset <= |c.q.messages|
    requires Drops(c.q, a.stage, n) ==> TruncateSafe(c.q, n)
    ensures StepSafe(c, a)
    ensures AfterStep(c, a) == c.(q := AfterAnswer(c.q, a.stage, n, a.answers),
                                  flags := c.flags.Put(a.stage, c.flags.Get(a.stage).(processing := false)))
  {
  }

  lemma WritingAnswer(q: Queue, s: Stage, n: nat, answers: seq<Message>)
    requires Writes(s)
    ensures var q' := AfterAnswer(q, s, n, answers);
      && q'.messages == WriteBack(s, q.messages, q.Cursor(s) + 1 - q.offset, n + 1 - q.offset, answers)
      && q'.offset == q.offset && q'.lastIndex == q.lastIndex
      && forall t: Stage :: q'.Cursor(t) == if t == s then n else q.Cursor(t)
  {
  }

  lemma WritingMoves(q: Queue, q': Queue, sent: seq<Message>, s: Stage, batch: seq<Message>, env: Env)
    requires QueueInv(q, sent) && BatchInPlace(q, s, batch) && GoodEnv(s, batch, env) && Writes(s)
    requires q.Upstream(s) <= q.Cursor(Decrypt) || s.Decrypt?
    requires q'.offset == q.offset && q'.lastIndex == q.lastIndex
    requires forall t: Stage :: q'.Cursor(t) == if t == s then q.Cursor(s) + |batch| else q.Cursor(t)
    requires var lo := q.Cursor(s) + 1 - q.offset; q'.messages == WriteBack(s, q.messages, lo, lo + |batch|, Answers(s, batch, env))
    ensures Moves(q, q', s, q.Cursor(s) + |batch|)
  {
    forall k | 0 <= k < |q'.messages| ensures Follows(q.messages[k], q'.messages[k], s, q.Cursor(s), q.Cursor(s) + |batch|) {
      assert InOrder(q, sent, k);
      WrittenAt(q, sent, s, batch, env, k);
    }
  }

  lemma FinishingAnswer(q: Queue, s: Stage, n: nat, answers: seq<Message>)
    requires !Writes(s) && (Drops(q, s, n) ==> TruncateSafe(q, n))
    ensures var q' := AfterAnswer(q, s, n, answers);
      && q'.messages == (if Drops(q, s, n) then q.messages[n + 1 - q.offset..] else q.messages)
      && q'.offset == (if Drops(q, s, n) then n + 1 else q.offset) && q'.lastIndex == q.lastIndex
      && forall t: Stage :: q'.Cursor(t) == if t == s then n else q.Cursor(t)
  {
  }

  lemma SameFollows(m: Message, s: Stage, lo: nat, n: nat)
    requires VerdictInv(m) && !Writes(s)
    ensures Follows(m, m, s, lo, n)
  {
  }

  lemma FinishingMoves(q: Queue, q': Queue, s: Stage, n: nat)
    requires Shape(q) && q.Cursor(s) < n <= q.Upstream(s) && !Writes(s)
    requires forall m <- q.messages :: VerdictInv(m)
    requires (Drops(q, s, n) ==> TruncateSafe(q, n)) && q'.lastIndex == q.lastIndex
    requires q'.messages == (if Drops(q, s, n) then q.messages[n + 1 - q.offset..] else q.messages)
    requires q'.offset == (if Drops(q, s, n) then n + 1 else q.offset)
    requires forall t: Stage :: q'.Cursor(t) == if t == s then n else q.Cursor(t)
    ensures Moves(q, q', s, n)
  {
    forall k | 0 <= k < |q'.messages|
      ensures Follows(q.messages[k + q'.offset - q.offset], q'.messages[k], s, q.Cursor(s), n)
    {
      assert q'.messages[k] == q.messages[k + q'.offset - q.offset];
      SameFollows(q.messages[k + q'.offset - q.offset], s, q.Cursor(s), n);
    }
  }

  lemma WritingSucceeds(q: Queue, q': Queue, sent: seq<Message>, s: Stage, batch: seq<Message>, env: Env)
    requires QueueInv(q, sent) && BatchInPlace(q, s, batch) && GoodEnv(s, batch, env) && Writes(s)
    requires q.Upstream(s) <= q.Cursor(Decrypt) || s.Decrypt?
    requires q' == AfterAnswer(q, s, q.Cursor(s) + |batch|, Answers(s, batch, env))
    ensures Moves(q, q', s, q.Cursor(s) + |batch|)
  {
    WritingAnswer(q, s, q.Cursor(s) + |batch|, Answers(s, batch, env));
    WritingMoves(q, q', sent, s, batch, env);
  }

  /** A worker's success moves its cursor to the end of its batch, whatever the answers were. */
  lemma AnswerSucceeds(c: Chan, sent: seq<Message>, s: Stage, batch: seq<Message>, env: Env) returns (q': Queue)
    requires QueueInv(c.q, sent) && s in StagesOf(c.role) && (s.Decrypt? || c.q.Upstream(s) <= c.q.Cursor(Decrypt))
    requires BatchInPlace(c.q, s, batch) && GoodEnv(s, batch, env) && WorkAction(s, batch, env).ok
    requires Drops(c.q, s, c.q.Cursor(s) + |batch|) ==> TruncateSafe(c.q, c.q.Cursor(s) + |batch|)
    ensures var a := WorkAction(s, batch, env);
      StepSafe(c, a) && AfterStep(c, a) == c.(q := q', flags := c.flags.Put(s, c.flags.Get(s).(processing := false)))
    ensures Moves(c.q, q', s, c.q.Cursor(s) + |batch|)
  {
    var a, n := WorkAction(s, batch, env), c.q.Cursor(s) + |batch|;
    q' := AfterAnswer(c.q, s, n, a.answers);
    AnswerTarget(c.q, sent, s, batch, env);
    StepOnSuccess(c, a, n);
    if Writes(s) {
      WritingSucceeds(c.q, q', sent, s, batch, env);
    } else {
      FinishingAnswer(c.q, s, n, a.answers);
      FinishingMoves(c.q, q', s, n);
    }
  }

  lemma BatchFinished(q: Queue, sent: seq<Message>, epoch: nat, s: Stage, batch: seq<Message>)
    requires QueueInv(q, sent) && BatchInPlace(q, s, batch)
    ensures forall i: nat :: q.Cursor(s) < i <= q.Cursor(s) + |batch| ==> Done(epoch, s, i) in Finished(epoch, s, batch)
  {
    BatchFacts(q, sent, s, batch);
    forall i: nat | q.Cursor(s) < i <= q.Cursor(s) + |batch| ensures Done(epoch, s, i) in Finished(epoch, s, batch) {
      assert batch[i - q.Cursor(s) - 1] in batch;
    }
  }

  /** The flags of the answered stage: free again after success, waiting for the retry after failure. */
  lemma AnswerFlags(c: Chan, q': Queue, initPending: bool, pending: map<Stage, seq<Message>>, s: Stage, ok: bool)
    requires FlagsInv(c, initPending, pending) && s in pending
    ensures var r := c.flags.Get(s);
      var c' := c.(q := q', flags := c.flags.Put(s, if ok then r.(processing := false) else r.(willRetry := true)));
      FlagsInv(c', initPending, pending - {s})
  {
  }

  lemma SuccessKeeps(y: Sys, s: Stage, env: Env)
    requires Inv(y) && Occurs(y, Answer(s, env)) && WorkAction(s, y.pending[s], env).ok
    ensures Safe(y, Answer(s, env)) && Inv(Next(y, Answer(s, env)))
  {
    var batch, c, n := y.pending[s], y.ch, y.ch.q.Cursor(s) + |y.pending[s]|;
    StageBounds(c.q, c.role, s);
    var q' := AnswerSucceeds(c, y.sent, s, batch, env);
    MovesKeepsChain(c.q, q', c.role, s, n);
    MovesKeepsQueue(c.q, q', y.sent, s, n);
    MovesKeepsBatches(c.q, q', y.sent, c.role, y.pending, s, n);
    BatchFinished(c.q, y.sent, y.epoch, s, batch);
    MovesKeepsHistory(c.q, q', c.role, y.epoch, y.done, y.done + Finished(y.epoch, s, batch), s, n);
    AnswerFlags(c, q', y.initPending, y.pending, s, true);
  }

  lemma AnswerKeeps(y: Sys, s: Stage, env: Env)
    requires Inv(y) && Occurs(y, Answer(s, env))
    ensures Safe(y, Answer(s, env)) && Inv(Next(y, Answer(s, env)))
  {
    if WorkAction(s, y.pending[s], env).ok {
      SuccessKeeps(y, s, env);
    } else {
      AnswerFlags(y.ch, y.ch.q, y.initPending, y.pending, s, false);
      assert y.done + {} == y.done;
    }
  }

  /** The queue after a worker's answer, as seen from the run. */
  lemma AnswerQueue(y: Sys, s: Stage, env: Env) returns (q': Queue)
    requires Inv(y) && Occurs(y, Answer(s, env)) && Safe(y, Answer(s, env))
    ensures Next(y, Answer(s, env)).ch.q == q' && Next(y, Answer(s, env)).ch.role == y.ch.role
    ensures s in StagesOf(y.ch.role) && !y.ch.role.Unknown?
    ensures if WorkAction(s, y.pending[s], env).ok then Moves(y.ch.q, q', s, y.ch.q.Cursor(s) + |y.pending[s]|) else q' == y.ch.q
  {
    q' := y.ch.q;
    StageBounds(q', y.ch.role, s);
    if WorkAction(s, y.pending[s], env).ok { q' := AnswerSucceeds(y.ch, y.sent, s, y.pending[s], env); }
  }
}
