/** What becomes of the messages of a Send action: the ordinary ones are queued in order, and none of them is lost. */
module ChannelIntake {
  import opened Messages
  import opened ChannelSpec
  import opened ChannelRuns
  import opened ChannelInvariant
  import opened ChannelTheorems
  import opened ChannelReports

  /** The characters that Unicode calls white space. */
  predicate IsSpace(ch: char) {
    ('\U{0009}' <= ch <= '\U{000D}') || ch in {' ', '\U{0085}', '\U{00A0}', '\U{1680}', '\U{2028}', '\U{2029}', '\U{202F}', '\U{205F}', '\U{3000}'}
    || ('\U{2000}' <= ch <= '\U{200A}')
  }

  /** A message with a packet whose stream number is empty or white space. */
  predicate Ordinary(m: Message) {
    m.packet.Some? && forall ch <- m.packet.value.streamNo :: IsSpace(ch)
  }

  function Ordinaries(ms: seq<Message>): nat {
    if ms == [] then 0 else Ordinaries(ms[..|ms| - 1]) + if Ordinary(ms[|ms| - 1]) then 1 else 0
  }

  lemma OrdinaryIsQueued(m: Message)
    ensures Ordinary(m) <==> ChannelSpec.Queued(m)
  {
    if m.packet.Some? {
      var s := m.packet.value.streamNo;
      if Ordinary(m) { forall ch | ch in s ensures Blank([ch]) { assert IsSpace(ch); } }
      if Blank(s) { forall ch | ch in s ensures IsSpace(ch) { } }
    }
  }

  /** The k-th message, if ordinary, is the one with this number among the ordinary ones. */
  lemma {:induction false} TakenAt(ms: seq<Message>, k: nat)
    requires k < |ms|
    ensures |Taken(ms)| == Ordinaries(ms)
    ensures Ordinary(ms[k]) ==> Ordinaries(ms[..k]) < |Taken(ms)| && Taken(ms)[Ordinaries(ms[..k])] == ms[k]
  {
    var init, last := ms[..|ms| - 1], ms[|ms| - 1];
    OrdinaryIsQueued(last);
    if init == [] {
      assert Taken(init) == [];
    } else {
      TakenAt(init, if k < |init| then k else 0);
    }
    if k < |init| { assert init[..k] == ms[..k]; } else { assert ms[..k] == init; }
  }

  lemma TakenCount(ms: seq<Message>)
    ensures |Taken(ms)| == Ordinaries(ms)
  {
    if ms != [] { TakenAt(ms, 0); }
  }

  /**
   After a Send action every message with a packet and no stream stands behind all earlier ones, unchanged but for its
   index, the next one, and its verdict, success; no other message has come in, and nothing else of the channel has changed.
   */
  lemma SendQueuesTheOrdinary(c: Chan, ms: seq<Message>)
    requires 1 <= c.q.offset <= c.q.lastIndex + 1 && |c.q.messages| == c.q.lastIndex + 1 - c.q.offset
    ensures var q, q' := c.q, AfterStep(c, Send(ms)).q;
      && AfterStep(c, Send(ms)) == c.(q := q.(messages := q'.messages, lastIndex := q.lastIndex + Ordinaries(ms)))
      && q.messages <= q'.messages && |q'.messages| == |q.messages| + Ordinaries(ms)
      && forall k :: 0 <= k < |ms| && Ordinary(ms[k]) ==>
           var n := Ordinaries(ms[..k]);
           n < Ordinaries(ms) && q'.messages[|q.messages| + n] == ms[k].(index := q.lastIndex + 1 + n, reason := ReasonSuccess)
  {
    AppendAllGrows(c.q, ms);
    TakenCount(ms);
    forall k | 0 <= k < |ms| && Ordinary(ms[k]) ensures Ordinaries(ms[..k]) < |Taken(ms)| && Taken(ms)[Ordinaries(ms[..k])] == ms[k] {
      TakenAt(ms, k);
    }
  }

  /** The number that the k-th message of a Send action gets. */
  function NumberOf(y: Sys, ms: seq<Message>, k: nat): nat
    requires k < |ms|
  {
    |y.sent| + Ordinaries(ms[..k]) + 1
  }

  lemma SentAt(y: Sys, ms: seq<Message>, k: nat)
    requires Inv(y) && Occurs(y, Incoming(ms)) && k < |ms| && Ordinary(ms[k])
    ensures var y' := Next(y, Incoming(ms)); y'.ch.q.lastIndex == |y'.sent| == |y.sent| + Ordinaries(ms)
    ensures NumberOf(y, ms, k) <= |Next(y, Incoming(ms)).sent| && Next(y, Incoming(ms)).sent[NumberOf(y, ms, k) - 1] == ms[k]
  {
    TakenAt(ms, k);
    IncomingKeeps(y, ms);
  }

  lemma {:induction false} SentStays(nodeId: nat, ys: seq<Sys>, es: seq<Event>, j: nat, l: nat)
    requires IsRun(nodeId, ys, es) && j <= l < |ys|
    ensures ys[j].sent <= ys[l].sent
    decreases l
  {
    if j < l {
      SentStays(nodeId, ys, es, j, l - 1);
      RunGrows(nodeId, ys, es, l - 1);
    }
  }

  /**
   End to end: in every later state of the run each ordinary message that has come in stands in the queue in its place, or
   has left it and was accounted for.
   */
  lemma NothingSentIsLost(nodeId: nat, ys: seq<Sys>, es: seq<Event>, j: nat, l: nat, ms: seq<Message>, k: nat, systemDevice: string)
      returns (m: Message)
    requires IsRun(nodeId, ys, es) && j < l < |ys| && es[j] == Incoming(ms) && k < |ms| && Ordinary(ms[k])
    requires forall e <- es :: SameDevice(e, systemDevice)
    ensures SameMessage(m, ms[k]) && m.index == NumberOf(ys[j], ms, k)
    ensures m in ys[l].ch.q.messages || AccountedFor(ys[l].log, m, systemDevice)
  {
    var i := NumberOf(ys[j], ms, k);
    RunInv(nodeId, ys, es, j);
    assert IsStep(ys[j], es[j], ys[j + 1]);
    SentAt(ys[j], ms, k);
    SentStays(nodeId, ys, es, j + 1, l);
    m := QueuedOrGone(nodeId, ys, es, l, i, systemDevice);
  }

  lemma QueuedOrGone(nodeId: nat, ys: seq<Sys>, es: seq<Event>, l: nat, i: nat, systemDevice: string) returns (m: Message)
    requires IsRun(nodeId, ys, es) && l < |ys| && 1 <= i <= |ys[l].sent| && forall e <- es :: SameDevice(e, systemDevice)
    ensures SameMessage(m, ys[l].sent[i - 1]) && m.index == i
    ensures m in ys[l].ch.q.messages || AccountedFor(ys[l].log, m, systemDevice)
  {
    if i >= ys[l].ch.q.offset {
      RunInv(nodeId, ys, es, l);
      m := QueuedAs(ys[l], i);
    } else {
      var t;
      m, t := EveryLeaverIsAccountedFor(nodeId, ys, es, l, i, systemDevice);
      AccountStays(ys[t + 1].log, ys[l].log, m, systemDevice);
    }
  }
}
