/**
 The workers behind the pipeline stages (channel_reactor_process.go): what each one makes of a
 batch, given the answers of the connection table, the store and the other nodes. A batch is a
 value: a worker returns the changed batch instead of writing into the queue's array.
 */
module Stages {
  import opened Options
  import opened Messages

  // ---------------------------------------------------------------- decrypt

  /** The sender's connection at the time of decryption, and what decoding the payload gave. */
  datatype Connection = Offline | Online(decoded: seq<int>, failed: bool)

  function Decrypted(m: Message, conn: Connection): Message {
    if !m.isEncrypt || m.sender.connId == 0 then m
    else if conn.Offline? then m.(isEncrypt := false, reason := ReasonSenderOffline)
    else if m.packet.None? || m.packet.value.payload == [] then m.(isEncrypt := false, reason := ReasonPayloadDecodeError)
    else
      var packet := if conn.decoded == [] then m.packet else Some(m.packet.value.(payload := conn.decoded));
      m.(isEncrypt := false, packet := packet, reason := if conn.failed then ReasonPayloadDecodeError else m.reason)
  }

  function DecryptBatch(ms: seq<Message>, conns: seq<Connection>): seq<Message>
    requires |conns| == |ms|
  {
    seq(|ms|, i requires 0 <= i < |ms| => Decrypted(ms[i], conns[i]))
  }

  /** A message that was encrypted and has a connection that could decrypt it. */
  predicate Encrypted(m: Message) {
    m.isEncrypt && m.sender.connId != 0
  }

  /** What the connection makes of the payload: the plaintext, if it is online and gives any. */
  function Plaintext(payload: seq<int>, conn: Connection): seq<int> {
    if conn.Online? && payload != [] && conn.decoded != [] then conn.decoded else payload
  }

  /**
   What decryption has made of `m`: an encrypted message is marked as plain, carries the plaintext, and keeps its verdict
   exactly if its sender was online, it had a payload and that could be decoded; any other message is left alone.
   */
  predicate DecryptedInto(m: Message, conn: Connection, m': Message) {
    if !Encrypted(m) then m' == m
    else
      && m' == m.(isEncrypt := false, packet := m'.packet, reason := m'.reason)
      && (m.packet.None? ==> m'.packet.None?)
      && (m.packet.Some? ==> m'.packet == Some(m.packet.value.(payload := Plaintext(m.packet.value.payload, conn))))
      && (conn.Offline? ==> m'.reason == ReasonSenderOffline)
      && (conn.Online? ==>
            m'.reason == if m.packet.None? || m.packet.value.payload == [] || conn.failed then ReasonPayloadDecodeError else m.reason)
  }

  method HandlePayloadDecrypt(ms: seq<Message>, conns: seq<Connection>) returns (r: seq<Message>)
    requires |conns| == |ms|
    ensures r == DecryptBatch(ms, conns)
    ensures forall k :: 0 <= k < |ms| ==> DecryptedInto(ms[k], conns[k], r[k])
  {
    r := ms;
    for i := 0 to |ms|
      invariant |r| == |ms|
      invariant forall k :: 0 <= k < |ms| ==> r[k] == if k < i then Decrypted(ms[k], conns[k]) else ms[k]
    {
      var msg := r[i];
      if !msg.isEncrypt { continue; }
      if msg.sender.connId == 0 { continue; }
      msg := msg.(isEncrypt := false);
      var decoded: seq<int> := [];
      if conns[i].Online? && msg.packet.Some? && |msg.packet.value.payload| > 0 {
        decoded := conns[i].decoded;
        if conns[i].failed { msg := msg.(reason := ReasonPayloadDecodeError); }
      } else if conns[i].Offline? {
        msg := msg.(reason := ReasonSenderOffline);
      } else {
        msg := msg.(reason := ReasonPayloadDecodeError);
      }
      if |decoded| > 0 { msg := msg.(packet := Some(msg.packet.value.(payload := decoded))); }
      r := r[i := msg];
    }
  }

  // ---------------------------------------------------------------- permission

  /** An answer of the store or the cluster; `Failed` is an error return. */
  datatype Reply = Failed | Known(yes: bool)

  datatype Peer = NoLeader | Local | Remote(reply: RemoteReply)
  datatype RemoteReply = Unreachable | StatusOK | StatusError | Status(code: ReasonCode)

  datatype Kind = Info | CustomerService | Person(uid1: string, uid2: string) | Group(channelId: string)

  /** Everything hasPermission asks about a channel while one batch is checked. */
  datatype Access = Access(
    kind: Kind,
    ban: bool,
    disband: bool,
    systemUids: set<string>,
    whitelistOffOfPerson: bool,
    leader: string -> Peer,
    denied: (string, string) -> Reply,
    allowed: (string, string) -> Reply,
    subscribed: string -> Reply,
    hasAllowlist: Reply)

  function AllowSend(a: Access, from: string, to: string): ReasonCode {
    match a.denied(to, from)
    case Failed => ReasonSystemError
    case Known(true) => ReasonInBlacklist
    case Known(false) =>
      if a.whitelistOffOfPerson then ReasonSuccess
      else match a.allowed(to, from)
        case Failed => ReasonSystemError
        case Known(yes) => if yes then ReasonSuccess else ReasonNotInWhitelist
  }

  function RequestAllowSend(a: Access, from: string, to: string): ReasonCode {
    match a.leader(to)
    case NoLeader => ReasonSystemError
    case Local => AllowSend(a, from, to)
    case Remote(Unreachable) => ReasonSystemError
    case Remote(StatusOK) => ReasonSuccess
    case Remote(StatusError) => ReasonSystemError
    case Remote(Status(code)) => code
  }

  /** hasPermission; an error return is always the code ReasonSystemError. */
  function HasPermission(a: Access, fromUid: string): ReasonCode {
    if a.kind.Info? || a.kind.CustomerService? then ReasonSuccess
    else if fromUid in a.systemUids then ReasonSuccess
    else if a.kind.Person? then
      var toUid := if a.kind.uid1 == fromUid then a.kind.uid2 else a.kind.uid1;
      if toUid in a.systemUids then ReasonSuccess else RequestAllowSend(a, fromUid, toUid)
    else if a.ban then ReasonBan
    else if a.disband then ReasonDisband
    else match a.denied(a.kind.channelId, fromUid)
      case Failed => ReasonSystemError
      case Known(true) => ReasonInBlacklist
      case Known(false) =>
        match a.subscribed(fromUid)
        case Failed => ReasonSystemError
        case Known(false) => ReasonSubscriberNotExist
        case Known(true) =>
          match a.hasAllowlist
          case Failed => ReasonSystemError
          case Known(false) => ReasonSuccess
          case Known(true) =>
            match a.allowed(a.kind.channelId, fromUid)
            case Failed => ReasonSystemError
            case Known(yes) => if yes then ReasonSuccess else ReasonNotInWhitelist
  }

  // Which sender is admitted to a channel, and for which cause another is refused, told from the answers alone.

  predicate SystemUid(a: Access, uid: string) { uid in a.systemUids }

  function OtherOf(a: Access, uid: string): string
    requires a.kind.Person?
  {
    if a.kind.uid1 == uid then a.kind.uid2 else a.kind.uid1
  }

  /** The sender's right is a matter between two people. */
  predicate Personal(a: Access, uid: string) {
    a.kind.Person? && !SystemUid(a, uid) && !SystemUid(a, OtherOf(a, uid))
  }

  /** The receiver is led by this node, and its lists are asked here. */
  predicate AskedHere(a: Access, uid: string) {
    Personal(a, uid) && a.leader(OtherOf(a, uid)).Local?
  }

  /** The receiver's own node has answered with a status of its own. */
  predicate RemoteSays(a: Access, uid: string, code: ReasonCode) {
    Personal(a, uid) && a.leader(OtherOf(a, uid)) == Remote(Status(code))
  }

  /** A group that is neither banned nor disbanded asks its lists. */
  predicate GroupAsked(a: Access, uid: string) {
    a.kind.Group? && !SystemUid(a, uid) && !a.ban && !a.disband
  }

  predicate Subscriber(a: Access, uid: string) {
    GroupAsked(a, uid) && a.denied(a.kind.channelId, uid) == Known(false) && a.subscribed(uid) == Known(true)
  }

  predicate Admits(a: Access, uid: string) {
    || a.kind.Info? || a.kind.CustomerService? || SystemUid(a, uid)
    || (a.kind.Person? && SystemUid(a, OtherOf(a, uid)))
    || (Personal(a, uid) && a.leader(OtherOf(a, uid)) == Remote(StatusOK)) || RemoteSays(a, uid, ReasonSuccess)
    || (AskedHere(a, uid) && a.denied(OtherOf(a, uid), uid) == Known(false)
        && (a.whitelistOffOfPerson || a.allowed(OtherOf(a, uid), uid) == Known(true)))
    || (Subscriber(a, uid)
        && (a.hasAllowlist == Known(false) || (a.hasAllowlist == Known(true) && a.allowed(a.kind.channelId, uid) == Known(true))))
  }

  /** Some answer that the decision needs is an error. */
  predicate CannotTell(a: Access, uid: string) {
    || (Personal(a, uid) && a.leader(OtherOf(a, uid)) in {NoLeader, Remote(Unreachable), Remote(StatusError)})
    || (AskedHere(a, uid)
        && (a.denied(OtherOf(a, uid), uid) == Failed
            || (a.denied(OtherOf(a, uid), uid) == Known(false) && !a.whitelistOffOfPerson && a.allowed(OtherOf(a, uid), uid) == Failed)))
    || (GroupAsked(a, uid)
        && (a.denied(a.kind.channelId, uid) == Failed
            || (a.denied(a.kind.channelId, uid) == Known(false) && a.subscribed(uid) == Failed)))
    || (Subscriber(a, uid)
        && (a.hasAllowlist == Failed || (a.hasAllowlist == Known(true) && a.allowed(a.kind.channelId, uid) == Failed)))
  }

  /** The cause for which the check answers `code`; apart from these only the receiver's own node gives a code. */
  predicate Cause(a: Access, uid: string, code: ReasonCode) {
    || RemoteSays(a, uid, code)
    || match code
       case ReasonSuccess => Admits(a, uid)
       case ReasonSystemError => CannotTell(a, uid)
       case ReasonBan => a.kind.Group? && !SystemUid(a, uid) && a.ban
       case ReasonDisband => a.kind.Group? && !SystemUid(a, uid) && !a.ban && a.disband
       case ReasonInBlacklist =>
         || (GroupAsked(a, uid) && a.denied(a.kind.channelId, uid) == Known(true))
         || (AskedHere(a, uid) && a.denied(OtherOf(a, uid), uid) == Known(true))
       case ReasonSubscriberNotExist =>
         GroupAsked(a, uid) && a.denied(a.kind.channelId, uid) == Known(false) && a.subscribed(uid) == Known(false)
       case ReasonNotInWhitelist =>
         || (Subscriber(a, uid) && a.hasAllowlist == Known(true) && a.allowed(a.kind.channelId, uid) == Known(false))
         || (AskedHere(a, uid) && a.denied(OtherOf(a, uid), uid) == Known(false)
             && !a.whitelistOffOfPerson && a.allowed(OtherOf(a, uid), uid) == Known(false))
       case _ => false
  }

  /** Each code is given exactly for its cause. */
  lemma PermissionHasCause(a: Access, uid: string, code: ReasonCode)
    ensures HasPermission(a, uid) == code <==> Cause(a, uid, code)
  {
  }

  /** The verdict of one message checked by itself. */
  function Checked(m: Message, a: Access): Message {
    if m.reason != ReasonSuccess || m.isSystem then m else m.(reason := HasPermission(a, m.sender.uid))
  }

  function CheckBatch(ms: seq<Message>, a: Access): seq<Message> {
    seq(|ms|, i requires 0 <= i < |ms| => Checked(ms[i], a))
  }

  /** processPermission asks once per sender and reuses the verdict: the same as asking for each message. */
  method ProcessPermission(ms: seq<Message>, a: Access) returns (r: seq<Message>)
    ensures r == CheckBatch(ms, a)
    ensures forall k :: 0 <= k < |ms| ==>
      && r[k] == ms[k].(reason := r[k].reason)
      && (ms[k].reason != ReasonSuccess || ms[k].isSystem ==> r[k].reason == ms[k].reason)
      && (ms[k].reason == ReasonSuccess && !ms[k].isSystem ==> forall code :: r[k].reason == code <==> Cause(a, ms[k].sender.uid, code))
  {
    forall uid: string, code ensures HasPermission(a, uid) == code <==> Cause(a, uid, code) { PermissionHasCause(a, uid, code); }
    r := ms;
    var fromUidMap: map<string, ReasonCode> := map[];
    for i := 0 to |ms|
      invariant |r| == |ms|
      invariant forall k :: 0 <= k < |ms| ==> r[k] == if k < i then Checked(ms[k], a) else ms[k]
      invariant forall uid <- fromUidMap :: fromUidMap[uid] == HasPermission(a, uid)
    {
      var msg := ms[i];
      if msg.reason != ReasonSuccess { continue; }
      if msg.isSystem { continue; }
      if msg.sender.uid in fromUidMap {
        r := r[i := msg.(reason := fromUidMap[msg.sender.uid])];
        continue;
      }
      var code := HasPermission(a, msg.sender.uid);
      r := r[i := msg.(reason := code)];
      fromUidMap := fromUidMap[msg.sender.uid := code];
    }
  }

  // ---------------------------------------------------------------- storage

  function Select(ms: seq<Message>, p: Message -> bool): seq<Message> {
    if ms == [] then []
    else
      var last := ms[|ms| - 1];
      Select(ms[..|ms| - 1], p) + if p(last) then [last] else []
  }

  lemma {:induction false} SelectMember(ms: seq<Message>, p: Message -> bool, m: Message)
    ensures m in Select(ms, p) <==> m in ms && p(m)
  {
    if ms != [] {
      SelectMember(ms[..|ms| - 1], p, m);
      assert ms == ms[..|ms| - 1] + [ms[|ms| - 1]];
    }
  }

  /** Only accepted, readable messages that ask for persistence are stored. */
  predicate Storable(m: Message) {
    m.reason == ReasonSuccess && !m.isEncrypt && m.packet.Some? && !m.packet.value.noPersist
  }

  function Stored(ms: seq<Message>): seq<Message> {
    Select(ms, Storable)
  }

  /** AppendMessages answers with (log id, log index) pairs, or an error, or both. */
  datatype StoreReply = StoreReply(failed: bool, results: seq<(int, nat)>, webhook: Webhook)
  datatype Webhook = Off | Queued | QueueFailed

  function Numbered(m: Message, results: seq<(int, nat)>, failed: bool): Message {
    if results == [] then m
    else
      var m' := Numbered(m, results[..|results| - 1], failed);
      var (id, n) := results[|results| - 1];
      if id == m.id then m'.(seqNo := n, reason := if failed then ReasonSystemError else ReasonSuccess) else m'
  }

  function StoreOk(ms: seq<Message>, reply: StoreReply): bool {
    (Stored(ms) == [] || !reply.failed) && !reply.webhook.QueueFailed?
  }

  function StoreBatch(ms: seq<Message>, reply: StoreReply): seq<Message> {
    if Stored(ms) == [] then ms
    else seq(|ms|, i requires 0 <= i < |ms| => Numbered(ms[i], reply.results, reply.failed))
  }

  predicate DistinctIds(ms: seq<Message>) {
    forall i, j {:trigger ms[i].id, ms[j].id} :: 0 <= i < j < |ms| ==> ms[i].id != ms[j].id
  }

  lemma {:induction false} NumberedId(m: Message, results: seq<(int, nat)>, failed: bool)
    ensures Numbered(m, results, failed).id == m.id
  {
    if results != [] { NumberedId(m, results[..|results| - 1], failed); }
  }

  /** With one result for each id, a stored message takes exactly its own number and the verdict of the call. */
  lemma {:induction false} NumberedByItsResult(m: Message, results: seq<(int, nat)>, failed: bool, k: nat)
    requires k < |results| && results[k].0 == m.id
    requires forall i :: 0 <= i < |results| && i != k ==> results[i].0 != m.id
    ensures Numbered(m, results, failed) == m.(seqNo := results[k].1, reason := if failed then ReasonSystemError else ReasonSuccess)
  {
    var l := |results| - 1;
    if k < l {
      NumberedByItsResult(m, results[..l], failed, k);
    } else {
      NotNumbered(m, results[..l], failed);
    }
  }

  /** A message without a result is answered unchanged. */
  lemma {:induction false} NotNumbered(m: Message, results: seq<(int, nat)>, failed: bool)
    requires forall i :: 0 <= i < |results| ==> results[i].0 != m.id
    ensures Numbered(m, results, failed) == m
  {
    if results != [] { NotNumbered(m, results[..|results| - 1], failed); }
  }

  /** The first message with the id, or the length. */
  function FirstWith(ms: seq<Message>, id: int): (i: nat)
    ensures i <= |ms| && (i < |ms| ==> ms[i].id == id) && forall j :: 0 <= j < i ==> ms[j].id != id
  {
    if ms == [] || ms[0].id == id then 0 else 1 + FirstWith(ms[1..], id)
  }

  /** Each result in turn goes to the first message with its id. */
  function Applied(ms: seq<Message>, results: seq<(int, nat)>, failed: bool): (r: seq<Message>)
    ensures |r| == |ms| && forall k :: 0 <= k < |ms| ==> r[k].id == ms[k].id
  {
    if results == [] then ms
    else
      var r := Applied(ms, results[..|results| - 1], failed);
      var (id, n) := results[|results| - 1];
      var i := FirstWith(r, id);
      if i == |r| then r else r[i := r[i].(seqNo := n, reason := if failed then ReasonSystemError else ReasonSuccess)]
  }

  /** In a batch without repeated ids each message simply takes its own results. */
  lemma {:induction false} AppliedIsNumbered(ms: seq<Message>, results: seq<(int, nat)>, failed: bool)
    requires DistinctIds(ms)
    ensures Applied(ms, results, failed) == seq(|ms|, i requires 0 <= i < |ms| => Numbered(ms[i], results, failed))
  {
    if results != [] {
      var rest, id := results[..|results| - 1], results[|results| - 1].0;
      AppliedIsNumbered(ms, rest, failed);
      var r := Applied(ms, rest, failed);
      forall k | 0 <= k < |ms| ensures Applied(ms, results, failed)[k] == Numbered(ms[k], results, failed) {
        assert r[k] == Numbered(ms[k], rest, failed) && r[k].id == ms[k].id;
        var i := FirstWith(r, id);
        assert i < |r| ==> ms[i].id == id;
      }
    }
  }

  /** processStorage up to the call that answers the channel: what is stored, and the batch it answers with. */
  method ProcessStorage(ms: seq<Message>, reply: StoreReply) returns (stored: seq<Message>, r: seq<Message>, ok: bool)
    ensures stored == Stored(ms)
    ensures r == if Stored(ms) == [] then ms else Applied(ms, reply.results, reply.failed)
    ensures DistinctIds(ms) ==> r == StoreBatch(ms, reply)
    ensures ok == StoreOk(ms, reply) && (ok <==> (stored == [] || !reply.failed) && !reply.webhook.QueueFailed?)
  {
    stored := [];
    for i := 0 to |ms|
      invariant stored == Stored(ms[..i])
    {
      assert ms[..i + 1][..i] == ms[..i];
      var msg := ms[i];
      if msg.reason != ReasonSuccess { continue; }
      if msg.isEncrypt { continue; }
      if msg.packet.None? || msg.packet.value.noPersist { continue; }
      stored := stored + [msg];
    }
    assert ms[..|ms|] == ms;
    r := ms;
    ok := true;
    if |stored| > 0 {
      ok := !reply.failed;
      for n := 0 to |reply.results|
        invariant r == Applied(ms, reply.results[..n], reply.failed)
      {
        var (id, logIndex) := reply.results[n];
        assert reply.results[..n + 1][..n] == reply.results[..n];
        ghost var before := r;
        var i := 0;
        while i < |r|
          invariant 0 <= i <= |r| && r == before && i <= FirstWith(r, id)
          invariant r == before
        {
          if r[i].id == id {
            r := r[i := r[i].(seqNo := logIndex, reason := if ok then ReasonSuccess else ReasonSystemError)];
            break;
          }
          i := i + 1;
        }
      }
      assert reply.results[..|reply.results|] == reply.results;
    }
    if DistinctIds(ms) { AppliedIsNumbered(ms, reply.results, reply.failed); }
    if ok && reply.webhook.QueueFailed? { ok := false; }
  }

  // ---------------------------------------------------------------- sendack and deliver

  /** The acknowledgement for the sender of a message, wherever that is connected. */
  datatype Ack = Ack(id: int, index: nat, seqNo: nat, reason: ReasonCode, to: Sender)

  function AckOf(m: Message): Ack { Ack(m.id, m.index, m.seqNo, m.reason, m.sender) }

  function Acks(ms: seq<Message>, systemDevice: string): seq<Ack> {
    if ms == [] then []
    else
      var last := ms[|ms| - 1];
      Acks(ms[..|ms| - 1], systemDevice) + if last.sender.deviceId == systemDevice then [] else [AckOf(last)]
  }

  lemma {:induction false} AcksMember(ms: seq<Message>, systemDevice: string, a: Ack)
    ensures a in Acks(ms, systemDevice) <==> exists m <- ms :: m.sender.deviceId != systemDevice && a == AckOf(m)
  {
    if ms != [] {
      AcksMember(ms[..|ms| - 1], systemDevice, a);
      assert ms == ms[..|ms| - 1] + [ms[|ms| - 1]];
    }
  }

  /** Those of the acknowledgements that are for senders on one node. */
  function AcksFor(node: nat, acks: seq<Ack>): seq<Ack> {
    if acks == [] then []
    else
      var last := acks[|acks| - 1];
      AcksFor(node, acks[..|acks| - 1]) + if last.to.nodeId == node then [last] else []
  }

  lemma {:induction false} AcksForMember(node: nat, acks: seq<Ack>, a: Ack)
    ensures a in AcksFor(node, acks) <==> a in acks && a.to.nodeId == node
  {
    if acks != [] {
      AcksForMember(node, acks[..|acks| - 1], a);
      assert acks == acks[..|acks| - 1] + [acks[|acks| - 1]];
    }
  }

  lemma AcksForOneMore(node: nat, acks: seq<Ack>, a: Ack)
    ensures AcksFor(node, acks + [a]) == AcksFor(node, acks) + if a.to.nodeId == node then [a] else []
  {
    assert (acks + [a])[..|acks|] == acks;
  }

  /** What is written here and what goes to each other node. */
  ghost predicate Sorted(acks: seq<Ack>, nodeId: nat, written: seq<Ack>, forwarded: map<nat, seq<Ack>>) {
    && written == AcksFor(nodeId, acks)
    && (forall n: nat :: n in forwarded <==> n != nodeId && AcksFor(n, acks) != [])
    && (forall n <- forwarded :: forwarded[n] == AcksFor(n, acks))
  }

  lemma SortedOneMore(acks: seq<Ack>, nodeId: nat, written: seq<Ack>, forwarded: map<nat, seq<Ack>>, a: Ack)
    requires Sorted(acks, nodeId, written, forwarded)
    ensures var node := a.to.nodeId;
      if node == nodeId then Sorted(acks + [a], nodeId, written + [a], forwarded)
      else Sorted(acks + [a], nodeId, written, forwarded[node := (if node in forwarded then forwarded[node] else []) + [a]])
  {
    forall n: nat ensures AcksFor(n, acks + [a]) == AcksFor(n, acks) + if n == a.to.nodeId then [a] else [] {
      AcksForOneMore(n, acks, a);
    }
  }

  lemma AcksOneMore(ms: seq<Message>, i: nat, systemDevice: string)
    requires i < |ms|
    ensures Acks(ms[..i + 1], systemDevice) ==
            if ms[i].sender.deviceId == systemDevice then Acks(ms[..i], systemDevice) else Acks(ms[..i], systemDevice) + [AckOf(ms[i])]
  {
    assert ms[..i + 1][..i] == ms[..i];
  }

  /** Each acknowledgement goes, in order, to the node its sender is connected to: this one or another. */
  method ProcessSendack(ms: seq<Message>, systemDevice: string, nodeId: nat)
      returns (written: seq<Ack>, forwarded: map<nat, seq<Ack>>)
    ensures written == AcksFor(nodeId, Acks(ms, systemDevice))
    ensures forall n: nat :: n in forwarded <==> n != nodeId && AcksFor(n, Acks(ms, systemDevice)) != []
    ensures forall n <- forwarded :: forwarded[n] == AcksFor(n, Acks(ms, systemDevice))
    ensures forall m <- ms :: m.sender.deviceId != systemDevice ==>
      if m.sender.nodeId == nodeId then AckOf(m) in written else m.sender.nodeId in forwarded && AckOf(m) in forwarded[m.sender.nodeId]
    ensures forall a <- written :: a.to.nodeId == nodeId && a in Acks(ms, systemDevice)
    ensures forall n <- forwarded :: n != nodeId && forall a <- forwarded[n] :: a.to.nodeId == n && a in Acks(ms, systemDevice)
  {
    written, forwarded := [], map[];
    ghost var acks: seq<Ack> := [];
    for i := 0 to |ms|
      invariant acks == Acks(ms[..i], systemDevice) && Sorted(acks, nodeId, written, forwarded)
    {
      AcksOneMore(ms, i, systemDevice);
      var msg := ms[i];
      if msg.sender.deviceId == systemDevice { continue; }
      var sendack := AckOf(msg);
      SortedOneMore(acks, nodeId, written, forwarded, sendack);
      var node := msg.sender.nodeId;
      if node == nodeId {
        written := written + [sendack];
      } else {
        var packets := if node in forwarded then forwarded[node] else [];
        forwarded := forwarded[node := packets + [sendack]];
      }
      acks := acks + [sendack];
    }
    assert ms[..|ms|] == ms;
    forall n: nat, a ensures a in AcksFor(n, acks) <==> a in acks && a.to.nodeId == n { AcksForMember(n, acks, a); }
    forall m | m in ms && m.sender.deviceId != systemDevice ensures AckOf(m) in acks { AcksMember(ms, systemDevice, AckOf(m)); }
  }

  predicate Accepted(m: Message) {
    m.reason == ReasonSuccess
  }

  function Deliverable(ms: seq<Message>): seq<Message> {
    Select(ms, Accepted)
  }

  method ProcessDeliver(ms: seq<Message>) returns (delivered: seq<Message>)
    ensures delivered == Deliverable(ms)
  {
    delivered := [];
    for i := 0 to |ms|
      invariant delivered == Deliverable(ms[..i])
    {
      assert ms[..i + 1][..i] == ms[..i];
      if ms[i].reason != ReasonSuccess { continue; }
      delivered := delivered + [ms[i]];
    }
    assert ms[..|ms|] == ms;
  }

  // ---------------------------------------------------------------- forward

  /** What becomes of a forward request: the leader's node, and whether it answers. `found` is a leader looked up anew. */
  datatype ForwardReply =
    | LeaderOffline(found: Option<nat>)
    | LeaderUnknown
    | RequestFailed(arrived: bool)
    | NotLeader(found: Option<nat>)
    | LeaderAccepts

  /** The messages that have reached the leader. */
  function Forwarded(ms: seq<Message>, reply: ForwardReply): seq<Message> {
    if reply.LeaderAccepts? || (reply.RequestFailed? && reply.arrived) then ms else []
  }

  /** The leader to change to, 0 for none. */
  function NewLeader(reply: ForwardReply): nat {
    match reply
    case LeaderOffline(Some(n)) => n
    case NotLeader(Some(n)) => n
    case _ => 0
  }

  /** processForward: the whole batch goes to the leader, failed messages too. */
  method ProcessForward(ms: seq<Message>, reply: ForwardReply)
      returns (taken: seq<Message>, newLeaderId: nat, ok: bool)
    ensures taken == Forwarded(ms, reply) && newLeaderId == NewLeader(reply) && ok == reply.LeaderAccepts?
    ensures newLeaderId != 0 ==> !ok && reply in {LeaderOffline(Some(newLeaderId)), NotLeader(Some(newLeaderId))}
    ensures forall n: nat :: reply in {LeaderOffline(Some(n)), NotLeader(Some(n))} ==> newLeaderId == n
    ensures taken == (if ok || reply == RequestFailed(true) then ms else [])
  {
    taken, newLeaderId, ok := [], 0, false;
    if reply.LeaderOffline? {
      if reply.found.Some? {
        newLeaderId := reply.found.value;
      }
    } else if reply.LeaderUnknown? {
      return;
    } else if reply.RequestFailed? {
      if reply.arrived {
        taken := ms;
      }
    } else if reply.NotLeader? {
      if reply.found.Some? {
        newLeaderId := reply.found.value;
      }
    } else {
      taken, ok := ms, true;
    }
  }

  /** What the leader proposes to its own channel for a message it was forwarded: a new message with a clean record. */
  function Reproposed(m: Message): Message {
    m.(index := 0, seqNo := 0, isEncrypt := false, isSystem := false, reason := ReasonSuccess)
  }

  function ReproposedAll(ms: seq<Message>): seq<Message> {
    seq(|ms|, i requires 0 <= i < |ms| => Reproposed(ms[i]))
  }

  /**
   handleChannelForward at the node that was asked; `leads` is the cluster's answer whether it leads the channel. Its
   proposals do not wait, and a proposal that does not wait never reports an error (internal/server/channel.go:463-471).
   */
  method HandleChannelForward(ms: seq<Message>, leads: Reply) returns (proposed: seq<Message>, reply: ForwardReply)
    ensures proposed == if leads == Known(true) then ReproposedAll(ms) else []
    ensures reply.LeaderAccepts? <==> ms == [] || leads == Known(true)
    ensures reply.NotLeader? <==> ms != [] && leads == Known(false)
  {
    proposed := [];
    if |ms| == 0 {
      return [], LeaderAccepts;
    }
    if leads == Failed {
      return [], RequestFailed(false);
    }
    if !leads.yes {
      return [], NotLeader(None);
    }
    for i := 0 to |ms|
      invariant proposed == ReproposedAll(ms[..i])
    {
      assert ms[..i + 1][..i] == ms[..i];
      proposed := proposed + [Reproposed(ms[i])];
    }
    assert ms[..|ms|] == ms;
    return proposed, LeaderAccepts;
  }
}
