/**
 The channel pipeline as a state machine over values. One rule per event, the same for all
 six stages; the class in Channel.dfy, which has the six cursors and branches of the source,
 is proved to follow these rules.
 */
module ChannelSpec {
  import opened Options
  import opened Messages

  datatype Stage = Decrypt | Permission | Storage | Sendack | Deliver | Forward

  datatype Role = Unknown | Leader | Proxy

  datatype ReadyState = ReadyState(processing: bool, willRetry: bool, retryTick: nat)

  const IDLE := ReadyState(false, false, 0)

  /** Ticks a failed stage waits before it asks again (newChannel, retryTickCount). */
  const RETRY_TICKS := 20

  /** The queue and the cursor of each stage: the last index the stage has finished. */
  datatype Queue = Queue(
    messages: seq<Message>,
    offset: nat,
    lastIndex: nat,
    payloadDecrypting: nat,
    permissionChecking: nat,
    storaging: nat,
    sendacking: nat,
    delivering: nat,
    forwarding: nat)
  {
    function Cursor(s: Stage): nat {
      match s
      case Decrypt => payloadDecrypting
      case Permission => permissionChecking
      case Storage => storaging
      case Sendack => sendacking
      case Deliver => delivering
      case Forward => forwarding
    }

    function WithCursor(s: Stage, i: nat): (q: Queue)
      ensures forall t: Stage :: q.Cursor(t) == if t == s then i else Cursor(t)
      ensures q.messages == messages && q.offset == offset && q.lastIndex == lastIndex
    {
      match s
      case Decrypt => this.(payloadDecrypting := i)
      case Permission => this.(permissionChecking := i)
      case Storage => this.(storaging := i)
      case Sendack => this.(sendacking := i)
      case Deliver => this.(delivering := i)
      case Forward => this.(forwarding := i)
    }

    /** The last index a stage may work on: what its upstream stage has finished. */
    function Upstream(s: Stage): nat {
      match s
      case Decrypt => lastIndex
      case Permission => Cursor(Decrypt)
      case Storage => Cursor(Permission)
      case Sendack => Cursor(Storage)
      case Deliver => Cursor(Storage)
      case Forward => Cursor(Decrypt)
    }
  }

  datatype Flags = Flags(
    payloadDecrypt: ReadyState,
    permissionCheck: ReadyState,
    storage: ReadyState,
    sendack: ReadyState,
    delivery: ReadyState,
    forward: ReadyState)
  {
    function Get(s: Stage): ReadyState {
      match s
      case Decrypt => payloadDecrypt
      case Permission => permissionCheck
      case Storage => storage
      case Sendack => sendack
      case Deliver => delivery
      case Forward => forward
    }

    function Put(s: Stage, r: ReadyState): (f: Flags)
      ensures forall t: Stage :: f.Get(t) == if t == s then r else Get(t)
    {
      match s
      case Decrypt => this.(payloadDecrypt := r)
      case Permission => this.(permissionCheck := r)
      case Storage => this.(storage := r)
      case Sendack => this.(sendack := r)
      case Deliver => this.(delivery := r)
      case Forward => this.(forward := r)
    }
  }

  const ALL_IDLE := Flags(IDLE, IDLE, IDLE, IDLE, IDLE, IDLE)

  datatype Chan = Chan(
    nodeId: nat,
    q: Queue,
    initialized: bool,
    role: Role,
    leaderId: nat,
    init: ReadyState,
    flags: Flags)

  function NewChan(nodeId: nat): Chan {
    Chan(nodeId, Queue([], 1, 0, 0, 0, 0, 0, 0, 0), false, Unknown, 0, IDLE, ALL_IDLE)
  }

  function StagesOf(role: Role): set<Stage> {
    match role
    case Unknown => {Decrypt}
    case Leader => {Decrypt, Permission, Storage, Sendack, Deliver}
    case Proxy => {Decrypt, Forward}
  }

  /** Byte limit of a stage's batch; 0 means no limit. */
  function MaxSize(s: Stage): nat {
    match s
    case Permission => 0
    case Sendack => 0
    case _ => 1024 * 1024 * 2
  }

  // ---------------------------------------------------------------- issuing requests

  /** The guard of a stage (hasPayloadUnDecrypt and its five siblings). */
  predicate Enabled(c: Chan, s: Stage) {
    !c.flags.Get(s).processing && c.q.Cursor(s) < c.q.Upstream(s)
  }

  /** Slicing (lo, hi] out of the queue stays inside it, or is refused because lo is too low. */
  predicate SliceSafe(q: Queue, lo: nat, hi: nat) {
    lo != hi && lo >= q.offset ==> lo <= hi && hi - q.offset <= |q.messages|
  }

  function Slice(q: Queue, lo: nat, hi: nat, max: nat): seq<Message>
    requires SliceSafe(q, lo, hi)
  {
    if lo == hi || lo < q.offset then []
    else
      var ms := q.messages[lo - q.offset..hi - q.offset];
      if max == 0 then ms else Limit(ms, max)
  }

  predicate BatchSafe(q: Queue, s: Stage) {
    SliceSafe(q, q.Cursor(s) + 1, q.Upstream(s) + 1)
  }

  function Batch(q: Queue, s: Stage): seq<Message>
    requires BatchSafe(q, s)
  {
    Slice(q, q.Cursor(s) + 1, q.Upstream(s) + 1, MaxSize(s))
  }

  predicate ReadySafe(c: Chan) {
    c.initialized ==> forall s <- StagesOf(c.role) :: Enabled(c, s) ==> BatchSafe(c.q, s)
  }

  function Raise(c: Chan, s: Stage): ReadyState {
    if s in StagesOf(c.role) && Enabled(c, s) then c.flags.Get(s).(processing := true) else c.flags.Get(s)
  }

  /** ready(): every enabled stage of the role becomes `processing`. */
  function AfterReady(c: Chan): (c': Chan)
    ensures c.initialized ==> forall s: Stage :: c'.flags.Get(s) == Raise(c, s)
  {
    if !c.initialized then c.(init := c.init.(processing := true))
    else c.(flags := Flags(Raise(c, Decrypt), Raise(c, Permission), Raise(c, Storage),
                           Raise(c, Sendack), Raise(c, Deliver), Raise(c, Forward)))
  }

  /** ready(): the requests it hands to the workers; a stage with an empty slice sends none. */
  function Requests(c: Chan): map<Stage, seq<Message>>
    requires ReadySafe(c)
  {
    if !c.initialized then map[]
    else map s <- StagesOf(c.role) | Enabled(c, s) && |Batch(c.q, s)| > 0 :: Batch(c.q, s)
  }

  predicate InitRequested(c: Chan) {
    !c.initialized && !c.init.processing
  }

  // ---------------------------------------------------------------- the clock

  function TickState(r: ReadyState): ReadyState {
    if !r.willRetry then r
    else if r.retryTick + 1 >= RETRY_TICKS then IDLE
    else r.(retryTick := r.retryTick + 1)
  }

  /** The block at every state of tick(). */
  method TickOne(r: ReadyState) returns (r': ReadyState)
    ensures r' == TickState(r)
  {
    r' := r;
    if r'.willRetry {
      r' := r'.(retryTick := r'.retryTick + 1);
      if r'.retryTick >= RETRY_TICKS {
        r' := ReadyState(false, false, 0);
      }
    }
  }

  function AfterTick(c: Chan): (c': Chan)
    ensures forall s: Stage :: c'.flags.Get(s) == TickState(c.flags.Get(s))
  {
    c.(init := TickState(c.init),
       flags := Flags(TickState(c.flags.payloadDecrypt), TickState(c.flags.permissionCheck), TickState(c.flags.storage),
                      TickState(c.flags.sendack), TickState(c.flags.delivery), TickState(c.flags.forward)))
  }

  // ---------------------------------------------------------------- actions

  datatype Action =
    | InitResp(ok: bool, leaderId: nat)
    | LeaderChange(leaderId: nat)
    | Send(incoming: seq<Message>)
    | Resp(stage: Stage, ok: bool, index: nat, answers: seq<Message>)

  function ResetIndex(q: Queue): Queue
    requires q.offset >= 1
  {
    var i := q.offset - 1;
    q.(payloadDecrypting := i, permissionChecking := i, storaging := i, sendacking := i, delivering := i, forwarding := i)
  }

  function Become(c: Chan, role: Role, leaderId: nat): Chan
    requires c.q.offset >= 1
  {
    c.(q := ResetIndex(c.q), role := role, leaderId := leaderId, init := IDLE, flags := ALL_IDLE)
  }

  /** strings.TrimSpace leaves nothing. */
  predicate Blank(s: string) {
    forall ch <- s ::
      || ch == ' ' || ch == '\t' || ch == '\n' || ch == '\U{000B}' || ch == '\U{000C}' || ch == '\r'
      || ch == '\U{0085}' || ch == '\U{00A0}' || ch == '\U{1680}' || '\U{2000}' <= ch <= '\U{200A}'
      || ch == '\U{2028}' || ch == '\U{2029}' || ch == '\U{202F}' || ch == '\U{205F}' || ch == '\U{3000}'
  }

  /** A message that goes to the channel queue: it has a packet and belongs to no stream. */
  predicate Queued(m: Message) {
    m.packet.Some? && Blank(m.packet.value.streamNo)
  }

  function Append(q: Queue, m: Message): Queue {
    if !Queued(m) then q
    else q.(messages := q.messages + [m.(index := q.lastIndex + 1, reason := ReasonSuccess)], lastIndex := q.lastIndex + 1)
  }

  function AppendAll(q: Queue, ms: seq<Message>): Queue {
    if ms == [] then q else Append(AppendAll(q, ms[..|ms| - 1]), ms[|ms| - 1])
  }

  predicate TruncateSafe(q: Queue, index: nat) {
    q.offset <= index + 1 <= q.offset + |q.messages|
  }

  function Truncate(q: Queue, index: nat): Queue
    requires TruncateSafe(q, index)
  {
    q.(messages := q.messages[index + 1 - q.offset..], offset := index + 1)
  }

  /** What a stage's answer `a` changes of the queued message `m`. */
  function Merge(s: Stage, m: Message, a: Message): Message {
    match s
    case Decrypt =>
      m.(packet := if m.packet.Some? && a.packet.Some? then Some(m.packet.value.(payload := a.packet.value.payload)) else m.packet,
         isEncrypt := a.isEncrypt, reason := a.reason)
    case Permission => m.(reason := a.reason)
    case Storage => m.(seqNo := a.seqNo, reason := a.reason)
    case _ => m
  }

  /** A queued message takes the first answer with its id. */
  function Patch(s: Stage, m: Message, answers: seq<Message>): Message {
    if answers == [] then m
    else if answers[0].id == m.id then Merge(s, m, answers[0])
    else Patch(s, m, answers[1..])
  }

  function WriteBack(s: Stage, ms: seq<Message>, lo: int, hi: int, answers: seq<Message>): (r: seq<Message>)
    ensures |r| == |ms|
  {
    seq(|ms|, k requires 0 <= k < |ms| => if lo <= k < hi then Patch(s, ms[k], answers) else ms[k])
  }

  /** The index an answer reports as finished: decrypt and forward answers carry it in their last message. */
  function Target(a: Action): nat
    requires a.Resp?
  {
    if a.stage.Decrypt? || a.stage.Forward? then
      if a.answers == [] then 0 else a.answers[|a.answers| - 1].index
    else a.index
  }

  predicate Handles(c: Chan, a: Action)
    requires a.Resp?
  {
    a.stage in StagesOf(c.role)
  }

  predicate Advances(c: Chan, a: Action)
    requires a.Resp?
  {
    Handles(c, a) && a.ok && Target(a) > c.q.Cursor(a.stage)
  }

  /** Whether finishing `index` lets the queue drop messages: sendack and deliver wait for each other. */
  predicate Drops(q: Queue, s: Stage, index: nat) {
    match s
    case Sendack => q.Cursor(Deliver) >= index
    case Deliver => q.Cursor(Sendack) >= index
    case Forward => true
    case _ => false
  }

  /** The answer makes the source index neither outside `messages` nor past its end. */
  predicate StepSafe(c: Chan, a: Action) {
    match a
    case Resp(s, ok, _, _) =>
      Advances(c, a) ==>
        if s.Decrypt? || s.Permission? || s.Storage? then
          c.q.offset <= c.q.Cursor(s) + 1 && Target(a) + 1 - c.q.offset <= |c.q.messages|
        else
          Drops(c.q, s, Target(a)) ==> TruncateSafe(c.q, Target(a))
    case InitResp(_, _) => c.q.offset >= 1
    case LeaderChange(_) => c.q.offset >= 1
    case Send(_) => true
  }

  function AfterAnswer(q: Queue, s: Stage, index: nat, answers: seq<Message>): Queue
    requires Drops(q, s, index) ==> TruncateSafe(q, index)
  {
    var q' := q.WithCursor(s, index);
    match s
    case Decrypt | Permission | Storage =>
      q'.(messages := WriteBack(s, q.messages, q.Cursor(s) + 1 - q.offset, index + 1 - q.offset, answers))
    case _ => if Drops(q, s, index) then Truncate(q', index) else q'
  }

  function AfterStep(c: Chan, a: Action): Chan
    requires StepSafe(c, a)
  {
    match a
    case InitResp(ok, leaderId) =>
      if !ok then c.(init := c.init.(willRetry := true))
      else if leaderId == c.nodeId then Become(c.(initialized := true), Leader, 0)
      else Become(c.(initialized := true), Proxy, leaderId)
    case LeaderChange(leaderId) =>
      if c.role.Leader? && leaderId != c.nodeId then Become(c, Proxy, leaderId)
      else if c.role.Proxy? && leaderId == c.nodeId then Become(c, Leader, 0)
      else c.(leaderId := leaderId)
    case Send(ms) => c.(q := AppendAll(c.q, ms))
    case Resp(s, ok, _, answers) =>
      if !Handles(c, a) then c
      else if !ok then c.(flags := c.flags.Put(s, c.flags.Get(s).(willRetry := true)))
      else
        var c' := c.(flags := c.flags.Put(s, c.flags.Get(s).(processing := false)));
        if Advances(c, a) then c'.(q := AfterAnswer(c.q, s, Target(a), answers)) else c'
  }
}
