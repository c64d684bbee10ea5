/** Channel messages, their verdict codes and the size-limited batch (model.go, msg_queue.go). */
module Messages {
  import opened Options

  /** The verdict carried by a message. `Other` covers the codes a remote node answers with. */
  datatype ReasonCode =
    | ReasonSuccess
    | ReasonSystemError
    | ReasonPayloadDecodeError
    | ReasonSenderOffline
    | ReasonBan
    | ReasonDisband
    | ReasonInBlacklist
    | ReasonSubscriberNotExist
    | ReasonNotInWhitelist
    | Other(code: nat)

  /** What of the client's send packet the pipeline looks at. */
  datatype Packet = Packet(payload: seq<int>, remainingLength: nat, noPersist: bool, streamNo: string)

  datatype Sender = Sender(uid: string, connId: int, deviceId: string, nodeId: nat)

  datatype Message = Message(
    id: int,
    index: nat,
    seqNo: nat,
    sender: Sender,
    packet: Option<Packet>,
    isEncrypt: bool,
    isSystem: bool,
    reason: ReasonCode)

  /** Bytes a message counts for in a batch (model.go, Size). */
  function Size(m: Message): nat {
    1 + 8 + (|m.sender.uid| + 2) + (|m.sender.deviceId| + 2) + 8 + 8 + 4
    + (if m.packet.Some? then m.packet.value.remainingLength + 2 else 2)
  }

  function TotalSize(ms: seq<Message>): nat {
    if ms == [] then 0 else TotalSize(ms[..|ms| - 1]) + Size(ms[|ms| - 1])
  }

  /** The number of messages the batch keeps when it already holds `n` of them. */
  function Fit(ms: seq<Message>, max: nat, n: nat): (k: nat)
    requires 1 <= n <= |ms|
    ensures n <= k <= |ms|
    decreases |ms| - n
  {
    if n == |ms| || TotalSize(ms[..n + 1]) > max then n else Fit(ms, max, n + 1)
  }

  function Limit(ms: seq<Message>, max: nat): seq<Message> {
    if ms == [] then [] else ms[..Fit(ms, max, 1)]
  }

  /** A batch limited to `max` bytes is the longest prefix that fits, and never empty. */
  predicate LongestFit(ms: seq<Message>, max: nat, k: nat) {
    && (if ms == [] then k == 0 else 1 <= k <= |ms|)
    && (k <= 1 || TotalSize(ms[..k]) <= max)
    && (forall j {:trigger TotalSize(ms[..j])} :: k < j <= |ms| ==> TotalSize(ms[..j]) > max)
  }

  lemma {:induction false} TotalSizeMonotone(ms: seq<Message>, i: nat, j: nat)
    requires i <= j <= |ms|
    ensures TotalSize(ms[..i]) <= TotalSize(ms[..j])
    decreases j
  {
    if i < j {
      assert ms[..j][..j - 1] == ms[..j - 1];
      TotalSizeMonotone(ms, i, j - 1);
    }
  }

  lemma {:induction false} FitIsLongest(ms: seq<Message>, max: nat, n: nat)
    requires 1 <= n <= |ms|
    requires n <= 1 || TotalSize(ms[..n]) <= max
    ensures LongestFit(ms, max, Fit(ms, max, n))
    decreases |ms| - n
  {
    if n < |ms| {
      if TotalSize(ms[..n + 1]) > max {
        forall j | n < j <= |ms| ensures TotalSize(ms[..j]) > max {
          TotalSizeMonotone(ms, n + 1, j);
        }
      } else {
        FitIsLongest(ms, max, n + 1);
      }
    }
  }

  lemma LimitIsPrefix(ms: seq<Message>, max: nat)
    ensures Limit(ms, max) <= ms && (ms != [] ==> |Limit(ms, max)| >= 1)
  {
  }

  lemma LimitIsLongest(ms: seq<Message>, max: nat)
    ensures LongestFit(ms, max, |Limit(ms, max)|)
    ensures Limit(ms, max) == ms[..|Limit(ms, max)|]
  {
    if ms != [] { FitIsLongest(ms, max, 1); }
  }

  /** limitSize: add sizes from the left and cut before the first message that overflows. */
  method LimitSize(ms: seq<Message>, max: nat) returns (r: seq<Message>)
    ensures r == Limit(ms, max)
  {
    if |ms| == 0 { return ms; }
    var size := Size(ms[0]);
    assert ms[..1] == [ms[0]];
    var limit := 1;
    while limit < |ms|
      invariant 1 <= limit <= |ms|
      invariant size == TotalSize(ms[..limit])
      invariant Fit(ms, max, 1) == Fit(ms, max, limit)
    {
      assert ms[..limit + 1][..limit] == ms[..limit];
      size := size + Size(ms[limit]);
      if size > max { return ms[..limit]; }
      limit := limit + 1;
    }
    return ms;
  }
}
