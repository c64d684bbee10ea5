/**
 Cutting a byte stream into frames: decodeLength and the splitters of pkg/client/common.go and
 internal/server/proto.go. A frame is one type byte, the length of the rest in base 128 (MQTT 3.1.1, section
 2.2.3) and that many bytes; PING and PONG are the type byte alone.
 */
module Framing {
  import opened Bytes

  datatype Decoded = Incomplete | Length(n: nat, readSize: nat)

  function Weight(k: nat): (w: nat)
    ensures w >= 1
  {
    if k == 0 then 1 else 128 * Weight(k - 1)
  }

  /** The number whose base-128 digits, least significant first, start at data[i]; `k` of at most four are done. */
  function DecodeAt(data: seq<Byte>, i: nat, k: nat): Decoded
    requires k < 4
    decreases 4 - k
  {
    if i >= |data| then Incomplete
    else
      var low := data[i] % 128 * Weight(k);
      if data[i] < 128 || k == 3 then Length(low, 1)
      else match DecodeAt(data, i + 1, k + 1)
           case Incomplete => Incomplete
           case Length(n, r) => Length(low + n, r + 1)
  }

  method DecodeLength(data: seq<Byte>) returns (n: nat, readSize: nat, has: bool)
    ensures (if has then Length(n, readSize) else Incomplete) == DecodeAt(data, 0, 0)
    ensures !has ==> n == 0 && readSize == 0
  {
    var rLength, multiplier, offset: nat := 0, 0, 0;
    while multiplier < 27
      invariant offset <= 4 && offset <= |data| && multiplier == 7 * offset && rLength >= 0
      invariant offset < 4 ==> DecodeAt(data, 0, 0) == (match DecodeAt(data, offset, offset)
                                                        case Incomplete => Incomplete
                                                        case Length(m, r) => Length(rLength + m, r + offset))
      invariant offset == 4 ==> DecodeAt(data, 0, 0) == Length(rLength, 4)
      decreases 27 - multiplier
    {
      if offset >= |data| {
        return 0, 0, false;
      }
      var digit := data[offset];
      rLength := rLength + digit % 128 * Weight(multiplier / 7);  // (digit & 127) << multiplier
      offset := offset + 1;
      if digit < 128 {
        break;
      }
      multiplier := multiplier + 7;
    }
    return rLength, offset, true;
  }

  /** The digits may be looked at in any larger buffer. */
  lemma {:induction false} DecodeWithin(data: seq<Byte>, more: seq<Byte>, before: seq<Byte>, i: nat, k: nat)
    requires k < 4
    ensures DecodeAt(before + data + more, |before| + i, k) == DecodeAt(data, i, k) || DecodeAt(data, i, k).Incomplete?
    ensures more == [] ==> DecodeAt(before + data + more, |before| + i, k) == DecodeAt(data, i, k)
    decreases 4 - k
  {
    if i < |data| {
      assert (before + data + more)[|before| + i] == data[i];
      if data[i] >= 128 && k < 3 { DecodeWithin(data, more, before, i + 1, k + 1); }
    }
  }

  // ---------------------------------------------------------------- frames

  const PING := 7
  const PONG := 8

  predicate Bare(b: Byte) { b / 16 == PING || b / 16 == PONG }

  /** The length of the first frame of `buff`, or 0 if it is not complete yet. */
  function FrameLength(buff: seq<Byte>): (l: nat)
    ensures l <= |buff|
  {
    if buff == [] then 0
    else if Bare(buff[0]) then 1
    else match DecodeAt(buff, 1, 0)
         case Incomplete => 0
         case Length(n, r) => if 1 + r + n <= |buff| then 1 + r + n else 0
  }

  /** A stream that has been cut: frames, and what comes after the last of them. */
  datatype Cut = Tail(rest: seq<Byte>) | Frame(frame: seq<Byte>, next: Cut)

  /** Cutting off complete frames for as long as there is one. */
  function Split(buff: seq<Byte>): Cut
    decreases |buff|
  {
    var l := FrameLength(buff);
    if l == 0 then Tail(buff) else Frame(buff[..l], Split(buff[l..]))
  }

  /** The bytes of the frames. */
  function Framed(c: Cut): seq<Byte> {
    match c
    case Tail(_) => []
    case Frame(f, next) => f + Framed(next)
  }

  function Rest(c: Cut): seq<Byte> {
    match c
    case Tail(rest) => rest
    case Frame(_, next) => Rest(next)
  }

  /** Cutting loses nothing. */
  lemma {:induction false} SplitKeepsTheBytes(buff: seq<Byte>)
    ensures Framed(Split(buff)) + Rest(Split(buff)) == buff
    decreases |buff|
  {
    var l := FrameLength(buff);
    if l > 0 {
      SplitKeepsTheBytes(buff[l..]);
      assert buff == buff[..l] + buff[l..];
    }
  }

  /** Where the frame at `offset` ends, or `offset` if it is not complete. */
  function FrameEnd(buff: seq<Byte>, offset: nat): (e: nat)
    requires offset < |buff|
    ensures offset <= e <= |buff|
  {
    if Bare(buff[offset]) then offset + 1
    else match DecodeAt(buff, offset + 1, 0)
         case Incomplete => offset
         case Length(n, r) => if offset + r + n + 1 <= |buff| then offset + r + n + 1 else offset
  }

  /** Where cutting frames from `offset` on stops. */
  function Stop(buff: seq<Byte>, offset: nat): (e: nat)
    requires offset <= |buff|
    ensures offset <= e <= |buff|
    decreases |buff| - offset
  {
    if offset == |buff| || FrameEnd(buff, offset) == offset then offset else Stop(buff, FrameEnd(buff, offset))
  }

  lemma DecodeShift(buff: seq<Byte>, o: nat, i: nat)
    requires o + i < |buff|
    ensures DecodeAt(buff, o + i + 1, 0) == DecodeAt(buff[o..], i + 1, 0)
  {
    Drops(buff, o);
    DecodeWithin(buff[o..], [], buff[..o], i + 1, 0);
  }

  lemma FrameEndShift(buff: seq<Byte>, o: nat, i: nat)
    requires o + i < |buff|
    ensures FrameEnd(buff, o + i) == o + FrameEnd(buff[o..], i)
    ensures DecodeAt(buff, o + i + 1, 0) == DecodeAt(buff[o..], i + 1, 0)
  {
    DecodeShift(buff, o, i);
  }

  lemma Drops(buff: seq<Byte>, i: nat)
    requires i <= |buff|
    ensures buff[..i] + buff[i..] + [] == buff
  {
  }

  /** What a splitter's loop hands to decodeLength. */
  lemma DecodeRest(buff: seq<Byte>, i: nat)
    requires i <= |buff|
    ensures DecodeAt(buff, i, 0) == DecodeAt(buff[i..], 0, 0)
  {
    Drops(buff, i);
    DecodeWithin(buff[i..], [], buff[..i], 0, 0);
  }

  lemma {:induction false} StopShift(buff: seq<Byte>, o: nat, i: nat)
    requires o + i <= |buff|
    ensures Stop(buff, o + i) == o + Stop(buff[o..], i)
    decreases |buff| - o - i
  {
    if o + i < |buff| {
      FrameEndShift(buff, o, i);
      if FrameEnd(buff, o + i) > o + i { StopShift(buff, o, FrameEnd(buff[o..], i)); }
    }
  }

  lemma {:induction false} FramedLength(buff: seq<Byte>)
    ensures |Framed(Split(buff))| == Stop(buff, 0)
    decreases |buff|
  {
    var l := FrameLength(buff);
    if l > 0 {
      FramedLength(buff[l..]);
      StopShift(buff, l, 0);
    }
  }

  lemma SplitAtStop(buff: seq<Byte>)
    ensures Framed(Split(buff)) == buff[..Stop(buff, 0)] && Rest(Split(buff)) == buff[Stop(buff, 0)..]
  {
    FramedLength(buff);
    SplitKeepsTheBytes(buff);
  }

  /** The splitter of the client's and of the server's event loop; the server does not use `rest`. */
  method GnetUnpacket(buff: seq<Byte>) returns (packet: seq<Byte>, rest: seq<Byte>)
    ensures packet == Framed(Split(buff)) && rest == Rest(Split(buff))
  {
    if |buff| <= 0 {
      return [], [];
    }
    var offset := 0;
    while |buff| > offset
      invariant offset <= |buff| && Stop(buff, 0) == Stop(buff, offset)
      decreases |buff| - offset
    {
      if Bare(buff[offset]) {
        offset := offset + 1;
        continue;
      }
      DecodeRest(buff, offset + 1);
      var reminLen, readSize, has := DecodeLength(buff[offset + 1..]);
      if !has {
        break;
      }
      var dataEnd := offset + readSize + reminLen + 1;
      if |buff| >= dataEnd {
        offset := dataEnd;
        continue;
      } else {
        break;
      }
    }
    SplitAtStop(buff);
    if offset > 0 {
      return buff[..offset], buff[offset..];
    }
    return [], buff;
  }

  lemma Grows(buff: seq<Byte>, i: nat, j: nat)
    requires i <= j <= |buff|
    ensures buff[..i] + buff[i..j] == buff[..j] && (j == i + 1 ==> buff[..i] + [buff[i]] == buff[..j])
  {
  }

  /** The client's other splitter, which copies frame by frame, computes the same split. */
  method Parse(buff: seq<Byte>) returns (packet: seq<Byte>, rest: seq<Byte>)
    ensures packet == Framed(Split(buff)) && rest == Rest(Split(buff))
  {
    if |buff| == 0 {
      return [], [];
    }
    var offset := 0;
    var packetData: seq<Byte> := [];
    while |buff| > offset
      invariant offset <= |buff| && Stop(buff, 0) == Stop(buff, offset)
      invariant packetData == buff[..offset]
      decreases |buff| - offset
    {
      if Bare(buff[offset]) {
        Grows(buff, offset, offset + 1);
        packetData := packetData + [buff[offset]];
        offset := offset + 1;
        continue;
      }
      DecodeRest(buff, offset + 1);
      var reminLen, readSize, has := DecodeLength(buff[offset + 1..]);
      if !has {
        break;
      }
      var dataStart := offset;
      var dataEnd := offset + readSize + reminLen + 1;
      if |buff| >= dataEnd {
        var data := buff[dataStart..dataEnd];
        Grows(buff, offset, dataEnd);
        packetData := packetData + data;
        offset := dataEnd;
        continue;
      } else {
        break;
      }
    }
    SplitAtStop(buff);
    if |packetData| > 0 {
      return packetData, buff[|packetData|..];
    }
    return [], buff;
  }

  // ---------------------------------------------------------------- more bytes change nothing already read

  lemma FrameStable(buff: seq<Byte>, more: seq<Byte>)
    requires FrameLength(buff) > 0
    ensures FrameLength(buff + more) == FrameLength(buff)
  {
    assert [] + buff + more == buff + more;
    DecodeWithin(buff, more, [], 1, 0);
  }

  /** More bytes come: they are read behind what was left over. */
  function Extend(c: Cut, more: seq<Byte>): Cut {
    match c
    case Tail(rest) => Split(rest + more)
    case Frame(f, next) => Frame(f, Extend(next, more))
  }

  lemma {:induction false} SplitOfMore(buff: seq<Byte>, more: seq<Byte>)
    ensures Split(buff + more) == Extend(Split(buff), more)
    decreases |buff|
  {
    var l := FrameLength(buff);
    if l > 0 {
      FrameStable(buff, more);
      assert (buff + more)[..l] == buff[..l] && (buff + more)[l..] == buff[l..] + more;
      SplitOfMore(buff[l..], more);
    }
  }

  /** A stream arriving in chunks, each read behind what was left over. */
  function Received(c: Cut, chunks: seq<seq<Byte>>): Cut
    decreases |chunks|
  {
    if chunks == [] then c else Received(Extend(c, chunks[0]), chunks[1..])
  }

  function Joined(chunks: seq<seq<Byte>>): seq<Byte> {
    if chunks == [] then [] else chunks[0] + Joined(chunks[1..])
  }

  lemma Regrouped(a: seq<Byte>, b: seq<Byte>, c: seq<Byte>)
    ensures a + (b + c) == (a + b) + c
  {
  }

  /** However a stream is cut into chunks, the frames and the remainder are those of the whole stream. */
  lemma {:induction false} ChunkingDoesNotMatter(left: seq<Byte>, chunks: seq<seq<Byte>>)
    ensures Received(Split(left), chunks) == Split(left + Joined(chunks))
    decreases |chunks|
  {
    if chunks == [] {
      assert left + Joined(chunks) == left;
    } else {
      var buff, later := left + chunks[0], Joined(chunks[1..]);
      SplitOfMore(left, chunks[0]);
      ChunkingDoesNotMatter(buff, chunks[1..]);
      Regrouped(left, chunks[0], later);
    }
  }

  /** A complete frame and nothing else. */
  predicate IsFrame(f: seq<Byte>) { f != [] && FrameLength(f) == |f| }

  predicate MadeOfFrames(c: Cut) {
    c.Frame? ==> IsFrame(c.frame) && MadeOfFrames(c.next)
  }

  lemma {:induction false} SplitIsMadeOfFrames(buff: seq<Byte>)
    ensures MadeOfFrames(Split(buff)) && FrameLength(Rest(Split(buff))) == 0
    decreases |buff|
  {
    var l := FrameLength(buff);
    if l > 0 {
      FrameAlone(buff);
      SplitIsMadeOfFrames(buff[l..]);
    }
  }

  /** Frames written one after the other are read back one by one, whatever follows them. */
  lemma {:induction false} FramesAreReadBack(c: Cut)
    requires MadeOfFrames(c)
    ensures Split(Framed(c) + Rest(c)) == Extend(c, [])
    decreases c
  {
    match c
    case Tail(rest) => assert Framed(c) + rest == rest == rest + [];
    case Frame(f, next) =>
      var more := Framed(next) + Rest(next);
      assert Framed(c) + Rest(c) == f + more;
      FrameStable(f, more);
      assert (f + more)[..|f|] == f && (f + more)[|f|..] == more;
      FramesAreReadBack(next);
  }

  lemma {:induction false} ExtendAddsFrames(c: Cut, more: seq<Byte>)
    ensures Framed(c) <= Framed(Extend(c, more))
    decreases c
  {
    if c.Frame? { ExtendAddsFrames(c.next, more); }
  }

  /** What a splitter takes is the longest prefix of the buffer that is made of complete frames. */
  lemma ConsumedIsLongest(c: Cut)
    requires MadeOfFrames(c)
    ensures var s := Split(Framed(c) + Rest(c));
      MadeOfFrames(s) && Framed(s) + Rest(s) == Framed(c) + Rest(c) && Framed(c) <= Framed(s)
  {
    var buff := Framed(c) + Rest(c);
    SplitIsMadeOfFrames(buff);
    SplitKeepsTheBytes(buff);
    FramesAreReadBack(c);
    ExtendAddsFrames(c, []);
  }

  lemma FrameAlone(buff: seq<Byte>)
    requires FrameLength(buff) > 0
    ensures IsFrame(buff[..FrameLength(buff)])
  {
    if !Bare(buff[0]) { DecodeAlone(buff, FrameLength(buff), 1, 0); }
  }

  lemma {:induction false} DecodeAlone(data: seq<Byte>, m: nat, i: nat, k: nat)
    requires k < 4 && DecodeAt(data, i, k).Length? && i + DecodeAt(data, i, k).readSize <= m <= |data|
    ensures DecodeAt(data[..m], i, k) == DecodeAt(data, i, k)
    decreases 4 - k
  {
    if data[i] >= 128 && k < 3 { DecodeAlone(data, m, i + 1, k + 1); }
  }

  // ---------------------------------------------------------------- the length encoding

  /** MQTT's encoding of a length, without its limit of four digits. */
  function Encode(n: nat): seq<Byte> {
    if n < 128 then [n] else [n % 128 + 128] + Encode(n / 128)
  }

  const LIMIT := 0x1000_0000  // 128^4

  lemma DigitWeight(n: nat, w: nat)
    ensures n % 128 * w + n / 128 * (128 * w) == n * w
  {
    assert n == n % 128 + 128 * (n / 128);
  }

  lemma {:induction false} DecodeEncoded(n: nat, before: seq<Byte>, more: seq<Byte>, k: nat)
    requires k < 4
    ensures var d := DecodeAt(before + Encode(n) + more, |before|, k);
      if |Encode(n)| <= 4 - k then d == Length(n * Weight(k), |Encode(n)|) else d.Length? && d.readSize == 4 - k
    decreases 4 - k
  {
    var data := before + Encode(n) + more;
    assert data[|before|] == Encode(n)[0];
    if n >= 128 && k < 3 {
      var first := before + [Encode(n)[0]];
      assert data == first + Encode(n / 128) + more;
      DecodeEncoded(n / 128, first, more, k + 1);
      DigitWeight(n, Weight(k));
    }
  }

  lemma {:induction false} EncodedLength(n: nat, k: nat)
    requires k >= 1
    ensures |Encode(n)| <= k <==> n < Weight(k)
  {
    if n >= 128 && k > 1 { EncodedLength(n / 128, k - 1); }
    if n >= 128 && k == 1 { assert |Encode(n)| >= 2 && Weight(1) == 128; }
    if n < 128 && k > 1 { EncodedLength(n, k - 1); }
  }

  /** Decoding inverts encoding, whatever follows, exactly for the lengths of at most four digits. */
  lemma DecodeInvertsEncodeIff(n: nat, more: seq<Byte>)
    ensures DecodeAt(Encode(n) + more, 0, 0) == Length(n, |Encode(n)|) <==> n < LIMIT
  {
    EncodedLength(n, 4);
    assert [] + Encode(n) + more == Encode(n) + more;
    DecodeEncoded(n, [], more, 0);
    assert Weight(4) == LIMIT;
  }

  lemma {:induction false} EncodedContinues(n: nat, i: nat)
    requires i + 1 < |Encode(n)|
    ensures Encode(n)[i] >= 128
  {
    if i > 0 { EncodedContinues(n / 128, i - 1); }
  }

  /** No strict prefix of an encoded length is taken for a length. */
  lemma PrefixIsIncomplete(n: nat, m: nat)
    requires n < LIMIT && m < |Encode(n)|
    ensures DecodeAt(Encode(n)[..m], 0, 0) == Incomplete
  {
    EncodedLength(n, 4);
    assert Weight(4) == LIMIT;
    forall i | 0 <= i < m ensures Encode(n)[..m][i] >= 128 { EncodedContinues(n, i); }
    OnlyContinuations(Encode(n)[..m], 0, 0);
  }

  lemma {:induction false} OnlyContinuations(data: seq<Byte>, i: nat, k: nat)
    requires k < 4 && i <= |data| && |data| - i < 4 - k && forall j :: i <= j < |data| ==> data[j] >= 128
    ensures DecodeAt(data, i, k) == Incomplete
    decreases 4 - k
  {
    if i < |data| { OnlyContinuations(data, i + 1, k + 1); }
  }

  /** A single byte is a frame by itself exactly if its upper half says ping, 7, or pong, 8; with nothing after it, no other is. */
  lemma BareFrameIff(head: Byte)
    ensures IsFrame([head]) <==> 112 <= head < 144
    ensures 112 <= head < 144 ==> forall rest: seq<Byte> :: FrameLength([head] + rest) == 1
  {
  }

  /** A frame with an encoded length and a payload of that length is read back whole. */
  lemma EncodedFrameIsAFrame(head: Byte, payload: seq<Byte>)
    requires !Bare(head) && |payload| < LIMIT
    ensures IsFrame([head] + Encode(|payload|) + payload)
  {
    EncodedLength(|payload|, 4);
    assert Weight(4) == LIMIT;
    DecodeEncoded(|payload|, [head], payload, 0);
  }
}
