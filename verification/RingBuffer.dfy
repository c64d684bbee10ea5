/**
 The growing byte ring buffer of the network layer (pkg/ring/ring_buffer.go, ring_buffer_unix.go), and the plain
 first-in-first-out sequence of bytes that it stands for.
 */
module RingBuffers {
  import opened Bytes
  import opened PowerOfTwo

  const DEFAULT_BUFFER_SIZE := 1024
  const BUFFER_GROW_THRESHOLD := 4096

  // ---------------------------------------------------------------- what a circular array holds

  /** The bytes of a non-empty ring between the read position and the write position. */
  function Ring(b: seq<Byte>, r: nat, w: nat): (s: seq<Byte>)
    requires r < |b| && w < |b|
    ensures |s| == if w > r then w - r else |b| - r + w
    ensures forall k: nat :: k < |s| ==> s[k] == if r + k < |b| then b[r + k] else b[r + k - |b|]
  {
    if w > r then b[r..w] else b[r..] + b[..w]
  }

  /** `d` has `p` written into it from position `at` on, going round at the end. */
  predicate Wrote(b: seq<Byte>, d: seq<Byte>, at: nat, p: seq<Byte>) {
    && |d| == |b| && at < |b| && |p| <= |b|
    && forall j: nat :: j < |b| ==>
         d[j] == if at <= j < at + |p| then p[j - at] else if j + |b| < at + |p| then p[j + |b| - at] else b[j]
  }

  function Overwritten(b: seq<Byte>, at: nat, p: seq<Byte>): seq<Byte>
    requires at + |p| <= |b|
  {
    b[..at] + p + b[at + |p|..]
  }

  lemma WroteOnce(b: seq<Byte>, at: nat, p: seq<Byte>)
    requires at < |b| && at + |p| <= |b|
    ensures Wrote(b, Overwritten(b, at, p), at, p)
  {
  }

  lemma CopiedInPieces(p: seq<Byte>, a: seq<Byte>, b: seq<Byte>)
    requires |a| + |b| <= |p|
    ensures Overwritten(p, 0, a) == a + p[|a|..]
    ensures Overwritten(Overwritten(p, 0, a), |a|, b) == (a + b) + p[|a| + |b|..]
  {
  }

  lemma WroteTwice(b: seq<Byte>, at: nat, p: seq<Byte>)
    requires at < |b| < at + |p| && |p| <= |b|
    ensures var c1 := |b| - at; Wrote(b, Overwritten(Overwritten(b, at, p[..c1]), 0, p[c1..]), at, p)
  {
  }

  function Wrap(i: nat, size: nat): nat { if i < size then i else i - size }

  method Mod(i: nat, size: nat) returns (m: nat)
    requires 0 < size && i < 2 * size
    ensures m == Wrap(i, size)
  {
    assert i >= size ==> i == size + (i - size);
    return i % size;
  }

  /** Writing into the free part appends. */
  lemma WriteAppends(b: seq<Byte>, d: seq<Byte>, r: nat, w: nat, p: seq<Byte>)
    requires r < |b| && w < |b| && r != w && p != []
    requires Wrote(b, d, w, p) && |p| <= |b| - |Ring(b, r, w)|
    ensures Ring(d, r, Wrap(w + |p|, |b|)) == Ring(b, r, w) + p
  {
    var before, after := Ring(b, r, w), Ring(d, r, Wrap(w + |p|, |b|));
    assert |after| == |before| + |p|;
    forall k: nat | k < |after| ensures after[k] == (before + p)[k] {
      assert after[k] == d[if r + k < |b| then r + k else r + k - |b|];
    }
  }

  lemma WriteFills(b: seq<Byte>, d: seq<Byte>, p: seq<Byte>)
    requires p != [] && Wrote(b, d, 0, p)
    ensures Ring(d, 0, Wrap(|p|, |b|)) == p
  {
  }

  /** Moving the read position drops a prefix. */
  lemma ReadDrops(b: seq<Byte>, r: nat, w: nat, n: nat)
    requires r < |b| && w < |b| && 0 < n <= |Ring(b, r, w)|
    ensures Wrap(r + n, |b|) < |b|
    ensures Wrap(r + n, |b|) == w <==> n == |Ring(b, r, w)|
    ensures Wrap(r + n, |b|) != w ==> Ring(b, Wrap(r + n, |b|), w) == Ring(b, r, w)[n..]
  {
  }

  /** The bytes up to `n` lie in at most two pieces. */
  lemma PrefixInPieces(b: seq<Byte>, r: nat, w: nat, n: nat)
    requires r < |b| && w < |b| && n <= |Ring(b, r, w)|
    ensures Ring(b, r, w)[..n] == if r + n <= |b| then b[r..r + n] else b[r..] + b[..n - (|b| - r)]
  {
  }

  // ---------------------------------------------------------------- growth

  /** The 1.25-fold growth above the threshold. */
  function Stretched(n: nat, newCap: nat): (m: nat)
    requires n >= 4
    ensures m >= n && m >= newCap && (n >= newCap ==> m == n) && (n < newCap ==> m < newCap + newCap / 4 + 1)
    decreases newCap - n
  {
    if n < newCap then Stretched(n + n / 4, newCap) else n
  }

  /** The size after grow(newCap). */
  function GrownSize(size: nat, newCap: nat): nat {
    if size == 0 then (if newCap <= DEFAULT_BUFFER_SIZE then DEFAULT_BUFFER_SIZE else CeilSpec(newCap))
    else if newCap > size + size then newCap
    else if size < BUFFER_GROW_THRESHOLD then size + size
    else Stretched(size, newCap)
  }

  lemma GrowthIsEnough(size: nat, newCap: nat)
    ensures GrownSize(size, newCap) >= newCap && GrownSize(size, newCap) >= size
    ensures GrownSize(size, newCap) >= 2
  {
    if newCap >= 3 { CeilIsPowerOfTwoIff(newCap); }
  }

  /** Nor is it much more: double the old size, a quarter more than what was asked for, or, from nothing, double that. */
  lemma GrowthIsModest(size: nat, newCap: nat)
    requires newCap > size
    ensures size == 0 ==> GrownSize(size, newCap) < 2 * newCap || GrownSize(size, newCap) == 1024
    ensures size > 0 ==> GrownSize(size, newCap) <= newCap + newCap / 4 || (size < 4096 && GrownSize(size, newCap) == 2 * size)
  {
    if newCap >= 3 { CeilIsPowerOfTwoIff(newCap); }
  }

  /** grow(1), which WriteByte calls on a full buffer, makes room exactly below the threshold. */
  lemma GrowByOneMakesRoomIff(size: nat)
    ensures GrownSize(size, 1) > size <==> size < BUFFER_GROW_THRESHOLD
  {
  }

  // ---------------------------------------------------------------- the buffer

  datatype ReadError = NoError | ErrIsEmpty

  /** Go's copy(dst[at:], src), with room for all of src. */
  method CopyInto(dst: array<Byte>, at: nat, src: seq<Byte>)
    requires at + |src| <= dst.Length
    modifies dst
    ensures dst[..] == Overwritten(old(dst[..]), at, src)
  {
    forall k | 0 <= k < |src| {
      dst[at + k] := src[k];
    }
  }

  class Buffer {
    var buf: array<Byte>
    var size: nat
    var r: nat  // next position to read
    var w: nat  // next position to write
    var isEmpty: bool

    ghost predicate Valid()
      reads this
    {
      && buf.Length == size && (size == 0 || size >= 2)
      && (if isEmpty then r == 0 && w == 0 else r < size && w < size)
    }

    ghost function Content(): seq<Byte>
      requires Valid()
      reads this, buf
    {
      if isEmpty then [] else Ring(buf[..], r, w)
    }

    /** The size is rounded by CeilToPowerOfTwo, which is at least 2; 0 alone allocates nothing. */
    constructor (size: int)
      requires size <= MAX_INT_HEAD_BIT
      ensures Valid() && Content() == [] && fresh(buf)
      ensures this.size == (if size == 0 then 0 else CeilSpec(size)) && this.size >= size
    {
      buf, this.size, r, w, isEmpty := new Byte[0], 0, 0, 0, true;
      new;
      if size != 0 {
        var c := CeilToPowerOfTwo(size);
        if size >= 3 {
          CeilIsPowerOfTwoIff(size);
        }
        buf := new Byte[c];
        this.size := c;
      }
    }

    /** The number of bytes to read. */
    function Buffered(): (n: nat)
      requires Valid()
      reads this, buf
      ensures n == |Content()|
    {
      if r == w then (if isEmpty then 0 else size) else if w > r then w - r else size - r + w
    }

    /** The number of bytes that fit without growing. */
    function Available(): (n: nat)
      requires Valid()
      reads this, buf
      ensures n + |Content()| == size
    {
      if r == w then (if isEmpty then size else 0) else if w < r then r - w else size - w + r
    }

    predicate IsFull()
      reads this
    {
      r == w && !isEmpty
    }

    method Reset()
      requires Valid()
      modifies this`isEmpty, this`r, this`w
      ensures Valid() && Content() == []
    {
      isEmpty, r, w := true, 0, 0;
    }

    /** The first `n` bytes, or all of them if n <= 0, in at most two pieces, without reading them. */
    method Peek(n: int) returns (head: seq<Byte>, tail: seq<Byte>)
      requires Valid()
      ensures head + tail == if 0 < n < |Content()| then Content()[..n] else Content()
    {
      head, tail := [], [];
      if isEmpty {
        return;
      }
      if n <= 0 {
        head, tail := PeekAll();
        return;
      }
      ghost var all := Content();
      if w > r {
        var m := w - r;
        if m > n {
          m := n;
        }
        PrefixInPieces(buf[..], r, w, m);
        head := buf[r..r + m];
        return;
      }
      var m := size - r + w;
      if m > n {
        m := n;
      }
      PrefixInPieces(buf[..], r, w, m);
      if r + m <= size {
        head := buf[r..r + m];
      } else {
        var c1 := size - r;
        head := buf[r..];
        var c2 := m - c1;
        tail := buf[..c2];
      }
    }

    method PeekAll() returns (head: seq<Byte>, tail: seq<Byte>)
      requires Valid()
      ensures head + tail == Content()
    {
      head, tail := [], [];
      if isEmpty {
        return;
      }
      if w > r {
        head := buf[r..w];
        return;
      }
      head := buf[r..];
      if w != 0 {
        tail := buf[..w];
      }
    }

    /** A copy of everything there is to read. */
    method Bytes() returns (bb: seq<Byte>)
      requires Valid()
      ensures bb == Content()
    {
      bb := [];
      if isEmpty {
        return;
      } else if w == r {
        bb := bb + buf[r..];
        bb := bb + buf[..w];
        return;
      }
      if w > r {
        bb := bb + buf[r..w];
        return;
      }
      bb := bb + buf[r..];
      if w != 0 {
        bb := bb + buf[..w];
      }
    }

    /** Skip n bytes; skipping as many as there are, or more, empties the buffer. */
    method Discard(n: int) returns (discarded: nat)
      requires Valid()
      modifies this`isEmpty, this`r, this`w
      ensures Valid()
      ensures discarded == if n <= 0 then 0 else if n < |old(Content())| then n else |old(Content())|
      ensures Content() == old(Content())[discarded..]
    {
      if n <= 0 {
        return 0;
      }
      discarded := Buffered();
      if n < discarded {
        var to := Mod(r + n, size);
        SkipTo(to, n);
        return n;
      }
      Reset();
    }

    method SkipTo(to: nat, ghost n: nat)
      requires Valid() && !isEmpty && 0 < n < |Content()| && to == Wrap(r + n, size)
      modifies this`r
      ensures Valid() && Content() == old(Content())[n..]
    {
      ReadDrops(buf[..], r, w, n);
      r := to;
    }

    method Read(p: array<Byte>) returns (n: nat, err: ReadError)
      requires Valid() && p != buf
      modifies this`isEmpty, this`r, this`w, p
      ensures Valid()
      ensures n == if p.Length < |old(Content())| then p.Length else |old(Content())|
      ensures err == if p.Length > 0 && |old(Content())| == 0 then ErrIsEmpty else NoError
      ensures p[..] == old(Content())[..n] + old(p[..])[n..]
      ensures Content() == old(Content())[n..]
    {
      if p.Length == 0 {
        return 0, NoError;
      }
      if isEmpty {
        return 0, ErrIsEmpty;
      }
      err := NoError;
      n := if w > r then w - r else size - r + w;
      if n > p.Length {
        n := p.Length;
      }
      CopyOut(p, n);
      Advance(n);
    }

    /** The copying of Read, in one piece or two. */
    method CopyOut(p: array<Byte>, n: nat)
      requires Valid() && !isEmpty && p != buf && n <= |Content()| && n <= p.Length
      modifies p
      ensures p[..] == Content()[..n] + old(p[..])[n..]
    {
      PrefixInPieces(buf[..], r, w, n);
      if r + n <= size {
        CopiedInPieces(p[..], buf[r..r + n], []);
        CopyInto(p, 0, buf[r..r + n]);
      } else {
        var c1 := size - r;
        var c2 := n - c1;
        CopiedInPieces(p[..], buf[r..], buf[..c2]);
        CopyInto(p, 0, buf[r..]);
        CopyInto(p, c1, buf[..c2]);
      }
    }

    /** The end of every read: move the read position, and start over if that was all. */
    method Advance(n: nat)
      requires Valid() && !isEmpty && 0 < n <= |Content()|
      modifies this`isEmpty, this`r, this`w
      ensures Valid() && Content() == old(Content())[n..]
    {
      var to := Mod(r + n, size);
      MoveTo(to, n);
    }

    method MoveTo(to: nat, ghost n: nat)
      requires Valid() && !isEmpty && 0 < n <= |Content()| && to == Wrap(r + n, size)
      modifies this`isEmpty, this`r, this`w
      ensures Valid() && Content() == old(Content())[n..]
    {
      ReadDrops(buf[..], r, w, n);
      r := to;
      if r == w {
        Reset();
      }
    }

    /** The size grow() settles on, by the loop it settles on it with. */
    method NewSize(newCap: nat) returns (c: nat)
      requires Valid() && (size == 0 ==> newCap <= MAX_INT_HEAD_BIT)
      ensures c == GrownSize(size, newCap)
    {
      c := newCap;
      var n := size;
      if n == 0 {
        if newCap <= DEFAULT_BUFFER_SIZE {
          c := DEFAULT_BUFFER_SIZE;
        } else {
          c := CeilToPowerOfTwo(newCap);
        }
      } else if newCap <= n + n {
        if n < BUFFER_GROW_THRESHOLD {
          c := n + n;
        } else {
          while n < newCap
            invariant n >= 4 && Stretched(n, newCap) == Stretched(size, newCap)
            decreases newCap - n
          {
            n := n + n / 4;
          }
          c := n;
        }
      }
    }

    /**
     A new array with the same bytes, moved to its start. The write position follows them, which is a position in the
     array, and the result a buffer in order, only if there was room for more.
     */
    method Grow(newCap: nat)
      requires Valid() && (size == 0 ==> newCap <= MAX_INT_HEAD_BIT)
      modifies this
      ensures fresh(buf) && buf.Length == size == GrownSize(old(size), newCap)
      ensures r == 0 && w == |old(Content())| <= size && isEmpty == old(isEmpty) && buf[..w] == old(Content())
      ensures |old(Content())| < size ==> Valid() && Content() == old(Content())
    {
      var c := NewSize(newCap);
      GrowthIsEnough(size, newCap);
      var newBuf := new Byte[c];
      var oldLen := Buffered();
      ghost var all := Content();
      var n, _ := Read(newBuf);
      assert newBuf[..oldLen] == all;
      buf, r, w, size := newBuf, 0, oldLen, c;
      if w > 0 {
        isEmpty := false;
      }
    }

    /** Write appends, whatever there is room for. */
    method Write(p: seq<Byte>) returns (n: nat)
      requires Valid() && (size == 0 ==> |p| <= MAX_INT_HEAD_BIT)
      modifies this, buf
      ensures Valid() && n == |p| && Content() == old(Content()) + p
      ensures if |p| <= old(size) - |old(Content())| then buf == old(buf) && size == old(size) else fresh(buf)
    {
      n := |p|;
      if n == 0 {
        return;
      }
      var free := Available();
      if n > free {
        GrowthIsEnough(size, size + n - free);
        Grow(size + n - free);
      }
      PutIn(p);
    }

    /** The end of Write, once there is room. */
    method PutIn(p: seq<Byte>)
      requires Valid() && 0 < |p| <= size - |Content()|
      modifies this`w, this`isEmpty, buf
      ensures Valid() && Content() == old(Content()) + p
    {
      ghost var b, w0 := buf[..], w;
      CopyIn(p);
      w := if w >= r && size - w < |p| then |p| - (size - w) else w + |p|;
      if w == size {
        w := 0;
      }
      Appended(b, w0, p);
      isEmpty := false;
    }

    /** The copying of Write, in one piece or two. */
    method CopyIn(p: seq<Byte>)
      requires Valid() && 0 < |p| <= size - |Content()|
      modifies buf
      ensures Wrote(old(buf[..]), buf[..], w, p)
    {
      ghost var b := buf[..];
      if w >= r {
        var c1 := size - w;
        if c1 >= |p| {
          WroteOnce(b, w, p);
          CopyInto(buf, w, p);
        } else {
          CopyRound(p, c1);
        }
      } else {
        WroteOnce(b, w, p);
        CopyInto(buf, w, p);
      }
    }

    /** The two pieces of a copy that goes round the end. */
    method CopyRound(p: seq<Byte>, c1: nat)
      requires w < buf.Length < w + |p| && |p| <= buf.Length && c1 == buf.Length - w
      modifies buf
      ensures Wrote(old(buf[..]), buf[..], w, p)
    {
      WroteTwice(buf[..], w, p);
      CopyInto(buf, w, p[..c1]);
      CopyInto(buf, 0, p[c1..]);
    }

    lemma Appended(b: seq<Byte>, w0: nat, p: seq<Byte>)
      requires |b| == size == buf.Length && w0 < size && r < size && p != [] && Wrote(b, buf[..], w0, p)
      requires if isEmpty then r == 0 && w0 == 0 else r != w0 && |p| <= size - |Ring(b, r, w0)|
      requires w == Wrap(w0 + |p|, size)
      ensures Ring(buf[..], r, w) == (if isEmpty then [] else Ring(b, r, w0)) + p
    {
      if isEmpty { WriteFills(b, buf[..], p); } else { WriteAppends(b, buf[..], r, w0, p); }
    }

    /**
     One more byte. On a full buffer of 4096 bytes or more grow(1) makes no room, the write position is one past the
     end of the array, and the store there panics: `stored` is false.
     */
    method WriteByte(c: Byte) returns (stored: bool)
      requires Valid()
      modifies this, buf
      ensures stored <==> !(old(IsFull()) && old(size) >= BUFFER_GROW_THRESHOLD)
      ensures stored ==> Valid() && (buf == old(buf) || fresh(buf)) && Content() == old(Content()) + [c]
      ensures !stored ==> buf.Length == size == old(size) == w && buf[..] == old(Content())
    {
      GrowByOneMakesRoomIff(size);
      if Available() < 1 {
        Grow(1);
      }
      if w >= buf.Length {
        return false;
      }
      PutByte(c);
      return true;
    }

    /** On a full buffer the store of WriteByte hits the array exactly below the threshold. */
    lemma StoreIsInRangeIff()
      requires Valid() && IsFull()
      ensures |Content()| < GrownSize(size, 1) <==> size < 4096
    {
      GrowByOneMakesRoomIff(size);
      assert |Content()| == size;
    }

    method PutByte(c: Byte)
      requires Valid() && |Content()| < size
      modifies this`w, this`isEmpty, buf
      ensures Valid() && Content() == old(Content()) + [c]
    {
      ghost var b, w0 := buf[..], w;
      buf[w] := c;
      assert Wrote(b, buf[..], w0, [c]);
      w := w + 1;
      if w == size {
        w := 0;
      }
      Appended(b, w0, [c]);
      isEmpty := false;
    }

    method ReadByte() returns (b: Byte, err: ReadError)
      requires Valid()
      modifies this`isEmpty, this`r, this`w
      ensures Valid()
      ensures if |old(Content())| == 0 then err == ErrIsEmpty && Content() == []
              else err == NoError && b == old(Content())[0] && Content() == old(Content())[1..]
    {
      if isEmpty {
        return 0, ErrIsEmpty;
      }
      b, err := buf[r], NoError;
      assert b == Content()[0];
      var to := r + 1;
      if to == size {
        to := 0;
      }
      MoveTo(to, 1);
    }

    /** The room that CopyFromSocket offers to the read call. */
    function Offered(): nat
      requires Valid()
      reads this, buf
    {
      if IsFull() then Stretch() - size else Available()
    }

    function Stretch(): (m: nat)
      requires Valid()
      reads this
      ensures m >= size
    {
      GrowthIsEnough(size, size + size / 2);
      GrownSize(size, size + size / 2)
    }

    /** A read from the socket that returned the bytes `src`, or failed (then src is empty), appends them. */
    method CopyFromSocket(src: seq<Byte>)
      requires Valid() && |src| <= Offered()
      modifies this, buf
      ensures Valid() && (buf == old(buf) || fresh(buf))
      ensures Content() == old(Content()) + src
    {
      if r == w {
        if !isEmpty {
          GrowthIsEnough(size, size + size / 2);
          Grow(size + size / 2);
          Receive(src);
          return;
        }
        r, w := 0, 0;
      }
      Receive(src);
    }

    method Receive(src: seq<Byte>)
      requires Valid() && |src| <= size - |Content()|
      modifies this`w, this`isEmpty, buf
      ensures Valid() && Content() == old(Content()) + src
    {
      if |src| > 0 {
        ghost var b, w0 := buf[..], w;
        CopyIn(src);
        w := Mod(w + |src|, size);
        Appended(b, w0, src);
        isEmpty := false;
      }
    }
  }

  /** A buffer that WriteByte fails on, and that failure. */
  method FailingWriteByte(c: Byte) returns (b: Buffer)
    ensures fresh(b) && b.w == b.buf.Length >= BUFFER_GROW_THRESHOLD
  {
    b := new Buffer(BUFFER_GROW_THRESHOLD);
    var free := b.Available();
    var n := b.Write(seq(free, _ => c));
    assert b.Valid() && b.IsFull() && b.size >= BUFFER_GROW_THRESHOLD;
    var stored := b.WriteByte(c);
    assert !stored;
  }
}
