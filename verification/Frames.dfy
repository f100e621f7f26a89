/** The wire format of sockd: a 12-byte header and a payload, read and written through
    streams that move any number of bytes at a time. */
module Frames {
  import opened Wrappers

  const MAGIC := 0x534f434b
  const VERSION := 1
  const HEADER_LEN := 12
  const U32_MAX := 0xffff_ffff

  type u16 = x: nat | x < 0x1_0000
  type u32 = x: nat | x <= U32_MAX

  datatype FrameKind = Request | Response | Ping | Pong | Error | Shutdown | ShutdownAck

  datatype Frame = Frame(kind: FrameKind, flags: u16, payload: bytes)

  datatype Header = Header(kind: FrameKind, flags: u16, payloadLen: u32)

  datatype FrameError =
    | InvalidMagic(magic: nat)
    | UnsupportedVersion(version: byte)
    | UnknownKind(code: byte)
    | PayloadTooLarge(len: nat, max: nat)
    | UnexpectedEof
    | WriteFailed

  // ---- Kinds and numbers --------------------------------------------------

  function KindCode(kind: FrameKind): byte {
    match kind
    case Request => 1
    case Response => 2
    case Ping => 3
    case Pong => 4
    case Error => 5
    case Shutdown => 6
    case ShutdownAck => 7
  }

  function KindOf(code: byte): (r: Result<FrameKind, FrameError>)
    ensures r.Ok? ==> KindCode(r.value) == code
    ensures r.Err? <==> forall k :: KindCode(k) != code
  {
    if code == 1 then Ok(Request)
    else if code == 2 then Ok(Response)
    else if code == 3 then Ok(Ping)
    else if code == 4 then Ok(Pong)
    else if code == 5 then Ok(Error)
    else if code == 6 then Ok(Shutdown)
    else if code == 7 then assert KindCode(ShutdownAck) == code; Ok(ShutdownAck)
    else Err(UnknownKind(code))
  }

  function BigEndian16(x: u16): bytes {
    [x / 0x100, x % 0x100]
  }

  function BigEndian32(x: u32): bytes {
    BigEndian16(x / 0x1_0000) + BigEndian16(x % 0x1_0000)
  }

  function From16(b: bytes): u16
    requires |b| == 2
  {
    b[0] as int * 0x100 + b[1]
  }

  function From32(b: bytes): u32
    requires |b| == 4
  {
    From16(b[..2]) as int * 0x1_0000 + From16(b[2..])
  }

  lemma Inverse16(x: u16, b: bytes)
    requires |b| == 2
    ensures From16(BigEndian16(x)) == x
    ensures BigEndian16(From16(b)) == b
  {}

  lemma Inverse32(x: u32, b: bytes)
    requires |b| == 4
    ensures From32(BigEndian32(x)) == x
    ensures BigEndian32(From32(b)) == b
  {
    Inverse16(x / 0x1_0000, b[..2]);
    Inverse16(x % 0x1_0000, b[2..]);
    assert BigEndian32(x)[..2] == BigEndian16(x / 0x1_0000) && BigEndian32(x)[2..] == BigEndian16(x % 0x1_0000);
    assert b == b[..2] + b[2..];
  }

  // ---- Header -------------------------------------------------------------

  function EncodeHeader(h: Header): (b: bytes)
    ensures |b| == HEADER_LEN
  {
    BigEndian32(MAGIC) + [VERSION, KindCode(h.kind)] + BigEndian16(h.flags) + BigEndian32(h.payloadLen)
  }

  function DecodeHeader(b: bytes): Result<Header, FrameError>
    requires |b| == HEADER_LEN
  {
    if From32(b[..4]) != MAGIC then Err(InvalidMagic(From32(b[..4])))
    else if b[4] != VERSION then Err(UnsupportedVersion(b[4]))
    else match KindOf(b[5])
      case Err(e) => Err(e)
      case Ok(kind) => Ok(Header(kind, From16(b[6..8]), From32(b[8..12])))
  }

  /** Decoding inverts encoding, and encoding inverts decoding on every header it accepts. */
  lemma HeaderRoundTrip(h: Header, b: bytes)
    requires |b| == HEADER_LEN
    ensures DecodeHeader(EncodeHeader(h)) == Ok(h)
    ensures DecodeHeader(b).Ok? ==> EncodeHeader(DecodeHeader(b).value) == b
  {
    var e := EncodeHeader(h);
    assert e[..4] == BigEndian32(MAGIC) && e[6..8] == BigEndian16(h.flags) && e[8..12] == BigEndian32(h.payloadLen);
    Inverse32(MAGIC, b[..4]);
    Inverse32(h.payloadLen, b[8..12]);
    assert e[5] == KindCode(h.kind);
    assert KindOf(e[5]) == Ok(h.kind);
    if DecodeHeader(b).Ok? {
      assert b == b[..4] + [b[4], b[5]] + b[6..8] + b[8..12];
      assert BigEndian16(From16(b[6..8])) == b[6..8];
    }
  }

  // ---- Frames on a byte string -------------------------------------------

  predicate Sendable(f: Frame) {
    |f.payload| <= U32_MAX
  }

  function EncodeFrame(f: Frame): (b: bytes)
    requires Sendable(f)
    ensures |b| == HEADER_LEN + |f.payload|
  {
    EncodeHeader(Header(f.kind, f.flags, |f.payload|)) + f.payload
  }

  datatype Parsed = Parsed(frame: Frame, used: nat)

  /** The bytes of a frame: "SOCK", version 1, a kind from 1 to 7, the flags and the payload's
      length with the high byte first, and the payload. */
  lemma FrameLayout(f: Frame)
    requires Sendable(f)
    ensures var b := EncodeFrame(f);
      && b[..5] == [0x53, 0x4f, 0x43, 0x4b, 1]
      && b[5] == (match f.kind
                  case Request => 1
                  case Response => 2
                  case Ping => 3
                  case Pong => 4
                  case Error => 5
                  case Shutdown => 6
                  case ShutdownAck => 7)
      && b[6] as int * 0x100 + b[7] == f.flags
      && b[8] as int * 0x100_0000 + b[9] as int * 0x1_0000 + b[10] as int * 0x100 + b[11] == |f.payload|
      && b[12..] == f.payload
  {
    var h := EncodeHeader(Header(f.kind, f.flags, |f.payload|));
    assert EncodeFrame(f)[..12] == h;
    assert BigEndian32(MAGIC) == [0x53, 0x4f, 0x43, 0x4b];
    assert h[..5] == BigEndian32(MAGIC) + [VERSION];
    assert EncodeFrame(f)[..5] == h[..5];
    assert h[6..8] == BigEndian16(f.flags) && h[8..12] == BigEndian32(|f.payload|);
    LengthBytes(|f.payload|);
  }

  lemma LengthBytes(x: u32)
    ensures var b := BigEndian32(x);
      |b| == 4 && b[0] as int * 0x100_0000 + b[1] as int * 0x1_0000 + b[2] as int * 0x100 + b[3] == x
  {}

  /** Reading one frame from the front of data. */
  function ParseFrame(data: bytes, max: nat): (r: Result<Parsed, FrameError>)
    ensures r.Ok? ==> r.value.used <= |data|
  {
    if |data| < HEADER_LEN then Err(UnexpectedEof)
    else match DecodeHeader(data[..HEADER_LEN])
      case Err(e) => Err(e)
      case Ok(h) =>
        if h.payloadLen > max then Err(PayloadTooLarge(h.payloadLen, max))
        else if |data| - HEADER_LEN < h.payloadLen then Err(UnexpectedEof)
        else Ok(Parsed(Frame(h.kind, h.flags, data[HEADER_LEN..HEADER_LEN + h.payloadLen]), HEADER_LEN + h.payloadLen))
  }

  /** A frame followed by anything reads back as that frame, using exactly its bytes. */
  lemma FrameRoundTrip(f: Frame, rest: bytes, max: nat)
    requires Sendable(f) && |f.payload| <= max
    ensures ParseFrame(EncodeFrame(f) + rest, max) == Ok(Parsed(f, |EncodeFrame(f)|))
  {
    var h := Header(f.kind, f.flags, |f.payload|);
    var data := EncodeFrame(f) + rest;
    assert data[..HEADER_LEN] == EncodeHeader(h);
    HeaderRoundTrip(h, EncodeHeader(h));
    assert data[HEADER_LEN..HEADER_LEN + |f.payload|] == f.payload;
  }

  /** Whatever is accepted is the encoding of what is returned. */
  lemma ParseIsEncoding(data: bytes, max: nat)
    requires ParseFrame(data, max).Ok?
    ensures var p := ParseFrame(data, max).value;
      Sendable(p.frame) && |p.frame.payload| <= max && p.used == |EncodeFrame(p.frame)|
          && data[..p.used] == EncodeFrame(p.frame)
  {
    var p := ParseFrame(data, max).value;
    var h := DecodeHeader(data[..HEADER_LEN]).value;
    HeaderRoundTrip(h, data[..HEADER_LEN]);
    assert data[..p.used] == data[..HEADER_LEN] + data[HEADER_LEN..p.used];
  }

  function Number32(b: bytes, at: nat): nat
    requires at + 4 <= |b|
  {
    b[at] as int * 0x100_0000 + b[at + 1] as int * 0x1_0000 + b[at + 2] as int * 0x100 + b[at + 3]
  }

  /** Why bytes are refused: the first of these conditions that holds of them. */
  lemma RefusedBecause(data: bytes, max: nat)
    ensures ParseFrame(data, max).Err? <==>
            |data| < 12 || data[..5] != [0x53, 0x4f, 0x43, 0x4b, 1] || !(1 <= data[5] <= 7)
            || Number32(data, 8) > max || |data| - 12 < Number32(data, 8)
    ensures |data| < 12 ==> ParseFrame(data, max) == Err(UnexpectedEof)
    ensures |data| >= 12 ==>
              var magic, len := Number32(data, 0), Number32(data, 8);
              ParseFrame(data, max).Err? ==>
                ParseFrame(data, max).error
                == if data[..4] != [0x53, 0x4f, 0x43, 0x4b] then InvalidMagic(magic)
                   else if data[4] != 1 then UnsupportedVersion(data[4])
                   else if !(1 <= data[5] <= 7) then UnknownKind(data[5])
                   else if len > max then PayloadTooLarge(len, max)
                   else UnexpectedEof
  {
    if |data| >= 12 {
      var b := data[..12];
      NumberIs(data, 0, b[..4]);
      NumberIs(data, 8, b[8..12]);
      Inverse32(MAGIC, b[..4]);
      assert BigEndian32(MAGIC) == [0x53, 0x4f, 0x43, 0x4b];
      assert data[..5] == data[..4] + [data[4]];
      assert b[..4] == data[..4];
      if data[4] == 1 && b[..4] == BigEndian32(MAGIC) {
        assert data[..5] == [0x53, 0x4f, 0x43, 0x4b, 1];
      } else {
        assert data[..5][..4] == data[..4] && data[..5][4] == data[4];
      }
    }
  }

  lemma NumberIs(data: bytes, at: nat, b: bytes)
    requires at + 4 <= |data| && b == data[at..at + 4]
    ensures From32(b) == Number32(data, at)
  {}

  /** No encoding is a proper prefix of another. */
  lemma PrefixFree(f: Frame, g: Frame)
    requires Sendable(f) && Sendable(g) && EncodeFrame(f) <= EncodeFrame(g)
    ensures f == g
  {
    var rest := EncodeFrame(g)[|EncodeFrame(f)|..];
    assert EncodeFrame(g) == EncodeFrame(f) + rest && EncodeFrame(g) == EncodeFrame(g) + [];
    FrameRoundTrip(f, rest, U32_MAX);
    FrameRoundTrip(g, [], U32_MAX);
  }

  /** Every strict prefix of a frame fails to read. */
  lemma StrictPrefixFails(f: Frame, n: nat, max: nat)
    requires Sendable(f) && n < |EncodeFrame(f)|
    ensures ParseFrame(EncodeFrame(f)[..n], max).Err?
    ensures |f.payload| <= max ==> ParseFrame(EncodeFrame(f)[..n], max) == Err(UnexpectedEof)
  {
    if n >= HEADER_LEN {
      var h := Header(f.kind, f.flags, |f.payload|);
      assert EncodeFrame(f)[..n][..HEADER_LEN] == EncodeHeader(h);
      HeaderRoundTrip(h, EncodeHeader(h));
    }
  }

  function EncodeAll(fs: seq<Frame>): bytes
    requires forall f | f in fs :: Sendable(f)
  {
    if fs == [] then [] else EncodeFrame(fs[0]) + EncodeAll(fs[1..])
  }

  /** Reading n frames one after the other: the frames and the bytes left over. */
  function ParseMany(data: bytes, n: nat, max: nat): Result<(seq<Frame>, bytes), FrameError> {
    if n == 0 then Ok(([], data))
    else match ParseFrame(data, max)
      case Err(e) => Err(e)
      case Ok(p) =>
        match ParseMany(data[p.used..], n - 1, max)
        case Err(e) => Err(e)
        case Ok(r) => Ok(([p.frame] + r.0, r.1))
  }

  /** Any list of frames written in sequence reads back equal, with every byte consumed. */
  lemma {:induction false} StreamRoundTrip(fs: seq<Frame>, max: nat)
    requires forall f | f in fs :: Sendable(f) && |f.payload| <= max
    ensures ParseMany(EncodeAll(fs), |fs|, max) == Ok((fs, []))
  {
    if fs != [] {
      FrameRoundTrip(fs[0], EncodeAll(fs[1..]), max);
      StreamRoundTrip(fs[1..], max);
      assert EncodeAll(fs)[|EncodeFrame(fs[0])|..] == EncodeAll(fs[1..]);
      assert [fs[0]] + fs[1..] == fs;
    }
  }

  // ---- Streams ------------------------------------------------------------

  /** What one call of read or write does: moves at most n bytes, or is interrupted. */
  datatype Io = Moves(n: nat) | Interrupted

  /** A writer that never refuses to take anything at all. */
  predicate Steady(script: seq<Io>) {
    forall i | 0 <= i < |script| :: script[i] != Moves(0)
  }

  /** A byte source whose reads return whatever chunks the script dictates. */
  class Reader {
    const data: bytes
    var pos: nat
    var script: seq<Io>

    constructor (data: bytes, script: seq<Io>)
      ensures Valid() && this.data == data && pos == 0 && this.script == script
    {
      this.data, pos, this.script := data, 0, script;
    }

    ghost predicate Valid()
      reads this
    {
      pos <= |data|
    }

    ghost function Left(): bytes
      reads this
      requires pos <= |data|
    {
      data[pos..]
    }

    /** read: between 1 and n bytes unless at the end; None when interrupted. */
    method Read(n: nat) returns (chunk: Option<bytes>)
      requires Valid() && n > 0
      modifies this
      ensures Valid() && chunk.None? ==> Left() == old(Left()) && |script| < |old(script)|
      ensures Valid()
      ensures chunk.Some? ==> |chunk.value| <= n && old(Left()) == chunk.value + Left()
      ensures chunk.Some? ==> (chunk.value == [] <==> old(Left()) == [])
    {
      var count := if n < |data| - pos then n else |data| - pos;
      if script != [] {
        var io := script[0];
        script := script[1..];
        if io == Interrupted { return None; }
        if 0 < io.n < count { count := io.n; }
      }
      chunk := Some(data[pos..pos + count]);
      pos := pos + count;
    }
  }

  /** read_exact: n bytes, or UnexpectedEof with everything consumed. */
  method ReadExact(reader: Reader, n: nat) returns (r: Result<bytes, FrameError>)
    requires reader.Valid()
    modifies reader
    ensures reader.Valid()
    ensures |old(reader.Left())| >= n ==> r == Ok(old(reader.Left())[..n]) && reader.Left() == old(reader.Left())[n..]
    ensures |old(reader.Left())| < n ==> r == Err(UnexpectedEof) && reader.Left() == []
  {
    var got: bytes := [];
    while |got| < n
      invariant reader.Valid() && |got| <= n
      invariant old(reader.Left()) == got + reader.Left()
      decreases n - |got|, |reader.script|
    {
      var chunk := reader.Read(n - |got|);
      if chunk.Some? {
        if chunk.value == [] { return Err(UnexpectedEof); }
        got := got + chunk.value;
      }
    }
    return Ok(got);
  }

  method ReadHeader(reader: Reader) returns (r: Result<Header, FrameError>)
    requires reader.Valid()
    modifies reader
    ensures reader.Valid()
    ensures |old(reader.Left())| < HEADER_LEN ==> r == Err(UnexpectedEof)
    ensures |old(reader.Left())| >= HEADER_LEN ==>
              r == DecodeHeader(old(reader.Left())[..HEADER_LEN]) && reader.Left() == old(reader.Left())[HEADER_LEN..]
  {
    var head := ReadExact(reader, HEADER_LEN);
    if head.Err? { return Err(head.error); }
    r := DecodeHeader(head.value);
  }

  method ReadFrame(reader: Reader, max: nat) returns (r: Result<Frame, FrameError>)
    requires reader.Valid()
    modifies reader
    ensures reader.Valid()
    ensures match ParseFrame(old(reader.Left()), max)
      case Ok(p) => r == Ok(p.frame) && reader.Left() == old(reader.Left())[p.used..]
      case Err(e) => r == Err(e)
  {
    ghost var data := reader.Left();
    var header := ReadHeader(reader);
    if header.Err? { return Err(header.error); }
    var len: nat := header.value.payloadLen;
    if len > max {
      return Err(PayloadTooLarge(len, max));
    }
    var payload := ReadExact(reader, len);
    if payload.Err? { return Err(payload.error); }
    SliceOfSlice(data, HEADER_LEN, len);
    return Ok(Frame(header.value.kind, header.value.flags, payload.value));
  }

  lemma SliceOfSlice(data: bytes, n: nat, len: nat)
    requires n + len <= |data|
    ensures data[n..][..len] == data[n..n + len] && data[n..][len..] == data[n + len..]
  {}

  /** A byte sink that takes whatever chunks the script dictates. */
  class Writer {
    var data: bytes
    var script: seq<Io>

    constructor (script: seq<Io>)
      ensures data == [] && this.script == script
    {
      this.data, this.script := [], script;
    }

    /** write: takes a prefix of buf, possibly nothing; None when interrupted. */
    method Write(buf: bytes) returns (count: Option<nat>)
      modifies this
      ensures count.None? ==> data == old(data) && |script| < |old(script)|
      ensures count.Some? ==> count.value <= |buf| && data == old(data) + buf[..count.value]
      ensures Steady(old(script)) ==> Steady(script) && (count.Some? && buf != [] ==> count.value > 0)
    {
      var n := |buf|;
      if script != [] {
        var io := script[0];
        script := script[1..];
        if io == Interrupted { return None; }
        if io.n < n { n := io.n; }
      }
      data := data + buf[..n];
      return Some(n);
    }
  }

  /** write_all: everything, or an error after a prefix. */
  method WriteAll(writer: Writer, buf: bytes) returns (r: Result<(), FrameError>)
    modifies writer
    ensures r.Ok? ==> writer.data == old(writer.data) + buf
    ensures r.Err? ==> r.error == WriteFailed && old(writer.data) <= writer.data <= old(writer.data) + buf
    ensures Steady(old(writer.script)) ==> r.Ok? && Steady(writer.script)
  {
    var done := 0;
    while done < |buf|
      invariant done <= |buf| && writer.data == old(writer.data) + buf[..done]
      invariant Steady(old(writer.script)) ==> Steady(writer.script)
      decreases |buf| - done, |writer.script|
    {
      var count := writer.Write(buf[done..]);
      if count.Some? {
        assert buf[..done] + buf[done..][..count.value] == buf[..done + count.value];
        if count.value == 0 { return Err(WriteFailed); }
        done := done + count.value;
      }
    }
    return Ok(());
  }

  /** Fills the header buffer in place. */
  method EncodeInto(h: Header, buf: array<byte>)
    requires buf.Length == HEADER_LEN
    modifies buf
    ensures buf[..] == EncodeHeader(h)
  {
    CopyInto(buf, 0, BigEndian32(MAGIC));
    buf[4] := VERSION;
    buf[5] := KindCode(h.kind);
    CopyInto(buf, 6, BigEndian16(h.flags));
    CopyInto(buf, 8, BigEndian32(h.payloadLen));
  }

  /** copy_from_slice */
  method CopyInto(buf: array<byte>, at: nat, src: bytes)
    requires at + |src| <= buf.Length
    modifies buf
    ensures forall i | 0 <= i < buf.Length ::
              buf[i] == if at <= i < at + |src| then src[i - at] else old(buf[i])
  {
    forall i | 0 <= i < |src| {
      buf[at + i] := src[i];
    }
  }

  /** A frame too long for the length field is refused before anything is written; otherwise
      its encoding is appended, whole if the result is Ok and in part if it is not. */
  method WriteFrame(writer: Writer, f: Frame) returns (r: Result<(), FrameError>)
    modifies writer
    ensures !Sendable(f) ==> r == Err(PayloadTooLarge(|f.payload|, U32_MAX)) && writer.data == old(writer.data)
    ensures r.Ok? ==> Sendable(f) && writer.data == old(writer.data) + EncodeFrame(f)
    ensures Sendable(f) && r.Err? ==>
              r.error == WriteFailed && old(writer.data) <= writer.data <= old(writer.data) + EncodeFrame(f)
    ensures Sendable(f) && Steady(old(writer.script)) ==> r.Ok? && Steady(writer.script)
  {
    if |f.payload| > U32_MAX {
      return Err(PayloadTooLarge(|f.payload|, U32_MAX));
    }
    var buf := new byte[HEADER_LEN];
    EncodeInto(Header(f.kind, f.flags, |f.payload|), buf);
    assert old(writer.data) + EncodeFrame(f) == old(writer.data) + buf[..] + f.payload;
    r := WriteAll(writer, buf[..]);
    if r.Err? { return; }
    r := WriteAll(writer, f.payload);
  }

  // ---- Lists of frames through streams ------------------------------------

  /** Frame after frame into one writer. */
  method WriteFrames(writer: Writer, fs: seq<Frame>) returns (r: Result<(), FrameError>)
    requires forall f | f in fs :: Sendable(f)
    modifies writer
    ensures r.Ok? ==> writer.data == old(writer.data) + EncodeAll(fs)
    ensures Steady(old(writer.script)) ==> r.Ok?
  {
    var k := 0;
    while k < |fs|
      invariant k <= |fs| && old(writer.data) + EncodeAll(fs) == writer.data + EncodeAll(fs[k..])
      invariant Steady(old(writer.script)) ==> Steady(writer.script)
    {
      Regroup(writer.data, EncodeFrame(fs[k]), EncodeAll(fs[k + 1..]));
      assert fs[k..][1..] == fs[k + 1..];
      r := WriteFrame(writer, fs[k]);
      if r.Err? { return; }
      k := k + 1;
    }
    r := Ok(());
  }

  /** n frames, one after the other, out of one reader. */
  method ReadFrames(reader: Reader, n: nat, max: nat) returns (r: Result<seq<Frame>, FrameError>)
    requires reader.Valid()
    modifies reader
    ensures reader.Valid()
    ensures match ParseMany(old(reader.Left()), n, max)
      case Ok(p) => r == Ok(p.0) && reader.Left() == p.1
      case Err(e) => r == Err(e)
  {
    ghost var goal := ParseMany(reader.Left(), n, max);
    var frames: seq<Frame> := [];
    BehindNone(goal);
    for k := 0 to n
      invariant reader.Valid()
      invariant goal == Behind(frames, ParseMany(reader.Left(), n - k, max))
    {
      ghost var data := reader.Left();
      var f := ReadFrame(reader, max);
      if f.Err? { return Err(f.error); }
      ParseStep(data, n - k, max);
      BehindStep(frames, f.value, ParseMany(reader.Left(), n - k - 1, max));
      frames := frames + [f.value];
    }
    assert frames + [] == frames;
    r := Ok(frames);
  }

  /** What parsing yields when frames were read before. */
  function Behind(frames: seq<Frame>, r: Result<(seq<Frame>, bytes), FrameError>)
    : Result<(seq<Frame>, bytes), FrameError>
  {
    match r
    case Err(e) => Err(e)
    case Ok(p) => Ok((frames + p.0, p.1))
  }

  lemma BehindNone(r: Result<(seq<Frame>, bytes), FrameError>)
    ensures Behind([], r) == r
  {
    if r.Ok? { assert [] + r.value.0 == r.value.0; }
  }

  lemma ParseStep(data: bytes, n: nat, max: nat)
    requires n > 0 && ParseFrame(data, max).Ok?
    ensures var p := ParseFrame(data, max).value;
      ParseMany(data, n, max) == Behind([p.frame], ParseMany(data[p.used..], n - 1, max))
  {}

  lemma BehindStep(frames: seq<Frame>, f: Frame, r: Result<(seq<Frame>, bytes), FrameError>)
    ensures Behind(frames, Behind([f], r)) == Behind(frames + [f], r)
  {
    if r.Ok? { Regroup(frames, [f], r.value.0); }
  }

  /** Any list of frames written through a writer that takes any chunks, and read through a
      reader that gives any chunks, comes back equal, with every byte consumed. Writing fails
      only if the writer at some point takes nothing. */
  method Carry(fs: seq<Frame>, writeScript: seq<Io>, readScript: seq<Io>, max: nat)
    returns (r: Result<seq<Frame>, FrameError>, left: bytes)
    requires forall f | f in fs :: Sendable(f) && |f.payload| <= max
    ensures r.Ok? ==> r.value == fs && left == []
    ensures Steady(writeScript) ==> r.Ok?
  {
    var writer := new Writer(writeScript);
    var written := WriteFrames(writer, fs);
    if written.Err? { return Err(written.error), []; }
    var reader := new Reader(writer.data, readScript);
    assert reader.Left() == EncodeAll(fs);
    StreamRoundTrip(fs, max);
    r := ReadFrames(reader, |fs|, max);
    left := reader.data[reader.pos..];
  }
}
