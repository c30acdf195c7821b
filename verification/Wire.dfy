/** The byte format of frames on TCP and UDP (network/src/protocols.rs,
    network/src/types.rs). */
module Wire {
  import opened Wrappers
  import opened Frames
  import opened Bytes
  import opened Arith

  const FRAME_HANDSHAKE: byte := 1
  const FRAME_INIT: byte := 2
  const FRAME_SHUTDOWN: byte := 3
  const FRAME_OPEN_STREAM: byte := 4
  const FRAME_CLOSE_STREAM: byte := 5
  const FRAME_DATA_HEADER: byte := 6
  const FRAME_DATA: byte := 7
  const FRAME_RAW: byte := 8

  /** Promises are five flags, the low bits of a byte (compression included). */
  const KNOWN_PROMISES: byte := 32

  const UDP_BUFFER_SIZE: nat := 2000

  /** Every field is in the range of its type in the source. */
  predicate Typed(f: Frame) {
    match f
    case Handshake(magic, version) =>
      |magic| == 7 && |version| == 3 && forall i :: 0 <= i < 3 ==> version[i] < Pow256(4)
    case Init(pid, secret) => pid < Pow256(16) && secret < Pow256(16)
    case Shutdown => true
    case OpenStream(sid, prio, _) => sid < Pow256(8) && prio < 256
    case CloseStream(sid) => sid < Pow256(8)
    case DataHeader(mid, sid, length) => mid < Pow256(8) && sid < Pow256(8) && length < Pow256(8)
    case Data(mid, start, _) => mid < Pow256(8) && start < Pow256(8)
    case Raw(_) => true
  }

  /** The length of a payload fits its u16 field, and all promises are known. */
  predicate Transmissible(f: Frame) {
    && (f.Data? ==> |f.data| < Pow256(2))
    && (f.Raw? ==> |f.data| < Pow256(2))
    && (f.OpenStream? ==> f.promises < KNOWN_PROMISES)
  }

  // ----- encoding

  function Tag(f: Frame): byte {
    match f
    case Handshake(_, _) => FRAME_HANDSHAKE
    case Init(_, _) => FRAME_INIT
    case Shutdown => FRAME_SHUTDOWN
    case OpenStream(_, _, _) => FRAME_OPEN_STREAM
    case CloseStream(_) => FRAME_CLOSE_STREAM
    case DataHeader(_, _, _) => FRAME_DATA_HEADER
    case Data(_, _, _) => FRAME_DATA
    case Raw(_) => FRAME_RAW
  }

  /** The fixed part after the tag; a payload length is cut to 16 bits. */
  function Fixed(f: Frame): (bs: seq<byte>)
    requires Typed(f)
    ensures |bs| == FixedLen(Tag(f))
  {
    match f
    case Handshake(magic, version) => magic + ToLe(version[0], 4) + ToLe(version[1], 4) + ToLe(version[2], 4)
    case Init(pid, secret) => ToLe(pid, 16) + ToLe(secret, 16)
    case Shutdown => []
    case OpenStream(sid, prio, promises) => ToLe(sid, 8) + [prio as byte, promises]
    case CloseStream(sid) => ToLe(sid, 8)
    case DataHeader(mid, sid, length) => ToLe(mid, 8) + ToLe(sid, 8) + ToLe(length, 8)
    case Data(mid, start, data) => ToLe(mid, 8) + ToLe(start, 8) + ToLe(|data| % Pow256(2), 2)
    case Raw(data) => ToLe(|data| % Pow256(2), 2)
  }

  function Payload(f: Frame): seq<byte> {
    if f.Data? || f.Raw? then f.data else []
  }

  function Encode(f: Frame): (bs: seq<byte>)
    requires Typed(f)
    ensures |bs| == 1 + FixedLen(Tag(f)) + |Payload(f)|
  {
    [Tag(f)] + Fixed(f) + Payload(f)
  }

  function FixedLen(tag: byte): nat {
    if tag == FRAME_HANDSHAKE then 19
    else if tag == FRAME_INIT then 32
    else if tag == FRAME_OPEN_STREAM then 10
    else if tag == FRAME_CLOSE_STREAM then 8
    else if tag == FRAME_DATA_HEADER then 24
    else if tag == FRAME_DATA then 18
    else if tag == FRAME_RAW then 2
    else 0
  }

  // ----- decoding

  predicate KnownTag(tag: byte) {
    FRAME_HANDSHAKE <= tag <= FRAME_RAW
  }

  /** The length of the payload announced by a fixed part. */
  function PayloadLen(tag: byte, h: seq<byte>): nat
    requires |h| == FixedLen(tag)
  {
    if tag == FRAME_DATA then FromLe(h[16..18])
    else if tag == FRAME_RAW then FromLe(h[0..2])
    else 0
  }

  /** `Frame::gen_*`: a frame from its fixed part and payload. */
  function Gen(tag: byte, h: seq<byte>, data: seq<byte>): Frame
    requires KnownTag(tag) && |h| == FixedLen(tag)
  {
    if tag == FRAME_HANDSHAKE then Handshake(h[0..7], [FromLe(h[7..11]), FromLe(h[11..15]), FromLe(h[15..19])])
    else if tag == FRAME_INIT then Init(FromLe(h[0..16]), FromLe(h[16..32]))
    else if tag == FRAME_SHUTDOWN then Shutdown
    else if tag == FRAME_OPEN_STREAM then OpenStream(FromLe(h[0..8]), h[8] as nat, h[9] % KNOWN_PROMISES)
    else if tag == FRAME_CLOSE_STREAM then CloseStream(FromLe(h[0..8]))
    else if tag == FRAME_DATA_HEADER then DataHeader(FromLe(h[0..8]), FromLe(h[8..16]), FromLe(h[16..24]))
    else if tag == FRAME_DATA then Data(FromLe(h[0..8]), FromLe(h[8..16]), data)
    else Raw(data)
  }

  datatype Decoded = Decoded(frame: Frame, rest: seq<byte>) | Incomplete | UnknownTag(tag: byte)

  /** `read_frame` on the bytes that will ever arrive; running out of them in the
      middle of a frame is a read error. */
  function Decode(s: seq<byte>): (d: Decoded)
    ensures d.Decoded? ==> |d.rest| < |s|
  {
    if s == [] then Incomplete
    else if !KnownTag(s[0]) then UnknownTag(s[0])
    else
      var n := 1 + FixedLen(s[0]);
      if |s| < n then Incomplete
      else
        var h := s[1..n];
        var len := PayloadLen(s[0], h);
        if |s| < n + len then Incomplete
        else Decoded(Gen(s[0], h, s[n..n + len]), s[n + len..])
  }

  function DecodeAll(s: seq<byte>): Option<seq<Frame>>
    decreases |s|
  {
    if s == [] then Some([])
    else
      match Decode(s)
      case Decoded(f, rest) =>
        (match DecodeAll(rest)
         case Some(fs) => Some([f] + fs)
         case None => None)
      case Incomplete => None
      case UnknownTag(_) => None
  }

  function EncodeAll(fs: seq<Frame>): seq<byte>
    requires forall i :: 0 <= i < |fs| ==> Typed(fs[i])
  {
    if fs == [] then [] else Encode(fs[0]) + EncodeAll(fs[1..])
  }

  // ----- decoding undoes encoding

  lemma FourParts(a: seq<byte>, b: seq<byte>, c: seq<byte>, d: seq<byte>)
    requires |a| == 7 && |b| == |c| == |d| == 4
    ensures var h := a + b + c + d; h[0..7] == a && h[7..11] == b && h[11..15] == c && h[15..19] == d
  {
  }

  /** What a fixed part is read back as. */
  lemma GenFixed(f: Frame, data: seq<byte>)
    requires Typed(f)
    ensures KnownTag(Tag(f))
    ensures Gen(Tag(f), Fixed(f), data) ==
      match f
      case OpenStream(sid, prio, promises) => OpenStream(sid, prio, promises % KNOWN_PROMISES)
      case Data(mid, start, _) => Data(mid, start, data)
      case Raw(_) => Raw(data)
      case _ => f
    ensures PayloadLen(Tag(f), Fixed(f)) == |Payload(f)| % Pow256(2)
  {
    var h := Fixed(f);
    Widths();
    match f
    case Handshake(magic, version) =>
      FourParts(magic, ToLe(version[0], 4), ToLe(version[1], 4), ToLe(version[2], 4));
      FromToLe(version[0], 4);
      FromToLe(version[1], 4);
      FromToLe(version[2], 4);
      assert version == [version[0], version[1], version[2]];
    case Init(pid, secret) =>
      assert h[0..16] == ToLe(pid, 16) && h[16..32] == ToLe(secret, 16);
      FromToLe(pid, 16);
      FromToLe(secret, 16);
    case Shutdown =>
    case OpenStream(sid, _, _) =>
      assert h[0..8] == ToLe(sid, 8);
      FromToLe(sid, 8);
    case CloseStream(sid) =>
      assert h[0..8] == ToLe(sid, 8);
      FromToLe(sid, 8);
    case DataHeader(mid, sid, length) =>
      assert h[0..8] == ToLe(mid, 8) && h[8..16] == ToLe(sid, 8) && h[16..24] == ToLe(length, 8);
      FromToLe(mid, 8);
      FromToLe(sid, 8);
      FromToLe(length, 8);
    case Data(mid, start, payload) =>
      assert h[0..8] == ToLe(mid, 8) && h[8..16] == ToLe(start, 8);
      assert h[16..18] == ToLe(|payload| % Pow256(2), 2);
      FromToLe(mid, 8);
      FromToLe(start, 8);
      FromToLe(|payload| % Pow256(2), 2);
    case Raw(payload) =>
      assert h[0..2] == ToLe(|payload| % Pow256(2), 2);
      FromToLe(|payload| % Pow256(2), 2);
  }

  lemma Layout(f: Frame, rest: seq<byte>)
    requires Typed(f)
    ensures var s := Encode(f) + rest; var n := 1 + FixedLen(Tag(f));
      && |s| == n + |Payload(f)| + |rest|
      && s[0] == Tag(f) && s[1..n] == Fixed(f) && s[n..] == Payload(f) + rest
  {
    hide Fixed, Tag, Payload, FixedLen;
  }

  /** What an encoded frame is read back as: a payload is cut to the announced length. */
  lemma DecodeEncode(f: Frame, rest: seq<byte>)
    requires Typed(f)
    ensures var len := |Payload(f)| % Pow256(2);
      && len <= |Payload(f)|
      && KnownTag(Tag(f))
      && Decode(Encode(f) + rest) ==
         Decoded(Gen(Tag(f), Fixed(f), (Payload(f) + rest)[..len]), (Payload(f) + rest)[len..])
  {
    hide Gen, Fixed, Tag, Payload, FixedLen, PayloadLen, Encode, Pow256;
    Layout(f, rest);
    GenFixed(f, []);
    var s := Encode(f) + rest;
    var n := 1 + FixedLen(Tag(f));
    var len := |Payload(f)| % Pow256(2);
    assert len <= |Payload(f)|;
    assert s[n..n + len] == s[n..][..len] && s[n + len..] == s[n..][len..];
  }

  /** Whatever follows it, an encoded frame is read back as itself, leaving what
      follows, exactly if it is transmissible. */
  lemma RoundTrip(f: Frame, rest: seq<byte>)
    requires Typed(f)
    ensures Decode(Encode(f) + rest).Decoded?
    ensures Decode(Encode(f) + rest).frame == f <==> Transmissible(f)
    ensures Transmissible(f) ==> Decode(Encode(f) + rest).rest == rest
  {
    var len := |Payload(f)| % Pow256(2);
    DecodeEncode(f, rest);
    GenFixed(f, (Payload(f) + rest)[..len]);
    hide Gen, Fixed, Encode, Decode, Pow256;
    SmallModulo(|Payload(f)|, Pow256(2));
    if |Payload(f)| < Pow256(2) {
      assert len == |Payload(f)|;
      assert (Payload(f) + rest)[..len] == Payload(f) && (Payload(f) + rest)[len..] == rest;
    } else {
      assert len < |Payload(f)|;
    }
  }

  /** Decoding the bytes of any list of frames returns that list, exactly if all of
      them are transmissible. */
  lemma {:induction false} StreamRoundTrip(fs: seq<Frame>)
    requires forall i :: 0 <= i < |fs| ==> Typed(fs[i])
    ensures DecodeAll(EncodeAll(fs)) == Some(fs) <==> forall i :: 0 <= i < |fs| ==> Transmissible(fs[i])
  {
    hide Encode, Decode, Transmissible, Typed;
    if fs != [] {
      var rest := EncodeAll(fs[1..]);
      RoundTrip(fs[0], rest);
      StreamRoundTrip(fs[1..]);
      assert fs == [fs[0]] + fs[1..];
      if Transmissible(fs[0]) {
        assert forall i :: 1 <= i < |fs| ==> fs[i] == fs[1..][i - 1];
      }
    }
  }

  /** A frame cut short is never taken for a frame. */
  lemma CutShort(f: Frame, k: nat)
    requires Typed(f) && Transmissible(f) && k < |Encode(f)|
    ensures Decode(Encode(f)[..k]) == Incomplete
  {
    var s := Encode(f)[..k];
    var n := 1 + FixedLen(Tag(f));
    Layout(f, []);
    assert Encode(f) + [] == Encode(f);
    GenFixed(f, []);
    SmallModulo(|Payload(f)|, Pow256(2));
    hide Gen, Fixed, Encode, PayloadLen, Pow256;
    if k > 0 {
      assert s[0] == Tag(f);
    }
    if k >= n {
      assert s[1..n] == (Encode(f) + [])[1..n];
    }
  }

  /** The fixed part is rebuilt from what was read, unknown promise bits excepted. */
  lemma FixedGen(tag: byte, h: seq<byte>, data: seq<byte>)
    requires KnownTag(tag) && |h| == FixedLen(tag) && |data| == PayloadLen(tag, h)
    ensures Typed(Gen(tag, h, data)) && Transmissible(Gen(tag, h, data)) && Tag(Gen(tag, h, data)) == tag
    ensures Payload(Gen(tag, h, data)) == data
    ensures Fixed(Gen(tag, h, data)) == h <==> (tag == FRAME_OPEN_STREAM ==> h[9] < KNOWN_PROMISES)
  {
    Widths();
    hide ToLe, FromLe, Pow256;
    if tag == FRAME_HANDSHAKE {
      ToFromLe(h[7..11]);
      ToFromLe(h[11..15]);
      ToFromLe(h[15..19]);
      assert h == h[0..7] + h[7..11] + h[11..15] + h[15..19];
    } else if tag == FRAME_INIT {
      ToFromLe(h[0..16]);
      ToFromLe(h[16..32]);
    } else if tag == FRAME_OPEN_STREAM {
      ToFromLe(h[0..8]);
      assert h == h[0..8] + [h[8], h[9]];
    } else if tag == FRAME_CLOSE_STREAM {
      ToFromLe(h[0..8]);
    } else if tag == FRAME_DATA_HEADER {
      ToFromLe(h[0..8]);
      ToFromLe(h[8..16]);
      ToFromLe(h[16..24]);
      assert h == h[0..8] + h[8..16] + h[16..24];
    } else if tag == FRAME_DATA {
      ToFromLe(h[0..8]);
      ToFromLe(h[8..16]);
      ToFromLe(h[16..18]);
      assert h == h[0..8] + h[8..16] + h[16..18];
    } else if tag == FRAME_RAW {
      ToFromLe(h[0..2]);
    }
  }

  /** Everything read is well-formed, and encodes to the bytes it was read from
      exactly if they set no unknown promise bit: no two byte strings mean the same
      frame otherwise. */
  lemma Canonical(s: seq<byte>)
    requires Decode(s).Decoded?
    ensures var d := Decode(s);
      && Typed(d.frame) && Transmissible(d.frame)
      && (Encode(d.frame) + d.rest == s <==> (s[0] == FRAME_OPEN_STREAM ==> s[10] < KNOWN_PROMISES))
  {
    DecodedParts(s);
    hide *;
    var n := 1 + FixedLen(s[0]);
    var h := s[1..n];
    var data := s[n..n + PayloadLen(s[0], h)];
    FixedGen(s[0], h, data);
    Layout(Decode(s).frame, Decode(s).rest);
    Rebuild(Decode(s).frame, Decode(s).rest, s, h, data);
  }

  /** The parts a decoded frame was taken from. */
  lemma DecodedParts(s: seq<byte>)
    requires Decode(s).Decoded?
    ensures KnownTag(s[0]) && |s| >= 1 + FixedLen(s[0])
    ensures var n := 1 + FixedLen(s[0]); var h := s[1..n];
      && n + PayloadLen(s[0], h) <= |s|
      && var data := s[n..n + PayloadLen(s[0], h)];
      && Decode(s).frame == Gen(s[0], h, data)
      && s == [s[0]] + h + data + Decode(s).rest
    ensures s[0] == FRAME_OPEN_STREAM ==> |s| > 10 && s[1..1 + FixedLen(s[0])][9] == s[10]
  {
    hide Gen, PayloadLen;
  }

  lemma Rebuild(f: Frame, rest: seq<byte>, s: seq<byte>, h: seq<byte>, data: seq<byte>)
    requires Typed(f) && |h| == FixedLen(Tag(f)) && Payload(f) == data && s == [Tag(f)] + h + data + rest
    ensures Encode(f) + rest == s <==> Fixed(f) == h
  {
    Layout(f, rest);
    hide Fixed, Tag, Payload, FixedLen;
    if Encode(f) + rest == s {
      assert s[1..1 + |h|] == h;
    }
  }

  // ----- datagrams

  /** `UdpProtocol::read_from_wire` on one datagram. `None` is a panic: a datagram too
      short for its tag, or a payload of another length than announced. Bytes after
      a fixed part without payload are ignored. */
  function DecodeDatagram(bytes: seq<byte>): Option<Frame> {
    if bytes == [] then None
    else if !KnownTag(bytes[0]) then Some(Raw(bytes))
    else
      var n := 1 + FixedLen(bytes[0]);
      if |bytes| < n then None
      else if bytes[0] == FRAME_DATA || bytes[0] == FRAME_RAW then
        if |bytes| - n == PayloadLen(bytes[0], bytes[1..n]) then Some(Gen(bytes[0], bytes[1..n], bytes[n..])) else None
      else Some(Gen(bytes[0], bytes[1..n], []))
  }

  lemma DatagramRoundTrip(f: Frame)
    requires Typed(f)
    ensures DecodeDatagram(Encode(f)) == Some(f) <==> Transmissible(f)
  {
    var n := 1 + FixedLen(Tag(f));
    Layout(f, []);
    assert Encode(f) + [] == Encode(f) && Payload(f) + [] == Payload(f);
    GenFixed(f, Payload(f));
    SmallModulo(|Payload(f)|, Pow256(2));
    hide Gen, Fixed, Encode, PayloadLen, Pow256;
  }

  method CopyInto(buffer: array<byte>, at: nat, bytes: seq<byte>)
    requires at + |bytes| <= buffer.Length
    modifies buffer
    ensures buffer[..at + |bytes|] == old(buffer[..at]) + bytes
  {
    for i := 0 to |bytes|
      invariant buffer[..at + i] == old(buffer[..at]) + bytes[..i]
    {
      buffer[at + i] := bytes[i];
    }
  }

  /** The tag and the fixed part, field by field at its offset. */
  method WriteFixed(buffer: array<byte>, f: Frame) returns (n: nat)
    requires buffer.Length == UDP_BUFFER_SIZE && Typed(f)
    modifies buffer
    ensures n == 1 + FixedLen(Tag(f)) && buffer[..n] == [Tag(f)] + Fixed(f)
  {
    hide ToLe, Pow256;
    buffer[0] := Tag(f);
    assert buffer[..1] == [Tag(f)];
    match f
    case Handshake(magic, version) =>
      CopyInto(buffer, 1, magic);
      CopyInto(buffer, 8, ToLe(version[0], 4));
      CopyInto(buffer, 12, ToLe(version[1], 4));
      CopyInto(buffer, 16, ToLe(version[2], 4));
      return 20;
    case Init(pid, secret) =>
      CopyInto(buffer, 1, ToLe(pid, 16));
      CopyInto(buffer, 17, ToLe(secret, 16));
      return 33;
    case Shutdown =>
      return 1;
    case OpenStream(sid, prio, promises) =>
      CopyInto(buffer, 1, ToLe(sid, 8));
      CopyInto(buffer, 9, [prio as byte]);
      CopyInto(buffer, 10, [promises]);
      return 11;
    case CloseStream(sid) =>
      CopyInto(buffer, 1, ToLe(sid, 8));
      return 9;
    case DataHeader(mid, sid, length) =>
      CopyInto(buffer, 1, ToLe(mid, 8));
      CopyInto(buffer, 9, ToLe(sid, 8));
      CopyInto(buffer, 17, ToLe(length, 8));
      return 25;
    case Data(mid, start, data) =>
      CopyInto(buffer, 1, ToLe(mid, 8));
      CopyInto(buffer, 9, ToLe(start, 8));
      CopyInto(buffer, 17, ToLe(|data| % Pow256(2), 2));
      return 19;
    case Raw(data) =>
      CopyInto(buffer, 1, ToLe(|data| % Pow256(2), 2));
      return 3;
  }

  /** `UdpProtocol::write_to_wire` on one frame: the length it takes in the reused
      send buffer, or `None` where the copy of the payload is out of bounds and panics. */
  method WriteDatagram(buffer: array<byte>, f: Frame) returns (len: Option<nat>)
    requires buffer.Length == UDP_BUFFER_SIZE && Typed(f)
    modifies buffer
    ensures len.Some? <==> |Encode(f)| <= 2000
    ensures len.Some? ==> len.value == |Encode(f)| && buffer[..len.value] == Encode(f)
  {
    hide Fixed, Tag, FixedLen;
    var n := WriteFixed(buffer, f);
    var data := Payload(f);
    if n + |data| > buffer.Length {
      return None;
    }
    CopyInto(buffer, n, data);
    return Some(n + |data|);
  }

  // ----- streams

  /** The sending half of a TCP connection: the bytes handed to the socket. */
  class TcpWriter {
    var out: seq<byte>

    method WriteAll(bytes: seq<byte>)
      modifies this
      ensures out == old(out) + bytes
    {
      out := out + bytes;
    }

    /** The tag and the fixed part, field by field. */
    method WriteHead(f: Frame)
      requires Typed(f)
      modifies this
      ensures out == old(out) + ([Tag(f)] + Fixed(f))
    {
      hide ToLe, Pow256;
      WriteAll([Tag(f)]);
      match f
      case Handshake(magic, version) =>
        WriteAll(magic);
        WriteAll(ToLe(version[0], 4));
        WriteAll(ToLe(version[1], 4));
        WriteAll(ToLe(version[2], 4));
      case Init(pid, secret) =>
        WriteAll(ToLe(pid, 16));
        WriteAll(ToLe(secret, 16));
      case Shutdown =>
      case OpenStream(sid, prio, promises) =>
        WriteAll(ToLe(sid, 8));
        WriteAll([prio as byte]);
        WriteAll([promises]);
      case CloseStream(sid) =>
        WriteAll(ToLe(sid, 8));
      case DataHeader(mid, sid, length) =>
        WriteAll(ToLe(mid, 8));
        WriteAll(ToLe(sid, 8));
        WriteAll(ToLe(length, 8));
      case Data(mid, start, data) =>
        WriteAll(ToLe(mid, 8));
        WriteAll(ToLe(start, 8));
        WriteAll(ToLe(|data| % Pow256(2), 2));
      case Raw(data) =>
        WriteAll(ToLe(|data| % Pow256(2), 2));
    }

    method WriteFrame(f: Frame)
      requires Typed(f)
      modifies this
      ensures out == old(out) + Encode(f)
    {
      hide Fixed, Tag;
      WriteHead(f);
      if f.Data? || f.Raw? {
        WriteAll(f.data);
      }
    }
  }

  /** The receiving half: what is still to arrive before the connection ends. */
  class TcpReader {
    var input: seq<byte>

    /** `read_exact` into a fresh buffer; `ok` is false if the connection ends first. */
    method ReadExact(n: nat) returns (buffer: array<byte>, ok: bool)
      modifies this
      ensures fresh(buffer) && buffer.Length == n
      ensures ok == (n <= |old(input)|)
      ensures ok ==> buffer[..] == old(input)[..n] && input == old(input)[n..]
    {
      buffer := new byte[n](_ => 0);
      ok := n <= |input|;
      if ok {
        CopyInto(buffer, 0, input[..n]);
        input := input[n..];
      }
    }

    /** `read`: some of what is there, at most `n` bytes, none only if the connection ended. */
    method ReadSome(n: nat) returns (data: seq<byte>)
      modifies this
      ensures |data| <= n && data + input == old(input)
      ensures data == [] ==> n == 0 || old(input) == []
    {
      if n == 0 || input == [] {
        return [];
      }
      var k :| 0 < k <= n && k <= |input|;
      data := input[..k];
      input := input[k..];
    }

    /** `read_frame`: none if the connection ends in a frame. After an unknown tag it
        hands on what it guesses to be a raw message of at most 32 bytes, tag included. */
    method ReadFrame() returns (r: Option<Frame>)
      modifies this
      ensures r.None? <==> Decode(old(input)).Incomplete?
      ensures Decode(old(input)).Decoded? ==>
        r == Some(Decode(old(input)).frame) && input == Decode(old(input)).rest
      ensures Decode(old(input)).UnknownTag? ==>
        r.Some? && r.value.Raw? && 1 <= |r.value.data| <= 32 && r.value.data + input == old(input)
        && (|r.value.data| == 1 ==> input == [])
    {
      ghost var s := input;
      var tag, ok := ReadExact(1);
      if !ok {
        return None;
      }
      if !KnownTag(tag[0]) {
        var data := ReadSome(31);
        return Some(Raw([tag[0]] + data));
      }
      var n := FixedLen(tag[0]);
      var h, more := ReadExact(n);
      if !more {
        return None;
      }
      assert h[..] == s[1..1 + n];
      var len := PayloadLen(tag[0], h[..]);
      var data, all := ReadExact(len);
      if !all {
        return None;
      }
      assert data[..] == s[1 + n..1 + n + len];
      return Some(Gen(tag[0], h[..], data[..]));
    }
  }

  // ----- what the scheduler sends

  /** Every frame cut from a message is transmissible on both transports. */
  lemma NextFramesFit(m: OutgoingMessage, tag: nat)
    requires m.Valid() && m.mid < Pow256(8) && m.sid < Pow256(8) && |m.buffer| < Pow256(8)
    ensures forall i :: 0 <= i < |m.NextFrames(tag)| ==>
      var f := m.NextFrames(tag)[i].1;
      Typed(f) && Transmissible(f) && |Encode(f)| <= 19 + FRAME_DATA_SIZE <= UDP_BUFFER_SIZE
  {
    Widths();
    forall i | 0 <= i < |m.NextFrames(tag)|
      ensures var f := m.NextFrames(tag)[i].1;
        Typed(f) && Transmissible(f) && |Encode(f)| <= 19 + FRAME_DATA_SIZE <= UDP_BUFFER_SIZE
    {
      var f := m.NextFrames(tag)[i].1;
      assert f.DataHeader? || (f.Data? && |f.data| <= FRAME_DATA_SIZE);
    }
  }
}
