/** Where every field of an encoded frame is, byte by byte. */
module Layouts {
  import opened Frames
  import opened Bytes
  import opened Wire

  /** The number in the bytes `bs`, least significant byte first. */
  function Number(bs: seq<byte>): nat {
    if bs == [] then 0
    else Number(bs[..|bs| - 1]) + bs[|bs| - 1] as nat * Pow256(|bs| - 1)
  }

  lemma {:induction false} NumberFirst(bs: seq<byte>)
    requires bs != []
    ensures Number(bs) == bs[0] as nat + 256 * Number(bs[1..])
  {
    var n := |bs| - 1;
    if n > 0 {
      NumberFirst(bs[..n]);
      assert bs[..n][1..] == bs[1..][..n - 1] && bs[1..][n - 1] == bs[n];
      assert Pow256(n) == 256 * Pow256(n - 1);
      var last := bs[n] as nat;
      assert last * Pow256(n) == 256 * (last * Pow256(n - 1));
    } else {
      assert bs[..0] == [] && bs[1..] == [];
    }
  }

  /** That is how numbers are read. */
  lemma {:induction false} NumberIsFromLe(bs: seq<byte>)
    ensures FromLe(bs) == Number(bs)
  {
    if bs != [] {
      NumberFirst(bs);
      NumberIsFromLe(bs[1..]);
    }
  }

  /** The bytes of the frame. */
  predicate Has(s: seq<byte>, f: Frame) {
    match f
    case Handshake(magic, version) =>
      && |s| == 20 && |version| == 3 && s[0] == 1 && s[1..8] == magic
      && Number(s[8..12]) == version[0] && Number(s[12..16]) == version[1] && Number(s[16..20]) == version[2]
    case Init(pid, secret) => |s| == 33 && s[0] == 2 && Number(s[1..17]) == pid && Number(s[17..33]) == secret
    case Shutdown => s == [3]
    case OpenStream(sid, prio, promises) =>
      |s| == 11 && s[0] == 4 && Number(s[1..9]) == sid && s[9] as nat == prio && s[10] == promises
    case CloseStream(sid) => |s| == 9 && s[0] == 5 && Number(s[1..9]) == sid
    case DataHeader(mid, sid, length) =>
      |s| == 25 && s[0] == 6 && Number(s[1..9]) == mid && Number(s[9..17]) == sid && Number(s[17..25]) == length
    case Data(mid, start, data) =>
      && |s| == 19 + |data| && s[0] == 7 && Number(s[1..9]) == mid && Number(s[9..17]) == start
      && Number(s[17..19]) == |data| % 0x1_0000 && s[19..] == data
    case Raw(data) => |s| == 3 + |data| && s[0] == 8 && Number(s[1..3]) == |data| % 0x1_0000 && s[3..] == data
  }

  lemma SliceOfSlice(s: seq<byte>, n: nat, i: nat, j: nat)
    requires i <= j <= n && 1 + n <= |s|
    ensures s[1..1 + n][i..j] == s[1 + i..1 + j]
  {
    var a, b := s[1..1 + n][i..j], s[1 + i..1 + j];
    assert |a| == |b| && forall k :: 0 <= k < |a| ==> a[k] == b[k];
  }

  lemma NumberAt(s: seq<byte>, h: seq<byte>, i: nat, j: nat, v: nat, n: nat)
    requires i <= j <= |h| && 1 + |h| <= |s| && s[1..1 + |h|] == h && h[i..j] == ToLe(v, n) && v < Pow256(n)
    ensures Number(s[1 + i..1 + j]) == v
  {
    hide *;
    SliceOfSlice(s, |h|, i, j);
    FromToLe(v, n);
    NumberIsFromLe(h[i..j]);
  }

  /** The tag, the fixed part and the payload, one after the other. */
  lemma Parts(f: Frame)
    requires Typed(f)
    ensures var s, h := Encode(f), Fixed(f);
      && |s| == 1 + |h| + |Payload(f)| && s[0] == Tag(f) && s[1..1 + |h|] == h && s[1 + |h|..] == Payload(f)
  {
    hide Fixed, Tag, Payload, FixedLen;
    Layout(f, []);
    assert Encode(f) + [] == Encode(f) && Payload(f) + [] == Payload(f);
  }

  lemma HandshakeHas(f: Frame)
    requires Typed(f) && f.Handshake?
    ensures Has(Encode(f), f)
  {
    var s, h := Encode(f), Fixed(f);
    Parts(f);
    FourParts(f.magic, ToLe(f.version[0], 4), ToLe(f.version[1], 4), ToLe(f.version[2], 4));
    hide Number, ToLe, Pow256, Encode;
    SliceOfSlice(s, 19, 0, 7);
    NumberAt(s, h, 7, 11, f.version[0], 4);
    NumberAt(s, h, 11, 15, f.version[1], 4);
    NumberAt(s, h, 15, 19, f.version[2], 4);
  }

  lemma InitHas(f: Frame)
    requires Typed(f) && f.Init?
    ensures Has(Encode(f), f)
  {
    hide Number, ToLe, Pow256, Encode;
    var s, h := Encode(f), Fixed(f);
    Parts(f);
    assert h[0..16] == ToLe(f.pid, 16) && h[16..32] == ToLe(f.secret, 16);
    NumberAt(s, h, 0, 16, f.pid, 16);
    NumberAt(s, h, 16, 32, f.secret, 16);
  }

  lemma StreamHas(f: Frame)
    requires Typed(f) && (f.OpenStream? || f.CloseStream? || f.Shutdown?)
    ensures Has(Encode(f), f)
  {
    hide Number, ToLe, Pow256, Encode;
    var s, h := Encode(f), Fixed(f);
    Parts(f);
    if !f.Shutdown? {
      assert h[0..8] == ToLe(f.sid, 8);
      NumberAt(s, h, 0, 8, f.sid, 8);
    }
    if f.OpenStream? {
      assert h[8] == f.prio as byte && h[9] == f.promises;
      assert s[9] == s[1..11][8] && s[10] == s[1..11][9];
    }
  }

  lemma HeaderHas(f: Frame)
    requires Typed(f) && f.DataHeader?
    ensures Has(Encode(f), f)
  {
    hide Number, ToLe, Pow256, Encode;
    var s, h := Encode(f), Fixed(f);
    Parts(f);
    assert h[0..8] == ToLe(f.mid, 8) && h[8..16] == ToLe(f.sid, 8) && h[16..24] == ToLe(f.length, 8);
    NumberAt(s, h, 0, 8, f.mid, 8);
    NumberAt(s, h, 8, 16, f.sid, 8);
    NumberAt(s, h, 16, 24, f.length, 8);
  }

  lemma DataHas(f: Frame)
    requires Typed(f) && (f.Data? || f.Raw?)
    ensures Has(Encode(f), f)
  {
    hide Number, ToLe, Pow256, Encode;
    var s, h := Encode(f), Fixed(f);
    Parts(f);
    Widths();
    if f.Data? {
      assert h[0..8] == ToLe(f.mid, 8) && h[8..16] == ToLe(f.start, 8);
      assert h[16..18] == ToLe(|f.data| % Pow256(2), 2);
      NumberAt(s, h, 0, 8, f.mid, 8);
      NumberAt(s, h, 8, 16, f.start, 8);
      NumberAt(s, h, 16, 18, |f.data| % Pow256(2), 2);
    } else {
      assert h[0..2] == ToLe(|f.data| % Pow256(2), 2);
      NumberAt(s, h, 0, 2, |f.data| % Pow256(2), 2);
    }
  }

  /** What survives the way: payloads below 2^16 bytes, and the five promises there are. */
  lemma TransmissibleIs(f: Frame)
    ensures Transmissible(f) <==>
      match f
      case OpenStream(_, _, promises) => promises < 32
      case Data(_, _, data) => |data| < 0x1_0000
      case Raw(data) => |data| < 0x1_0000
      case _ => true
  {
    Widths();
  }

  /** An encoded frame is its tag, its fields in this order, and its payload. */
  lemma EncodedHas(f: Frame)
    requires Typed(f)
    ensures Has(Encode(f), f)
  {
    hide Has, Encode, Typed;
    match f
    case Handshake(_, _) => HandshakeHas(f);
    case Init(_, _) => InitHas(f);
    case DataHeader(_, _, _) => HeaderHas(f);
    case Data(_, _, _) => DataHas(f);
    case Raw(_) => DataHas(f);
    case _ => StreamHas(f);
  }
}
