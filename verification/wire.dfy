/** Bytes, big-endian integers and frames: the wire format of the dokan data plane. */
module Wire {

  type byte = x: int | 0 <= x < 0x100
  type u16 = x: int | 0 <= x < 0x1_0000
  type u32 = x: int | 0 <= x < 0x1_0000_0000
  type u64 = x: int | 0 <= x < 0x1_0000_0000_0000_0000

  const MAX_FRAME_PAYLOAD: nat := 4096
  const HEADER_LEN: nat := 5

  const FRAME_OPEN: byte := 0x01
  const FRAME_DATA: byte := 0x02
  const FRAME_EOF: byte := 0x03
  const FRAME_RESET: byte := 0x04
  const FRAME_WINDOW: byte := 0x05
  const FRAME_GOAWAY: byte := 0x06

  // ---- big-endian integers ------------------------------------------------

  function Wr16(v: u16): (bs: seq<byte>)
    ensures |bs| == 2
  {
    [v / 0x100, v % 0x100]
  }

  function Rd16(bs: seq<byte>): u16
    requires |bs| == 2
  {
    (bs[0] as int) * 0x100 + bs[1]
  }

  function Wr32(v: u32): (bs: seq<byte>)
    ensures |bs| == 4
  {
    [v / 0x100_0000, v / 0x1_0000 % 0x100, v / 0x100 % 0x100, v % 0x100]
  }

  function Rd32(bs: seq<byte>): u32
    requires |bs| == 4
  {
    (bs[0] as int) * 0x100_0000 + (bs[1] as int) * 0x1_0000 + (bs[2] as int) * 0x100 + bs[3]
  }

  function Wr64(v: u64): (bs: seq<byte>)
    ensures |bs| == 8
  {
    Wr32(v / 0x1_0000_0000) + Wr32(v % 0x1_0000_0000)
  }

  function Rd64(bs: seq<byte>): u64
    requires |bs| == 8
  {
    (Rd32(bs[..4]) as int) * 0x1_0000_0000 + Rd32(bs[4..])
  }

  lemma Rd32Wr32(v: u32)
    ensures Rd32(Wr32(v)) == v
  {
    assert v / 0x100 == (v / 0x1_0000) * 0x100 + v / 0x100 % 0x100;
    assert v / 0x1_0000 == (v / 0x100_0000) * 0x100 + v / 0x1_0000 % 0x100;
  }

  lemma Rd64Wr64(v: u64)
    ensures Rd64(Wr64(v)) == v
  {
    var hi: u32, lo: u32 := v / 0x1_0000_0000, v % 0x1_0000_0000;
    Rd32Wr32(hi);
    Rd32Wr32(lo);
    assert Wr64(v)[..4] == Wr32(hi) && Wr64(v)[4..] == Wr32(lo);
  }

  lemma SliceOfSlice(bs: seq<byte>, a: nat, b: nat, c: nat, d: nat)
    requires a <= b <= |bs| && c <= d <= b - a
    ensures bs[a..b][c..d] == bs[a + c..a + d]
  {
    var x, y := bs[a..b][c..d], bs[a + c..a + d];
    assert |x| == |y|;
    forall i | 0 <= i < d - c ensures x[i] == y[i] {
      assert x[i] == bs[a..b][c + i] == bs[a + (c + i)];
    }
  }

  // ---- frames -------------------------------------------------------------

  datatype Frame = Frame(kind: byte, sid: u16, payload: seq<byte>)

  /** What `enqueue` can put on the wire: its payload length is a uint16. */
  predicate Encodable(f: Frame) {
    |f.payload| < 0x1_0000
  }

  /** What the receiving side accepts as a frame at all. */
  predicate Sized(f: Frame) {
    |f.payload| <= MAX_FRAME_PAYLOAD
  }

  function Encode(f: Frame): (bs: seq<byte>)
    requires Encodable(f)
    ensures |bs| == HEADER_LEN + |f.payload|
  {
    [f.kind] + Wr16(f.sid) + Wr16(|f.payload|) + f.payload
  }

  function EncodeAll(fs: seq<Frame>): seq<byte>
    requires forall f <- fs :: Encodable(f)
  {
    if fs == [] then [] else Encode(fs[0]) + EncodeAll(fs[1..])
  }

  lemma {:induction false} EncodeAllAppend(fs: seq<Frame>, gs: seq<Frame>)
    requires forall f <- fs + gs :: Encodable(f)
    ensures forall f <- fs :: Encodable(f)
    ensures forall g <- gs :: Encodable(g)
    ensures EncodeAll(fs + gs) == EncodeAll(fs) + EncodeAll(gs)
  {
    forall f | f in fs ensures Encodable(f) { assert f in fs + gs; }
    forall g | g in gs ensures Encodable(g) { assert g in fs + gs; }
    if fs == [] {
      assert fs + gs == gs;
    } else {
      assert (fs + gs)[1..] == fs[1..] + gs;
      EncodeAllAppend(fs[1..], gs);
    }
  }

  // ---- parsing ------------------------------------------------------------

  function HeaderKind(bs: seq<byte>): byte
    requires |bs| >= HEADER_LEN
  {
    bs[0]
  }

  function HeaderSid(bs: seq<byte>): u16
    requires |bs| >= HEADER_LEN
  {
    Rd16(bs[1..3])
  }

  function HeaderLen(bs: seq<byte>): u16
    requires |bs| >= HEADER_LEN
  {
    Rd16(bs[3..5])
  }

  /** The first frame of `bs`, when `bs` holds all of it. */
  function FirstFrame(bs: seq<byte>): (f: Frame)
    requires |bs| >= HEADER_LEN && |bs| >= HEADER_LEN + HeaderLen(bs)
    ensures Encodable(f) && |f.payload| == HeaderLen(bs)
  {
    Frame(HeaderKind(bs), HeaderSid(bs), bs[HEADER_LEN..HEADER_LEN + HeaderLen(bs)])
  }

  /** A header and payload written by `Encode` are read back, whatever follows them. */
  lemma FirstFrameOfEncode(f: Frame, rest: seq<byte>)
    requires Encodable(f)
    ensures var bs := Encode(f) + rest;
      HeaderLen(bs) == |f.payload| && FirstFrame(bs) == f && bs[HEADER_LEN + HeaderLen(bs)..] == rest
  {
    var bs := Encode(f) + rest;
    assert bs[1..3] == Wr16(f.sid);
    assert bs[3..5] == Wr16(|f.payload|);
    assert bs[5..5 + |f.payload|] == f.payload;
  }

  /** A strict prefix of an encoded frame either has no whole header, or announces more payload than it holds. */
  lemma PrefixIsIncomplete(f: Frame, rest: seq<byte>, n: nat)
    requires Encodable(f) && n < |Encode(f)|
    ensures var p := (Encode(f) + rest)[..n];
      n >= HEADER_LEN ==> HeaderLen(p) == |f.payload| && n < HEADER_LEN + HeaderLen(p)
  {
    var bs := Encode(f) + rest;
    if n >= HEADER_LEN {
      FirstFrameOfEncode(f, rest);
      SliceOfSlice(bs, 0, n, 3, 5);
    }
  }
}
