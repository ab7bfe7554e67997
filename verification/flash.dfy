/**
 The partition of a card store as an image of bytes: header slots in the first sector, blobs behind it. What a reader
 adopts, what a device operation does when it completes and what it may leave when the power fails half-way.
 */
module Flash {
  import opened Options
  import opened Wire

  const SECTOR: nat := 4096
  const PART_SIZE: nat := 0x20_0000
  const DATA_BASE: nat := 4096
  const SLOT_STRIDE: nat := 128
  const SLOT_COUNT: nat := 32
  const BLOB_COUNT: nat := 3
  const BLOB_PDF: nat := 0
  const BLOB_DISPLAY: nat := 1
  const MAGIC: u32 := 0x4D4B434E
  const ERASED_MAGIC: u32 := 0xFFFF_FFFF
  const VERSION: u16 := 1
  const ERASED: byte := 0xFF
  const BLOB_LEN: nat := 24
  const HEADER_SIZE: nat := 84

  type Image = seq<byte>
  type Crc = seq<byte> -> u32

  datatype Blob = Blob(offset: u32, length: u32, crc: u32, w: u16, h: u16, stride: u32, levels: byte, format: byte)

  const NoBlob := Blob(0, 0, 0, 0, 0, 0, 0, 0)

  /** The blob index of a header; the rest of a header is constant or computed. */
  type Index = bs: seq<Blob> | |bs| == BLOB_COUNT witness [NoBlob, NoBlob, NoBlob]

  function AlignUp(x: nat, a: nat): nat
    requires a > 0
  {
    (x + a - 1) / a * a
  }

  // ---- header encoding (little-endian) ----------------------------------------

  function Le16(v: u16): (bs: seq<byte>)
    ensures |bs| == 2
  {
    [v % 0x100, v / 0x100]
  }

  function UnLe16(bs: seq<byte>): u16
    requires |bs| == 2
  {
    bs[0] as int + (bs[1] as int) * 0x100
  }

  function Le32(v: u32): (bs: seq<byte>)
    ensures |bs| == 4
  {
    Le16(v % 0x1_0000) + Le16(v / 0x1_0000)
  }

  function UnLe32(bs: seq<byte>): u32
    requires |bs| == 4
  {
    UnLe16(bs[..2]) as int + (UnLe16(bs[2..]) as int) * 0x1_0000
  }

  lemma UnLe32Le32(v: u32)
    ensures UnLe32(Le32(v)) == v
  {
    assert Le32(v)[..2] == Le16(v % 0x1_0000) && Le32(v)[2..] == Le16(v / 0x1_0000);
  }

  function EncodeBlob(b: Blob): (bs: seq<byte>)
    ensures |bs| == BLOB_LEN
  {
    Le32(b.offset) + Le32(b.length) + Le32(b.crc) + Le16(b.w) + Le16(b.h) + Le32(b.stride) + [b.levels, b.format, 0, 0]
  }

  function DecodeBlob(bs: seq<byte>): Blob
    requires |bs| == BLOB_LEN
  {
    Blob(UnLe32(bs[..4]), UnLe32(bs[4..8]), UnLe32(bs[8..12]), UnLe16(bs[12..14]), UnLe16(bs[14..16]),
         UnLe32(bs[16..20]), bs[20], bs[21])
  }

  lemma DecodeEncodeBlob(b: Blob)
    ensures DecodeBlob(EncodeBlob(b)) == b
  {
    var bs := EncodeBlob(b);
    assert bs[..4] == Le32(b.offset) && bs[4..8] == Le32(b.length) && bs[8..12] == Le32(b.crc);
    assert bs[12..14] == Le16(b.w) && bs[14..16] == Le16(b.h) && bs[16..20] == Le32(b.stride);
    UnLe32Le32(b.offset);
    UnLe32Le32(b.length);
    UnLe32Le32(b.crc);
    UnLe32Le32(b.stride);
  }

  function EncodeIndex(x: Index): (bs: seq<byte>)
    ensures |bs| == BLOB_COUNT * BLOB_LEN
  {
    EncodeBlob(x[0]) + EncodeBlob(x[1]) + EncodeBlob(x[2])
  }

  function EncodeHeader(crc: Crc, x: Index): (bs: seq<byte>)
    ensures |bs| == HEADER_SIZE
  {
    Le32(MAGIC) + Le16(VERSION) + Le16(BLOB_COUNT) + Le32(crc(EncodeIndex(x))) + EncodeIndex(x)
  }

  function MagicOf(bs: seq<byte>): u32
    requires |bs| == HEADER_SIZE
  {
    UnLe32(bs[..4])
  }

  /** header_valid. */
  predicate ValidHeader(crc: Crc, bs: seq<byte>)
    requires |bs| == HEADER_SIZE
  {
    && MagicOf(bs) == MAGIC
    && UnLe16(bs[4..6]) == VERSION
    && UnLe16(bs[6..8]) == BLOB_COUNT
    && UnLe32(bs[8..12]) == crc(bs[12..])
  }

  function IndexOf(bs: seq<byte>): Index
    requires |bs| == HEADER_SIZE
  {
    [DecodeBlob(bs[12..36]), DecodeBlob(bs[36..60]), DecodeBlob(bs[60..84])]
  }

  /** A header that was written in full is valid and read back as it was. */
  lemma HeaderRoundTrip(crc: Crc, x: Index)
    ensures var bs := EncodeHeader(crc, x);
      ValidHeader(crc, bs) && IndexOf(bs) == x
  {
    var bs := EncodeHeader(crc, x);
    assert bs[..4] == Le32(MAGIC) && bs[4..6] == Le16(VERSION) && bs[6..8] == Le16(BLOB_COUNT);
    assert bs[8..12] == Le32(crc(EncodeIndex(x))) && bs[12..] == EncodeIndex(x);
    UnLe32Le32(MAGIC);
    UnLe32Le32(crc(EncodeIndex(x)));
    assert bs[12..36] == EncodeBlob(x[0]) && bs[36..60] == EncodeBlob(x[1]) && bs[60..84] == EncodeBlob(x[2]);
    DecodeEncodeBlob(x[0]);
    DecodeEncodeBlob(x[1]);
    DecodeEncodeBlob(x[2]);
  }

  /** What makes a header valid, byte by byte: "NCKM", version 1, three blobs, and the CRC of the index, least significant byte first. */
  lemma ValidExactly(crc: Crc, bs: seq<byte>)
    requires |bs| == HEADER_SIZE
    ensures ValidHeader(crc, bs) <==>
      && bs[0] == 0x4e && bs[1] == 0x43 && bs[2] == 0x4b && bs[3] == 0x4d
      && bs[4] == 1 && bs[5] == 0 && bs[6] == 3 && bs[7] == 0
      && (bs[8] as int) + (bs[9] as int) * 0x100 + (bs[10] as int) * 0x1_0000 + (bs[11] as int) * 0x100_0000 == crc(bs[12..])
  {
    FourBytes(bs[..4]);
    FourBytes(bs[8..12]);
  }

  lemma FourBytes(b: seq<byte>)
    requires |b| == 4
    ensures UnLe32(b) == (b[0] as int) + (b[1] as int) * 0x100 + (b[2] as int) * 0x1_0000 + (b[3] as int) * 0x100_0000
  {
  }

  /** Where a blob's fields are in its entry of the index. */
  lemma BlobLayout(b: Blob)
    ensures var e := EncodeBlob(b);
      && e[0..4] == Le32(b.offset) && e[4..8] == Le32(b.length) && e[8..12] == Le32(b.crc) && e[12..14] == Le16(b.w)
      && e[14..16] == Le16(b.h) && e[16..20] == Le32(b.stride) && e[20..] == [b.levels, b.format, 0, 0]
  {
  }

  // ---- slots --------------------------------------------------------------

  /** Slots are 128 bytes apart. */
  function SlotOff(s: nat): nat {
    s * 128
  }

  predicate Sound(img: Image) {
    |img| == PART_SIZE
  }

  function Slot(img: Image, s: nat): (bs: seq<byte>)
    requires Sound(img) && s < SLOT_COUNT
    ensures |bs| == HEADER_SIZE
  {
    img[SlotOff(s)..SlotOff(s) + HEADER_SIZE]
  }

  predicate SlotErased(img: Image, s: nat)
    requires Sound(img) && s < SLOT_COUNT
  {
    MagicOf(Slot(img, s)) == ERASED_MAGIC
  }

  predicate SlotValid(crc: Crc, img: Image, s: nat)
    requires Sound(img) && s < SLOT_COUNT
  {
    ValidHeader(crc, Slot(img, s))
  }

  /** What mounting adopts, looking at the slots from `s` on with `best` found so far: the last valid one before an erased one. */
  function AdoptFrom(crc: Crc, img: Image, s: nat, best: Option<nat>): (r: Option<nat>)
    requires Sound(img) && s <= SLOT_COUNT
    requires best.Some? ==> best.value < SLOT_COUNT && SlotValid(crc, img, best.value)
    ensures r.Some? ==> r.value < SLOT_COUNT && SlotValid(crc, img, r.value)
    decreases SLOT_COUNT - s
  {
    if s == SLOT_COUNT || SlotErased(img, s) then best
    else AdoptFrom(crc, img, s + 1, if SlotValid(crc, img, s) then Some(s) else best)
  }

  function Adopted(crc: Crc, img: Image): (r: Option<nat>)
    requires Sound(img)
    ensures r.Some? ==> r.value < SLOT_COUNT && SlotValid(crc, img, r.value)
  {
    AdoptFrom(crc, img, 0, None)
  }

  // ---- device operations ----------------------------------------------------

  datatype Op = Erase(off: nat, len: nat) | Program(off: nat, data: seq<byte>)

  /** The bytes an operation touches; an erase takes whole sectors. */
  function OpEnd(op: Op): nat {
    match op
    case Erase(off, len) => off + AlignUp(len, SECTOR)
    case Program(off, data) => off + |data|
  }

  /** What the device can do: erase at a sector boundary, program bytes that are erased. */
  predicate OpOk(img: Image, op: Op) {
    && Sound(img) && OpEnd(op) <= PART_SIZE
    && match op
       case Erase(off, _) => off % SECTOR == 0
       case Program(off, data) => forall i :: off <= i < off + |data| ==> img[i] == ERASED
  }

  function Done(img: Image, op: Op): (r: Image)
    requires OpOk(img, op)
    ensures Sound(r)
  {
    match op
    case Erase(off, _) => img[..off] + seq(OpEnd(op) - off, _ => ERASED) + img[OpEnd(op)..]
    case Program(off, data) => img[..off] + data + img[OpEnd(op)..]
  }

  /**
   What may be found when the power failed during `op`: anything in the bytes it touches, and nothing else changed.
   Assumed of the header checksum: a slot caught half-way does not look valid, only one still as it was or already done.
   */
  ghost predicate Torn(crc: Crc, img: Image, op: Op, img': Image)
    requires OpOk(img, op)
  {
    && Sound(img')
    && (forall i :: 0 <= i < PART_SIZE && !(op.off <= i < OpEnd(op)) ==> img'[i] == img[i])
    && (forall s :: 0 <= s < SLOT_COUNT && SlotValid(crc, img', s) ==>
          Slot(img', s) == Slot(img, s) || Slot(img', s) == Slot(Done(img, op), s))
  }

  lemma DoneIsTorn(crc: Crc, img: Image, op: Op)
    requires OpOk(img, op)
    ensures Torn(crc, img, op, Done(img, op))
  {
  }

  lemma NothingDoneIsTorn(crc: Crc, img: Image, op: Op)
    requires OpOk(img, op)
    ensures Torn(crc, img, op, img)
  {
  }

  // ---- crash safety ---------------------------------------------------------

  /** What a slot stands for: the path it was written for, and the bytes of its blobs. */
  datatype Entry = Entry(tag: string, blobs: seq<seq<byte>>)

  ghost predicate BlobOk(img: Image, b: Blob, bytes: seq<byte>) {
    && Sound(img)
    && b.length == |bytes|
    && (b.length > 0 ==> DATA_BASE <= b.offset && b.offset + b.length <= PART_SIZE
                         && img[b.offset..b.offset + b.length] == bytes)
  }

  lemma RangeOfBlob(img: Image, b: Blob, bytes: seq<byte>, offset: nat, n: nat)
    requires BlobOk(img, b, bytes) && offset + n <= b.length
    ensures b.length > 0 ==>
      b.offset + b.length <= |img| && img[b.offset + offset..b.offset + offset + n] == bytes[offset..offset + n]
  {
    if b.length > 0 {
      SliceOfSlice(img, b.offset, b.offset + b.length, offset, offset + n);
    }
  }

  /** Every blob of the index is, byte for byte, what was written for it. */
  ghost predicate IndexOk(img: Image, x: Index, e: Entry) {
    |e.blobs| == BLOB_COUNT && forall id :: 0 <= id < BLOB_COUNT ==> BlobOk(img, x[id], e.blobs[id])
  }

  ghost predicate SlotOk(crc: Crc, img: Image, book: seq<Entry>, key: Option<string>, s: nat)
    requires Sound(img) && |book| == SLOT_COUNT && s < SLOT_COUNT
  {
    SlotValid(crc, img, s) ==> IndexOk(img, IndexOf(Slot(img, s)), book[s]) && (key.Some? ==> book[s].tag == key.value)
  }

  /** No slot a reader could take for valid is about anything but intact blobs, written for the path in `key` if there is one. */
  ghost predicate Safe(crc: Crc, img: Image, book: seq<Entry>, key: Option<string>) {
    Sound(img) && |book| == SLOT_COUNT && forall s :: 0 <= s < SLOT_COUNT ==> SlotOk(crc, img, book, key, s)
  }

  /** The power may fail at any moment of `op`. */
  ghost predicate CrashSafe(crc: Crc, img: Image, op: Op, book: seq<Entry>, key: Option<string>) {
    OpOk(img, op) && forall img' :: Torn(crc, img, op, img') ==> Safe(crc, img', book, key)
  }

  /**
   A moment at which the power may fail: an operation about to be done, and what the slots and the key mean then. `commits` is
   how many commits the running transaction has completed, if no header write of it failed.
   */
  datatype Point = Point(img: Image, op: Op, book: seq<Entry>, key: Option<string>, commits: Option<nat>)

  /** The transaction has completed these commits, and what it does next is to write a blob, the next header, or nothing. */
  ghost predicate CommitsStand(crc: Crc, img: Image, op: Op, commits: Option<nat>) {
    commits.Some? ==>
      var k := commits.value;
      && k <= SLOT_COUNT && OpOk(img, op) && Committed(crc, img, k)
      && (DATA_BASE <= op.off || op == Program(0, []) || (k < SLOT_COUNT && WritesHeader(crc, op, k)))
  }

  ghost predicate WritesHeader(crc: Crc, op: Op, s: nat) {
    exists x: Index :: op == Program(SlotOff(s), EncodeHeader(crc, x))
  }

  ghost predicate PointSafe(crc: Crc, p: Point) {
    CrashSafe(crc, p.img, p.op, p.book, p.key) && CommitsStand(crc, p.img, p.op, p.commits)
  }

  ghost predicate PointsSafe(crc: Crc, points: seq<Point>) {
    forall p <- points :: PointSafe(crc, p)
  }

  /** What mounting adopts when the power failed while the header after `k` commits may have been written: that one if it is whole, or else the k-th. */
  ghost predicate AdoptsLast(crc: Crc, was: Image, img: Image, k: nat) {
    && Sound(was) && Sound(img) && k <= SLOT_COUNT
    && Adopted(crc, img) == (if k < SLOT_COUNT && SlotValid(crc, img, k) then Some(k) else if k == 0 then None else Some(k - 1))
    && (forall s :: 0 <= s < k ==> Slot(img, s) == Slot(was, s))
  }

  /** Whatever a power failure at this moment leaves is safe, and of a transaction without a failed header write no commit is lost. */
  ghost predicate Recovers(crc: Crc, p: Point) {
    OpOk(p.img, p.op) && forall img | Torn(crc, p.img, p.op, img) ::
      && Safe(crc, img, p.book, p.key)
      && (p.commits.Some? ==> AdoptsLast(crc, p.img, img, p.commits.value))
  }

  /** The power failed at one of these moments and left `img`, under the key `key`. */
  ghost predicate FailedAt(crc: Crc, points: seq<Point>, img: Image, book: seq<Entry>, key: Option<string>) {
    exists p <- points :: OpOk(p.img, p.op) && Torn(crc, p.img, p.op, img) && book == p.book && key == p.key
  }

  lemma OneMorePoint(crc: Crc, points: seq<Point>, p: Point)
    requires PointsSafe(crc, points) && PointSafe(crc, p)
    ensures PointsSafe(crc, points + [p])
  {
    hide PointSafe;
  }

  /** Writing no byte at all: what is stored is safe as it stands. */
  lemma NothingIsCrashSafe(crc: Crc, img: Image, book: seq<Entry>, key: Option<string>)
    requires Safe(crc, img, book, key)
    ensures CrashSafe(crc, img, Program(0, []), book, key)
  {
    forall img' | Torn(crc, img, Program(0, []), img') ensures Safe(crc, img', book, key) {
      assert img' == img;
    }
  }

  /** Whatever mounting adopts after a crash is intact, and written for the cached path. */
  lemma AdoptedIsIntact(crc: Crc, img: Image, book: seq<Entry>, key: Option<string>)
    requires Safe(crc, img, book, key)
    ensures var a := Adopted(crc, img);
      a.Some? ==> IndexOk(img, IndexOf(Slot(img, a.value)), book[a.value]) && (key.Some? ==> book[a.value].tag == key.value)
  {
    if Adopted(crc, img).Some? {
      assert SlotOk(crc, img, book, key, Adopted(crc, img).value);
    }
  }

  /** Wherever the power failed, what is stored is safe, and what mounting then adopts is intact and written for the cached path. */
  lemma SafeWhereverItFailed(crc: Crc, points: seq<Point>, img: Image, book: seq<Entry>, key: Option<string>)
    requires PointsSafe(crc, points) && FailedAt(crc, points, img, book, key)
    ensures Safe(crc, img, book, key)
    ensures var a := Adopted(crc, img);
      a.Some? ==> IndexOk(img, IndexOf(Slot(img, a.value)), book[a.value]) && (key.Some? ==> book[a.value].tag == key.value)
  {
    var p :| p in points && OpOk(p.img, p.op) && Torn(crc, p.img, p.op, img) && book == p.book && key == p.key;
    assert PointSafe(crc, p);
    AdoptedIsIntact(crc, img, book, key);
  }

  /** Every blob a valid slot indexes ends at or before `cursor`. */
  ghost predicate Below(crc: Crc, img: Image, cursor: nat)
    requires Sound(img)
  {
    forall s, id :: 0 <= s < SLOT_COUNT && 0 <= id < BLOB_COUNT && SlotValid(crc, img, s) ==>
      var b := IndexOf(Slot(img, s))[id];
      b.length > 0 ==> b.offset + b.length <= cursor
  }

  /** Erasing or writing blobs at or past the cursor endangers nothing. */
  lemma BlobOpIsCrashSafe(crc: Crc, img: Image, op: Op, book: seq<Entry>, key: Option<string>, cursor: nat)
    requires Safe(crc, img, book, key) && OpOk(img, op) && Below(crc, img, cursor)
    requires DATA_BASE <= cursor <= op.off
    ensures CrashSafe(crc, img, op, book, key)
  {
    forall img' | Torn(crc, img, op, img') ensures Safe(crc, img', book, key) {
      UntouchedSlots(crc, img, op, img');
      forall s | 0 <= s < SLOT_COUNT ensures SlotOk(crc, img', book, key, s) {
        assert SlotOk(crc, img, book, key, s);
        if SlotValid(crc, img', s) {
          var x := IndexOf(Slot(img, s));
          forall id | 0 <= id < BLOB_COUNT ensures BlobOk(img', x[id], book[s].blobs[id]) {
            assert BlobOk(img, x[id], book[s].blobs[id]);
            var b := x[id];
            if b.length > 0 {
              assert img'[b.offset..b.offset + b.length] == img[b.offset..b.offset + b.length];
            }
          }
        }
      }
    }
  }

  lemma UntouchedSlots(crc: Crc, img: Image, op: Op, img': Image)
    requires OpOk(img, op) && DATA_BASE <= op.off
    requires Torn(crc, img, op, img')
    ensures forall s :: 0 <= s < SLOT_COUNT ==> Slot(img', s) == Slot(img, s)
  {
    forall s | 0 <= s < SLOT_COUNT ensures Slot(img', s) == Slot(img, s) {
      assert SlotOff(s) + HEADER_SIZE <= DATA_BASE;
    }
  }

  /** Wiping the header sector only ever takes headers away. */
  lemma WipeIsCrashSafe(crc: Crc, img: Image, book: seq<Entry>, key: Option<string>)
    requires Safe(crc, img, book, key)
    ensures CrashSafe(crc, img, Erase(0, SECTOR), book, key)
    ensures forall s :: 0 <= s < SLOT_COUNT ==> SlotErased(Done(img, Erase(0, SECTOR)), s)
  {
    var op := Erase(0, SECTOR);
    assert OpEnd(op) == SECTOR;
    var done := Done(img, op);
    forall s | 0 <= s < SLOT_COUNT ensures SlotErased(done, s) && !SlotValid(crc, done, s) {
      ErasedSlot(done, s);
    }
    forall img' | Torn(crc, img, op, img') ensures Safe(crc, img', book, key) {
      forall s | 0 <= s < SLOT_COUNT ensures SlotOk(crc, img', book, key, s) {
        if SlotValid(crc, img', s) {
          assert SlotErased(done, s) && !SlotValid(crc, done, s);
          assert Slot(img', s) == Slot(img, s);
          assert SlotOk(crc, img, book, key, s);
          BlobsUntouched(img, img', IndexOf(Slot(img, s)), book[s]);
        }
      }
    }
  }

  lemma ErasedSlot(img: Image, s: nat)
    requires Sound(img) && s < SLOT_COUNT
    requires forall i :: SlotOff(s) <= i < SlotOff(s) + HEADER_SIZE ==> img[i] == ERASED
    ensures SlotErased(img, s)
  {
    var bs := Slot(img, s);
    assert bs[..4] == [ERASED, ERASED, ERASED, ERASED];
    assert bs[..4][..2] == [ERASED, ERASED] && bs[..4][2..] == [ERASED, ERASED];
  }

  lemma BlobsUntouched(img: Image, img': Image, x: Index, e: Entry)
    requires IndexOk(img, x, e) && Sound(img) && Sound(img') && img[DATA_BASE..] == img'[DATA_BASE..]
    ensures IndexOk(img', x, e)
  {
    forall id | 0 <= id < BLOB_COUNT ensures BlobOk(img', x[id], e.blobs[id]) {
      var b := x[id];
      assert BlobOk(img, b, e.blobs[id]);
      if b.length > 0 {
        assert img[b.offset..b.offset + b.length] == img[DATA_BASE..][b.offset - DATA_BASE..b.offset + b.length - DATA_BASE];
        assert img'[b.offset..b.offset + b.length] == img'[DATA_BASE..][b.offset - DATA_BASE..b.offset + b.length - DATA_BASE];
      }
    }
  }

  /** Appending a header slot about intact blobs leaves the old headers or adds the new one. */
  lemma CommitIsCrashSafe(crc: Crc, img: Image, book: seq<Entry>, key: Option<string>, s: nat, x: Index)
    requires Safe(crc, img, book, key) && s < SLOT_COUNT
    requires OpOk(img, Program(SlotOff(s), EncodeHeader(crc, x)))
    requires IndexOk(img, x, book[s]) && (key.Some? ==> book[s].tag == key.value)
    ensures CrashSafe(crc, img, Program(SlotOff(s), EncodeHeader(crc, x)), book, key)
    ensures var done := Done(img, Program(SlotOff(s), EncodeHeader(crc, x)));
      && SlotValid(crc, done, s) && IndexOf(Slot(done, s)) == x
      && forall k :: 0 <= k < SLOT_COUNT && k != s ==> Slot(done, k) == Slot(img, k)
  {
    var op := Program(SlotOff(s), EncodeHeader(crc, x));
    var done := Done(img, op);
    assert Slot(done, s) == EncodeHeader(crc, x);
    HeaderRoundTrip(crc, x);
    forall k | 0 <= k < SLOT_COUNT && k != s ensures Slot(done, k) == Slot(img, k) {
      OtherSlot(crc, img, op, done, s, k);
    }
    forall img' | Torn(crc, img, op, img') ensures Safe(crc, img', book, key) {
      TornCommitIsSafe(crc, img, book, key, s, x, img');
    }
  }

  lemma TornCommitIsSafe(crc: Crc, img: Image, book: seq<Entry>, key: Option<string>, s: nat, x: Index, img': Image)
    requires Safe(crc, img, book, key) && s < SLOT_COUNT
    requires OpOk(img, Program(SlotOff(s), EncodeHeader(crc, x)))
    requires IndexOk(img, x, book[s]) && (key.Some? ==> book[s].tag == key.value)
    requires Torn(crc, img, Program(SlotOff(s), EncodeHeader(crc, x)), img')
    ensures Safe(crc, img', book, key)
  {
    var op := Program(SlotOff(s), EncodeHeader(crc, x));
    HeaderRoundTrip(crc, x);
    assert img'[DATA_BASE..] == img[DATA_BASE..];
    forall k | 0 <= k < SLOT_COUNT ensures SlotOk(crc, img', book, key, k) {
      if k != s {
        OtherSlot(crc, img, op, img', s, k);
      }
      if SlotValid(crc, img', k) {
        assert SlotOk(crc, img, book, key, k);
        assert Slot(img', k) == Slot(img, k) || (k == s && Slot(img', k) == EncodeHeader(crc, x));
        BlobsUntouched(img, img', IndexOf(Slot(img', k)), book[k]);
      }
    }
  }

  lemma OtherSlot(crc: Crc, img: Image, op: Op, img': Image, s: nat, k: nat)
    requires OpOk(img, op) && op.Program? && op.off == SlotOff(s) && |op.data| <= SLOT_STRIDE
    requires s < SLOT_COUNT && k < SLOT_COUNT && k != s
    requires Torn(crc, img, op, img')
    ensures Slot(img', k) == Slot(img, k)
  {
    assert k < s ==> SlotOff(k) + SLOT_STRIDE <= SlotOff(s);
    assert k > s ==> SlotOff(s) + SLOT_STRIDE <= SlotOff(k);
  }

  // ---- recovery ---------------------------------------------------------------

  /** A transaction that has committed `k` times without a failed header write. */
  ghost predicate Committed(crc: Crc, img: Image, k: nat)
    requires Sound(img) && k <= SLOT_COUNT
  {
    && (forall s :: 0 <= s < k ==> SlotValid(crc, img, s))
    && (forall s :: k <= s < SLOT_COUNT ==> SlotErased(img, s))
  }

  lemma {:induction false} AdoptCommitted(crc: Crc, img: Image, k: nat, s: nat, best: Option<nat>)
    requires Sound(img) && s <= k <= SLOT_COUNT && Committed(crc, img, k)
    requires best == if s == 0 then None else Some(s - 1)
    ensures AdoptFrom(crc, img, s, best) == if k == 0 then None else Some(k - 1)
    decreases k - s
  {
    if s < k {
      assert SlotValid(crc, img, s);
      AdoptCommitted(crc, img, k, s + 1, Some(s));
    } else if s < SLOT_COUNT {
      assert SlotErased(img, s);
    }
  }

  /** Mounting adopts exactly the last commit. */
  lemma RecoversLastCommit(crc: Crc, img: Image, k: nat)
    requires Sound(img) && k <= SLOT_COUNT && Committed(crc, img, k)
    ensures Adopted(crc, img) == if k == 0 then None else Some(k - 1)
  {
    AdoptCommitted(crc, img, k, 0, None);
  }

  /** A crash while the next slot is written: the last commit, or the new one if its slot was completed. */
  lemma RecoversAfterTornCommit(crc: Crc, img: Image, k: nat, x: Index, img': Image)
    requires Sound(img) && k < SLOT_COUNT && Committed(crc, img, k)
    requires OpOk(img, Program(SlotOff(k), EncodeHeader(crc, x)))
    requires Torn(crc, img, Program(SlotOff(k), EncodeHeader(crc, x)), img')
    ensures Adopted(crc, img') ==
      if SlotValid(crc, img', k) then Some(k) else if k == 0 then None else Some(k - 1)
    ensures SlotValid(crc, img', k) ==> IndexOf(Slot(img', k)) == x
    ensures forall s :: 0 <= s < k ==> Slot(img', s) == Slot(img, s)
  {
    var op := Program(SlotOff(k), EncodeHeader(crc, x));
    forall s | 0 <= s < SLOT_COUNT && s != k ensures Slot(img', s) == Slot(img, s) {
      OtherSlot(crc, img, op, img', k, s);
    }
    forall t | 0 <= t < k ensures SlotValid(crc, img', t) {
      assert SlotValid(crc, img, t);
    }
    forall t | k < t < SLOT_COUNT ensures SlotErased(img', t) {
      assert SlotErased(img, t);
    }
    AdoptTorn(crc, img', k, 0, None);
    if SlotValid(crc, img', k) {
      HeaderRoundTrip(crc, x);
      assert SlotErased(img, k);
      assert Slot(Done(img, op), k) == EncodeHeader(crc, x);
    }
  }

  lemma {:induction false} AdoptTorn(crc: Crc, img: Image, k: nat, s: nat, best: Option<nat>)
    requires Sound(img) && s <= k < SLOT_COUNT
    requires forall t :: 0 <= t < k ==> SlotValid(crc, img, t)
    requires forall t :: k < t < SLOT_COUNT ==> SlotErased(img, t)
    requires best == if s == 0 then None else Some(s - 1)
    ensures AdoptFrom(crc, img, s, best) == if SlotValid(crc, img, k) then Some(k) else if k == 0 then None else Some(k - 1)
    decreases k - s
  {
    if s < k {
      assert SlotValid(crc, img, s);
      AdoptTorn(crc, img, k, s + 1, Some(s));
    } else if k + 1 < SLOT_COUNT {
      assert SlotErased(img, k + 1);
    }
  }

  /** At any moment of a transaction without a failed header write, a power failure loses no commit. */
  lemma RecoversExactly(crc: Crc, img: Image, op: Op, k: nat, img': Image)
    requires CommitsStand(crc, img, op, Some(k)) && Torn(crc, img, op, img')
    ensures AdoptsLast(crc, img, img', k)
  {
    hide CommitsStand;
    StandsFor(crc, img, op, k);
    if DATA_BASE <= op.off {
      UntouchedSlots(crc, img, op, img');
      StillCommitted(crc, img, img', k);
    } else if op == Program(0, []) {
      assert img' == img;
      StillCommitted(crc, img, img', k);
    } else {
      var x: Index :| op == Program(SlotOff(k), EncodeHeader(crc, x));
      RecoversAfterTornCommit(crc, img, k, x, img');
    }
  }

  lemma StandsFor(crc: Crc, img: Image, op: Op, k: nat)
    requires CommitsStand(crc, img, op, Some(k))
    ensures k <= SLOT_COUNT && OpOk(img, op) && Committed(crc, img, k)
    ensures DATA_BASE <= op.off || op == Program(0, []) || (k < SLOT_COUNT && WritesHeader(crc, op, k))
  {
  }

  lemma StillCommitted(crc: Crc, img: Image, img': Image, k: nat)
    requires Sound(img) && Sound(img') && k <= SLOT_COUNT && Committed(crc, img, k)
    requires forall s :: 0 <= s < SLOT_COUNT ==> Slot(img', s) == Slot(img, s)
    ensures AdoptsLast(crc, img, img', k)
  {
    hide Slot;
    forall s | 0 <= s < SLOT_COUNT ensures if s < k then SlotValid(crc, img', s) else SlotErased(img', s) && !SlotValid(crc, img', s) {
      assert if s < k then SlotValid(crc, img, s) else SlotErased(img, s);
    }
    hide ValidHeader, MagicOf, Adopted;
    RecoversLastCommit(crc, img', k);
  }

  lemma PointRecovers(crc: Crc, p: Point)
    requires PointSafe(crc, p)
    ensures Recovers(crc, p)
  {
    hide Safe, CommitsStand, AdoptsLast, Slot, Torn;
    assert OpOk(p.img, p.op);
    forall img | Torn(crc, p.img, p.op, img) && p.commits.Some?
      ensures AdoptsLast(crc, p.img, img, p.commits.value)
    {
      RecoversExactly(crc, p.img, p.op, p.commits.value, img);
    }
  }

  /** A crash while the header sector is wiped adopts one of the headers that were there, if any. */
  lemma RecoversAfterTornWipe(crc: Crc, img: Image, img': Image)
    requires Sound(img) && OpOk(img, Erase(0, SECTOR)) && Torn(crc, img, Erase(0, SECTOR), img')
    ensures var a := Adopted(crc, img');
      a.Some? ==> SlotValid(crc, img, a.value) && Slot(img', a.value) == Slot(img, a.value)
  {
    var a := Adopted(crc, img');
    if a.Some? {
      ErasedSlot(Done(img, Erase(0, SECTOR)), a.value);
    }
  }

  /** Nothing behind an erased slot is ever adopted. */
  lemma {:induction false} ErasedSlotHidesLater(crc: Crc, img: Image, s: nat, from: nat, best: Option<nat>)
    requires Sound(img) && from <= s < SLOT_COUNT && SlotErased(img, s)
    requires best.Some? ==> best.value < from && SlotValid(crc, img, best.value)
    ensures var a := AdoptFrom(crc, img, from, best); a.Some? ==> a.value < s
    decreases s - from
  {
    if from < s && !SlotErased(img, from) {
      ErasedSlotHidesLater(crc, img, s, from + 1, if SlotValid(crc, img, from) then Some(from) else best);
    }
  }

  /** With no erased slot before it, the last header written is reached whatever the other slots hold. */
  lemma {:induction false} LatestIsReached(crc: Crc, img: Image, s: nat, from: nat, best: Option<nat>)
    requires Sound(img) && from <= s < SLOT_COUNT && SlotValid(crc, img, s) && !SlotErased(img, s)
    requires forall t :: from <= t < s ==> !SlotErased(img, t)
    requires s + 1 < SLOT_COUNT ==> SlotErased(img, s + 1)
    requires best.Some? ==> best.value < SLOT_COUNT && SlotValid(crc, img, best.value)
    ensures AdoptFrom(crc, img, from, best) == Some(s)
    decreases s - from
  {
    if from < s {
      LatestIsReached(crc, img, s, from + 1, if SlotValid(crc, img, from) then Some(from) else best);
    } else {
      assert AdoptFrom(crc, img, s, best) == AdoptFrom(crc, img, s + 1, Some(s));
    }
  }

  /** The latest header of a transaction, written whole, is found exactly when no header write before it left its slot blank. */
  lemma LatestFoundExactly(crc: Crc, img: Image, s: nat)
    requires Sound(img) && s < SLOT_COUNT && SlotValid(crc, img, s)
    requires forall t :: s < t < SLOT_COUNT ==> SlotErased(img, t)
    ensures Adopted(crc, img) == Some(s) <==> forall t :: 0 <= t < s ==> !SlotErased(img, t)
    ensures (exists t :: 0 <= t < s && SlotErased(img, t)) ==> Adopted(crc, img) == None || Adopted(crc, img).value < s
  {
    if t :| 0 <= t < s && SlotErased(img, t) {
      ErasedSlotHidesLater(crc, img, t, 0, None);
    } else {
      LatestIsReached(crc, img, s, 0, None);
    }
  }

  /** The smallest such case: the first header write of a transaction does nothing, the second succeeds, and mounting finds nothing. */
  lemma SecondCommitUnseen(crc: Crc, img: Image, x: Index)
    requires Sound(img) && OpOk(img, Program(SlotOff(1), EncodeHeader(crc, x)))
    requires forall s :: 0 <= s < SLOT_COUNT ==> SlotErased(img, s)
    ensures var done := Done(img, Program(SlotOff(1), EncodeHeader(crc, x)));
      SlotValid(crc, done, 1) && IndexOf(Slot(done, 1)) == x && Adopted(crc, done) == None
  {
    var op := Program(SlotOff(1), EncodeHeader(crc, x));
    var done := Done(img, op);
    assert Slot(done, 1) == EncodeHeader(crc, x);
    HeaderRoundTrip(crc, x);
    DoneIsTorn(crc, img, op);
    OtherSlot(crc, img, op, done, 1, 0);
    assert SlotErased(img, 0) && SlotErased(done, 0);
    ErasedSlotHidesLater(crc, done, 0, 0, None);
  }
}
