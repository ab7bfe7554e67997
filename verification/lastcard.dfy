/**
 The cache of the displayed card: a partition and, in another store, the key that says which source file the partition
 was written for. The key is dropped before the partition is touched and set only once something is committed.
 */
module LastCard {
  import opened Options
  import opened Wire
  import opened Flash
  import opened CardStore

  /** A grey image in memory: rows of `w` pixels, `stride` bytes apart. */
  datatype View = View(data: seq<byte>, w: u16, h: u16, stride: u32, levels: byte)

  /** The displayed card: where it came from, whether it is a card with a PDF, what reading its file gives, its image. */
  datatype Card = Card(path: string, isCard: bool, file: Option<seq<byte>>, view: Option<View>)

  const FMT_L8: byte := 1

  predicate ViewOk(v: View) {
    v.w <= v.stride && (v.h > 0 ==> (v.h - 1) * v.stride + v.w <= |v.data|)
  }

  /** The pixels of the view, row after row without gaps. */
  function Packed(v: View, rows: nat): (px: seq<byte>)
    requires ViewOk(v) && rows <= v.h
    ensures |px| == rows * v.w
  {
    if rows == 0 then []
    else
      RowFits(v, rows - 1);
      Packed(v, rows - 1) + v.data[(rows - 1) * v.stride..(rows - 1) * v.stride + v.w]
  }

  lemma RowFits(v: View, y: nat)
    requires ViewOk(v) && y < v.h
    ensures y * v.stride + v.w <= |v.data|
    ensures (y + 1) * v.w == y * v.w + v.w
  {
    assert y * v.stride <= (v.h - 1) * v.stride;
  }

  lemma {:induction false} RowsBefore(y: nat, rows: nat, w: nat)
    requires y < rows
    ensures y * w + w <= rows * w
  {
    if y + 1 < rows {
      RowsBefore(y, rows - 1, w);
    }
    assert rows * w == (rows - 1) * w + w;
  }

  /** Where pixel (x, y) of the view is, and where it is once packed. */
  function Source(v: View, y: nat, x: nat): nat { y * v.stride + x }

  function Target(v: View, y: nat, x: nat): nat { y * v.w + x }

  lemma PixelFits(v: View, rows: nat, y: nat, x: nat)
    requires ViewOk(v) && y < rows <= v.h && x < v.w
    ensures Target(v, y, x) < Target(v, rows, 0) && Source(v, y, x) < |v.data|
  {
    RowFits(v, y);
    RowsBefore(y, rows, v.w);
  }

  lemma LastRow(v: View, rows: nat, x: nat)
    requires ViewOk(v) && 0 < rows <= v.h && x < v.w
    ensures |Packed(v, rows - 1)| == Target(v, rows - 1, 0)
    ensures Source(v, rows - 1, 0) + v.w <= |v.data|
    ensures Packed(v, rows) == Packed(v, rows - 1) + v.data[Source(v, rows - 1, 0)..Source(v, rows - 1, 0) + v.w]
    ensures Target(v, rows - 1, x) == Target(v, rows - 1, 0) + x
    ensures Source(v, rows - 1, x) == Source(v, rows - 1, 0) + x
  {
    RowFits(v, rows - 1);
  }

  /** Packing loses no pixel and moves none to another place. */
  lemma {:induction false} PackedAt(v: View, rows: nat, y: nat, x: nat)
    requires ViewOk(v) && y < rows <= v.h && x < v.w
    ensures Target(v, y, x) < |Packed(v, rows)| && Source(v, y, x) < |v.data|
    ensures Packed(v, rows)[Target(v, y, x)] == v.data[Source(v, y, x)]
  {
    hide ViewOk, Packed, Target, Source;
    LastRow(v, rows, x);
    if y < rows - 1 {
      PixelFits(v, rows - 1, y, x);
      PackedAt(v, rows - 1, y, x);
    }
  }

  /** With no gaps to begin with, packing is the identity. */
  lemma {:induction false} PackedContiguous(v: View, rows: nat)
    requires ViewOk(v) && rows <= v.h && v.stride == v.w
    ensures rows * v.w <= |v.data| && Packed(v, rows) == v.data[..rows * v.w]
  {
    if rows > 0 {
      RowFits(v, rows - 1);
      PackedContiguous(v, rows - 1);
      assert v.data[..(rows - 1) * v.w] + v.data[(rows - 1) * v.w..rows * v.w] == v.data[..rows * v.w];
    }
  }

  /** The row-packing loop. */
  method PackRows(v: View) returns (px: seq<byte>)
    requires ViewOk(v)
    ensures px == Packed(v, v.h)
  {
    if v.stride == v.w {
      PackedContiguous(v, v.h);
      px := v.data[..v.h as nat * v.w];
    } else {
      px := [];
      var y := 0;
      while y < v.h
        invariant y <= v.h && px == Packed(v, y)
      {
        RowFits(v, y);
        px := px + v.data[y * v.stride..y * v.stride + v.w];
        y := y + 1;
      }
    }
  }

  /** The image is well-formed, and neither it nor the file is longer than 32 bits can say. */
  predicate Fits(card: Card) {
    && (card.view.Some? ==> ViewOk(card.view.value) && card.view.value.w * card.view.value.h + PART_SIZE < 0x1_0000_0000)
    && (card.file.Some? ==> |card.file.value| + PART_SIZE < 0x1_0000_0000)
  }

  /** The card is in the cache already, all of it. */
  ghost predicate FullyCached(store: Store, path: string)
    reads store, store.dev, store.dev.mem
  {
    && Sound(store.dev.mem[..])
    && var a := Adopted(store.dev.crc, store.dev.mem[..]);
    && store.dev.key == Some(path)
    && a.Some? && IndexOf(Slot(store.dev.mem[..], a.value))[BLOB_DISPLAY].length > 0
  }

  /** What the header adopted after a complete save stands for. */
  ghost function Saved(card: Card): seq<seq<byte>> {
    [if card.isCard && card.file.Some? then card.file.value else [],
     if card.view.Some? && ViewOk(card.view.value) then Packed(card.view.value, card.view.value.h) else [],
     []]
  }

  /** The PDF is there and fits the partition. */
  ghost predicate PdfFits(card: Card) {
    card.file.Some? && card.file.value != [] && DATA_BASE + |card.file.value| <= PART_SIZE
  }

  /** Where the image goes: behind the PDF of a card, or first. */
  ghost function ImageStart(card: Card): nat {
    if card.isCard && card.file.Some? then AlignUp(DATA_BASE + |card.file.value|, SECTOR) else DATA_BASE
  }

  /** There is an image, and it fits what is left of the partition. */
  ghost predicate ImageFits(card: Card) {
    card.view.Some? && ViewOk(card.view.value) &&
    var size := card.view.value.h as nat * card.view.value.w;
    size > 0 && ImageStart(card) + size <= PART_SIZE
  }

  /** What the cache keeps of a card when no device operation fails: nothing without the PDF of a card, or without any blob. */
  ghost function Kept(card: Card): Option<seq<seq<byte>>> {
    var px := if ImageFits(card) then Packed(card.view.value, card.view.value.h) else [];
    if card.isCard then if PdfFits(card) then Some([card.file.value, px, []]) else None
    else if ImageFits(card) then Some([[], px, []]) else None
  }

  /** Exactly this is found on the device under this path, or nothing and no key. */
  ghost predicate Keeps(dev: Device, path: string, kept: Option<seq<seq<byte>>>)
    reads dev, dev.mem
  {
    && Sound(dev.mem[..]) && |dev.book| == SLOT_COUNT
    && var a := Adopted(dev.crc, dev.mem[..]);
    match kept
    case None => a == None && dev.key == None
    case Some(blobs) => a.Some? && dev.book[a.value] == Entry(path, blobs) && dev.key == Some(path)
  }

  /** The adopted header indexes a display image. */
  ghost predicate HasImage(dev: Device)
    reads dev, dev.mem
  {
    && Sound(dev.mem[..])
    && var a := Adopted(dev.crc, dev.mem[..]);
    a.Some? && IndexOf(Slot(dev.mem[..], a.value))[BLOB_DISPLAY].length > 0
  }

  /** The image that was kept is as long as its bytes. */
  lemma KeptHasImage(dev: Device, card: Card)
    requires dev.Valid() && Keeps(dev, card.path, Kept(card)) && ImageFits(card) && (card.isCard ==> PdfFits(card))
    ensures HasImage(dev)
  {
    hide IndexOf, Adopted, Packed;
    var a := Adopted(dev.crc, dev.mem[..]).value;
    assert SlotOk(dev.crc, dev.mem[..], dev.book, dev.key, a);
    assert BlobOk(dev.mem[..], IndexOf(Slot(dev.mem[..], a))[BLOB_DISPLAY], dev.book[a].blobs[BLOB_DISPLAY]);
  }

  /** What is adopted is about this card: its PDF, its image packed, or for a card its PDF alone. */
  ghost predicate HoldsCard(dev: Device, card: Card)
    reads dev, dev.mem
  {
    && Sound(dev.mem[..]) && |dev.book| == SLOT_COUNT
    && var a := Adopted(dev.crc, dev.mem[..]);
    && a.Some? && dev.book[a.value].tag == card.path
    && (dev.book[a.value].blobs == Saved(card) || (card.isCard && dev.book[a.value].blobs == Saved(card)[BLOB_DISPLAY := []]))
    && (dev.book[a.value].blobs[BLOB_DISPLAY] != [] ==>
          card.view.Some? && Described(IndexOf(Slot(dev.mem[..], a.value))[BLOB_DISPLAY], card.view.value))
  }

  /** The entry of the index says what a reader needs to show the packed image. */
  predicate Described(b: Blob, v: View) {
    b.w == v.w && b.h == v.h && b.stride == v.w && b.levels == v.levels && b.format == 1
  }

  /**
   save_cache. Every device operation in it is safe at every crash point, for the key as it is then; so whenever the
   power fails, a key of `path` means that any header adopted is about blobs written for `path`.
   */
  method SaveCache(store: Store, card: Card)
    requires store.dev.Valid() && Fits(card)
    modifies store, store.dev, store.dev.mem
    ensures store.dev.Valid() && old(store.dev.points) <= store.dev.points
    ensures card.path == "" ==> store.dev.key == old(store.dev.key) && store.dev.mem[..] == old(store.dev.mem[..])
    ensures card.path != "" && old(FullyCached(store, card.path)) ==>
              store.dev.key == old(store.dev.key) && store.dev.mem[..] == old(store.dev.mem[..])
    ensures card.path != "" && !old(FullyCached(store, card.path)) && store.dev.key.Some? ==>
              store.dev.key.value == card.path && HoldsCard(store.dev, card)
    ensures old(store.dev.faults) <= store.dev.faults
    ensures card.path != "" && store.dev.key.Some? ==> store.dev.key.value == card.path
    ensures card.path != "" && ImageFits(card) && (card.isCard ==> PdfFits(card)) && store.dev.faults == old(store.dev.faults) ==>
              HasImage(store.dev)
    ensures card.path != "" && !old(FullyCached(store, card.path)) && store.dev.faults == old(store.dev.faults) ==>
              Keeps(store.dev, card.path, Kept(card))
  {
    if card.path == "" {
      return;
    }
    store.Mount();
    if store.hdrValid && store.dev.key == Some(card.path) && store.BlobLen(BLOB_DISPLAY) > 0 {
      return;
    }
    hide Safe, PointsSafe, IndexOf, ValidHeader, AdoptFrom, HoldsCard, Keeps, Kept, HasImage, ImageFits, PdfFits;
    Renew(store, card);
  }

  /** The partition is about to be rewritten, so the key goes first. */
  method Renew(store: Store, card: Card)
    requires store.Valid() && Fits(card)
    modifies store, store.dev, store.dev.mem
    ensures store.dev.Valid() && old(store.dev.points) <= store.dev.points
    ensures store.dev.key.Some? ==> store.dev.key.value == card.path && HoldsCard(store.dev, card)
    ensures old(store.dev.faults) <= store.dev.faults
    ensures store.dev.faults == old(store.dev.faults) ==> Keeps(store.dev, card.path, Kept(card))
    ensures ImageFits(card) && (card.isCard ==> PdfFits(card)) && store.dev.faults == old(store.dev.faults) ==> HasImage(store.dev)
  {
    hide Safe, PointsSafe, IndexOf, ValidHeader, AdoptFrom, HoldsCard, Keeps, Kept, HasImage, ImageFits, PdfFits, Fits;
    store.dev.ClearKey();
    ghost var before := store.dev.faults;
    Rewrite(store, card);
    if ImageFits(card) && (card.isCard ==> PdfFits(card)) && store.dev.faults == before {
      KeptHasImage(store.dev, card);
    }
  }

  /** The rest of it, once the key is gone. */
  method Rewrite(store: Store, card: Card)
    requires store.Valid() && store.dev.key == None && Fits(card)
    modifies store, store.dev, store.dev.mem
    ensures store.dev.Valid() && old(store.dev.points) <= store.dev.points
    ensures store.dev.key.Some? ==> store.dev.key.value == card.path && HoldsCard(store.dev, card)
    ensures old(store.dev.faults) <= store.dev.faults
    ensures store.dev.faults == old(store.dev.faults) ==> Keeps(store.dev, card.path, Kept(card))
  {
    hide Safe, PointsSafe, Ready, IndexOk, IndexBelow, Committed, IndexOf, ValidHeader, AdoptFrom, ViewOk, Packed;
    var w := new Writer(store);
    var ok := w.Begin(card.path);
    if !ok {
      return;
    }
    if card.isCard {
      ok := SavePdf(w, card);
      if !ok {
        return;
      }
    }
    if card.view.Some? {
      SaveDisplay(w, card);
      return;
    }
    if card.isCard {
      PdfStands(w, card);
    } else {
      RecoversLastCommit(store.dev.crc, store.dev.mem[..], w.slot);
    }
  }

  /** After the first stage alone, what is adopted is the PDF. */
  lemma PdfStands(w: Writer, card: Card)
    requires w.Valid() && w.active && w.clean && w.slot == 1 && w.store.dev.key == Some(card.path)
    requires card.isCard && card.file.Some? && card.view.None?
    requires w.entry == Entry(card.path, [card.file.value, [], []]) && w.store.dev.book[0] == w.entry
    ensures HoldsCard(w.store.dev, card) && (PdfFits(card) ==> Keeps(w.store.dev, card.path, Kept(card)))
  {
    hide Safe, IndexOk, IndexBelow, IndexOf, ValidHeader, AdoptFrom, Committed;
    RecoversLastCommit(w.store.dev.crc, w.store.dev.mem[..], w.slot);
  }

  /** The first stage: the PDF alone can already restore the card. */
  method SavePdf(w: Writer, card: Card) returns (ok: bool)
    requires w.Valid() && w.active && w.clean && w.slot == 0 && w.entry == Entry(card.path, [[], [], []])
    requires w.store.dev.key == None && card.isCard
    requires card.file.Some? ==> |card.file.value| + PART_SIZE < 0x1_0000_0000
    requires w.cursor == DATA_BASE
    modifies w, w.store, w.store.dev, w.store.dev.mem
    ensures old(w.store.dev.points) <= w.store.dev.points && old(w.store.dev.faults) <= w.store.dev.faults
    ensures ok <==> PdfFits(card) && w.store.dev.faults == old(w.store.dev.faults)
    ensures ok ==> w.cursor == ImageStart(card)
    ensures !ok && w.store.dev.faults == old(w.store.dev.faults) ==> Keeps(w.store.dev, card.path, None)
    ensures w.store.dev.Valid() && (!ok ==> w.store.dev.key == None)
    ensures ok ==> w.Valid() && w.active && w.clean && w.slot == 1 && w.store.dev.key == Some(card.path)
    ensures ok ==> card.file.Some? && w.entry == Entry(card.path, [card.file.value, [], []]) && w.store.dev.book[0] == w.entry
  {
    hide Safe, Ready, IndexOk, IndexBelow, Committed, IndexOf, ValidHeader, AdoptFrom;
    if card.file.None? {
      RecoversLastCommit(w.store.dev.crc, w.store.dev.mem[..], 0);
      w.Abort();
      return false;
    }
    ok := w.WriteBlob(BLOB_PDF, card.file.value, NoBlob);
    if !ok {
      RecoversLastCommit(w.store.dev.crc, w.store.dev.mem[..], 0);
    }
    if ok {
      ok := w.Commit();
    }
    if !ok {
      w.Abort();
      return false;
    }
    ReadyTags(w.store.dev.crc, w.store.dev.mem[..], w.store.dev.book, w.cursor, w.slot, w.entry);
    w.store.dev.SetKey(card.path, w.Commits());
  }

  /** The second stage: the display image; its loss leaves the first stage in force. */
  method SaveDisplay(w: Writer, card: Card)
    requires w.Valid() && w.active && w.clean && card.view.Some? && ViewOk(card.view.value)
    requires card.view.value.w * card.view.value.h + PART_SIZE < 0x1_0000_0000
    requires w.entry == Entry(card.path, Saved(card)[BLOB_DISPLAY := []])
    requires if card.isCard then w.slot == 1 && w.store.dev.key == Some(card.path) && w.store.dev.book[0] == w.entry
             else w.slot == 0 && w.store.dev.key == None
    requires (card.isCard ==> PdfFits(card)) && w.cursor == ImageStart(card)
    modifies w, w.store, w.store.dev, w.store.dev.mem
    ensures old(w.store.dev.points) <= w.store.dev.points && old(w.store.dev.faults) <= w.store.dev.faults
    ensures w.store.dev.faults == old(w.store.dev.faults) ==> Keeps(w.store.dev, card.path, Kept(card))
    ensures w.store.dev.Valid() && (w.store.dev.key.Some? ==> w.store.dev.key == Some(card.path))
    ensures w.store.dev.key.Some? ==> HoldsCard(w.store.dev, card)
    ensures old(w.store.dev.key).Some? ==> w.store.dev.key.Some?
  {
    hide Safe, Ready, IndexOk, IndexBelow, IndexOf, ValidHeader, AdoptFrom, Packed, Committed;
    var v := card.view.value;
    var px := PackRows(v);
    assert |px| == v.h * v.w;
    var meta := NoBlob.(w := v.w, h := v.h, stride := v.w, levels := v.levels, format := FMT_L8);
    ghost var was := w.entry;
    var ok := w.WriteBlob(BLOB_DISPLAY, px, meta);
    if !ok {
      RecoversLastCommit(w.store.dev.crc, w.store.dev.mem[..], w.slot);
      return;
    }
    assert w.entry == Entry(card.path, Saved(card)) by {
      assert was.blobs[BLOB_DISPLAY := px] == Saved(card);
    }
    ok := w.Commit();
    if ok {
      RecoversLastCommit(w.store.dev.crc, w.store.dev.mem[..], w.slot);
      if !card.isCard {
        ReadyTags(w.store.dev.crc, w.store.dev.mem[..], w.store.dev.book, w.cursor, w.slot, w.entry);
        w.store.dev.SetKey(card.path, w.Commits());
      }
    }
  }

  /** Any series of saves. */
  method SaveAll(store: Store, cards: seq<Card>)
    requires store.dev.Valid() && forall c <- cards :: Fits(c)
    modifies store, store.dev, store.dev.mem
    ensures store.dev.Valid() && old(store.dev.points) <= store.dev.points
  {
    var i := 0;
    while i < |cards|
      invariant i <= |cards| && store.dev.Valid() && old(store.dev.points) <= store.dev.points
    {
      hide Safe, PointsSafe, Fits, FullyCached, HoldsCard;
      assert Fits(cards[i]);
      SaveCache(store, cards[i]);
      i := i + 1;
    }
  }

  /**
   One life of the device, from power-on to the moment the power fails: any series of saves, started from whatever an earlier
   life left behind. Wherever it ends, a key of some path means that any header adopted next is about blobs written for it.
   */
  method Live(crc: Crc, found: Image, ghost book: seq<Entry>, key: Option<string>, cards: seq<Card>) returns (dev: Device)
    requires Safe(crc, found, book, key) && forall c <- cards :: Fits(c)
    ensures fresh(dev) && fresh(dev.mem) && dev.Valid() && dev.crc == crc
    ensures forall p <- dev.points :: Recovers(crc, p)
  {
    hide Safe, PointsSafe, Fits;
    dev := new Device.Found(crc, found, book, key);
    var store := new Store(dev);
    SaveAll(store, cards);
    FailsSafely(crc, dev.points);
  }
}
