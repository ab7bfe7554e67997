/**
 The card store as the source has it: a partition that is erased and programmed in place, a reader's cached header,
 and a writer that moves a cursor over the partition. A device operation may only be called when the partition is safe
 whatever part of it the power lets happen, so what verifies here is safe at every crash point.
 */
module CardStore {
  import opened Options
  import opened Wire
  import opened Flash

  /** The partition, and the one key of the other store that names what the partition was written for. */
  class Device {
    const crc: Crc
    const mem: array<byte>
    var key: Option<string>
    /** What each header slot stands for, should it be valid. */
    ghost var book: seq<Entry>
    /** Every moment so far at which the power might have failed. */
    ghost var points: seq<Point>
    /** How many operations have reported failure. */
    ghost var faults: nat

    ghost predicate Valid()
      reads this, mem
    {
      Safe(crc, mem[..], book, key) && PointsSafe(crc, points)
    }

    constructor (crc: Crc)
      ensures Valid() && this.crc == crc && key == None && fresh(mem)
      ensures forall i :: 0 <= i < PART_SIZE ==> mem[i] == ERASED
    {
      this.crc := crc;
      mem := new byte[PART_SIZE](_ => ERASED);
      key := None;
      book, points, faults := seq(SLOT_COUNT, _ => Entry("", [[], [], []])), [], 0;
      new;
      forall s | 0 <= s < SLOT_COUNT ensures SlotOk(crc, mem[..], book, key, s) {
        ErasedSlot(mem[..], s);
      }
    }

    /** The device as it is found when the power is back. */
    constructor Found(crc: Crc, img: Image, ghost book: seq<Entry>, key: Option<string>)
      requires Safe(crc, img, book, key)
      ensures Valid() && this.crc == crc && this.key == key && this.book == book && points == [] && fresh(mem) && mem[..] == img
    {
      hide SlotOk;
      this.crc, this.key, this.book := crc, key, book;
      mem := new byte[PART_SIZE](i requires 0 <= i < |img| => img[i]);
      points, faults := [], 0;
      new;
      assert mem[..] == img;
    }

    method Erase(off: nat, len: nat, ghost commits: Option<nat>) returns (ok: bool)
      requires Valid() && CrashSafe(crc, mem[..], Flash.Erase(off, len), book, key)
      requires CommitsStand(crc, mem[..], Flash.Erase(off, len), commits)
      modifies mem, `points, `faults
      ensures Valid() && Torn(crc, old(mem[..]), Flash.Erase(off, len), mem[..])
      ensures points == old(points) + [Point(old(mem[..]), Flash.Erase(off, len), book, key, commits)]
      ensures ok ==> mem[..] == Done(old(mem[..]), Flash.Erase(off, len))
      ensures faults == if ok then old(faults) else old(faults) + 1
    {
      hide CommitsStand, PointsSafe, Slot, ValidHeader;
      ok := *;
      ghost var was, op := mem[..], Flash.Erase(off, len);
      OneMorePoint(crc, points, Point(was, op, book, key, commits));
      points := points + [Point(was, op, book, key, commits)];
      if ok {
        forall i | off <= i < off + AlignUp(len, SECTOR) {
          mem[i] := ERASED;
        }
        assert mem[..] == Done(was, op);
        DoneIsTorn(crc, was, op);
      } else {
        faults := faults + 1;
        NothingDoneIsTorn(crc, was, op);
      }
    }

    method Program(off: nat, data: seq<byte>, ghost commits: Option<nat>) returns (ok: bool)
      requires Valid() && CrashSafe(crc, mem[..], Flash.Program(off, data), book, key)
      requires CommitsStand(crc, mem[..], Flash.Program(off, data), commits)
      modifies mem, `points, `faults
      ensures Valid() && Torn(crc, old(mem[..]), Flash.Program(off, data), mem[..])
      ensures points == old(points) + [Point(old(mem[..]), Flash.Program(off, data), book, key, commits)]
      ensures ok ==> mem[..] == Done(old(mem[..]), Flash.Program(off, data))
      ensures faults == if ok then old(faults) else old(faults) + 1
    {
      hide CommitsStand, PointsSafe, Slot, ValidHeader;
      ok := *;
      ghost var was, op := mem[..], Flash.Program(off, data);
      OneMorePoint(crc, points, Point(was, op, book, key, commits));
      points := points + [Point(was, op, book, key, commits)];
      if ok {
        forall i | 0 <= i < |data| {
          mem[off + i] := data[i];
        }
        assert mem[..] == Done(was, op);
        DoneIsTorn(crc, was, op);
      } else {
        faults := faults + 1;
        NothingDoneIsTorn(crc, was, op);
      }
    }

    /** Says what a slot will stand for; only a slot that is not valid may change its meaning. */
    ghost method Announce(s: nat, e: Entry)
      requires Valid() && s < SLOT_COUNT && !SlotValid(crc, mem[..], s)
      modifies `book
      ensures Valid() && book == old(book)[s := e]
    {
      book := book[s := e];
      forall k | 0 <= k < SLOT_COUNT ensures SlotOk(crc, mem[..], book, key, k) {
        assert SlotOk(crc, mem[..], old(book), key, k);
      }
    }

    /** The key of the other store is written in one piece. */
    method SetKey(path: string, ghost commits: Option<nat>)
      requires Valid() && CommitsStand(crc, mem[..], Flash.Program(0, []), commits)
      requires forall s :: 0 <= s < SLOT_COUNT && SlotValid(crc, mem[..], s) ==> book[s].tag == path
      modifies `key, `points
      ensures Valid() && key == Some(path)
      ensures points == old(points) + [Point(mem[..], Flash.Program(0, []), book, key, commits)]
    {
      key := Some(path);
      forall s | 0 <= s < SLOT_COUNT ensures SlotOk(crc, mem[..], book, key, s) {
        assert SlotOk(crc, mem[..], book, old(key), s);
      }
      NothingIsCrashSafe(crc, mem[..], book, key);
      OneMorePoint(crc, points, Point(mem[..], Flash.Program(0, []), book, key, commits));
      points := points + [Point(mem[..], Flash.Program(0, []), book, key, commits)];
    }

    method ClearKey()
      requires Valid()
      modifies `key, `points
      ensures Valid() && key == None
      ensures points == old(points) + [Point(mem[..], Flash.Program(0, []), book, key, None)]
    {
      key := None;
      forall s | 0 <= s < SLOT_COUNT ensures SlotOk(crc, mem[..], book, key, s) {
        assert SlotOk(crc, mem[..], book, old(key), s);
      }
      NothingIsCrashSafe(crc, mem[..], book, key);
      OneMorePoint(crc, points, Point(mem[..], Flash.Program(0, []), book, key, None));
      points := points + [Point(mem[..], Flash.Program(0, []), book, key, None)];
    }
  }

  class Store {
    const dev: Device
    var hdr: Index
    var hdrValid: bool
    /** The slot the cached header was read from. */
    ghost var at: nat

    ghost predicate Valid()
      reads this, dev, dev.mem
    {
      && dev.Valid()
      && (hdrValid ==> at < SLOT_COUNT && SlotValid(dev.crc, dev.mem[..], at) && IndexOf(Slot(dev.mem[..], at)) == hdr)
    }

    constructor (dev: Device)
      requires dev.Valid()
      ensures Valid() && this.dev == dev && !hdrValid
    {
      this.dev := dev;
      hdr, hdrValid := [NoBlob, NoBlob, NoBlob], false;
    }

    method FindHeader() returns (best: Option<nat>)
      requires Sound(dev.mem[..])
      ensures best == Adopted(dev.crc, dev.mem[..])
    {
      best := LastValidSlot(dev.crc, dev.mem[..]);
    }

    /** reload_header: refreshes the cached header from the slots. */
    method ReloadHeader()
      requires dev.Valid()
      modifies this
      ensures Valid()
      ensures hdrValid <==> Adopted(dev.crc, dev.mem[..]).Some?
      ensures hdrValid ==> at == Adopted(dev.crc, dev.mem[..]).value && hdr == IndexOf(Slot(dev.mem[..], at))
    {
      hide Safe, Adopted, IndexOf, SlotValid;
      assert Sound(dev.mem[..]) by { SafeIsSound(dev.crc, dev.mem[..], dev.book, dev.key); }
      var best := FindHeader();
      hdrValid := best.Some?;
      if best.Some? {
        hdr := IndexOf(dev.mem[SlotOff(best.value)..SlotOff(best.value) + HEADER_SIZE]);
        at := best.value;
      }
    }

    method Mount()
      requires dev.Valid()
      modifies this
      ensures Valid()
      ensures hdrValid <==> Adopted(dev.crc, dev.mem[..]).Some?
      ensures hdrValid ==> at == Adopted(dev.crc, dev.mem[..]).value && hdr == IndexOf(Slot(dev.mem[..], at))
    {
      ReloadHeader();
    }

    function BlobLen(id: nat): (n: nat)
      reads this
      requires id < BLOB_COUNT
    {
      if hdrValid then hdr[id].length else 0
    }

    /** read_blob_range: the checksum of a blob is never looked at, yet the bytes are the ones written. */
    method ReadBlobRange(id: nat, offset: nat, len: nat) returns (bytes: seq<byte>)
      requires Valid()
      ensures !hdrValid || id >= BLOB_COUNT ==> bytes == []
      ensures hdrValid && id < BLOB_COUNT ==>
        var blob := dev.book[at].blobs;
        |blob| == BLOB_COUNT && |blob[id]| == hdr[id].length &&
        bytes == if offset >= |blob[id]| then [] else if |blob[id]| - offset > len then blob[id][offset..offset + len] else blob[id][offset..]
    {
      if !hdrValid || id >= BLOB_COUNT {
        return [];
      }
      assert SlotOk(dev.crc, dev.mem[..], dev.book, dev.key, at);
      var b := hdr[id];
      ghost var blob := dev.book[at].blobs[id];
      assert BlobOk(dev.mem[..], b, blob);
      if offset >= b.length {
        return [];
      }
      var n := b.length - offset;
      if n > len {
        n := len;
      }
      bytes := dev.mem[b.offset + offset..b.offset + offset + n];
      hide Safe, SlotOk, IndexOf, SlotValid, Slot, BlobOk;
      RangeOfBlob(dev.mem[..], b, blob, offset, n);
      assert bytes == dev.mem[..][b.offset + offset..b.offset + offset + n];
    }
  }

  class Writer {
    const store: Store
    var hdr: Index
    var cursor: nat
    var slot: nat
    var active: bool
    /** What the blobs of the pending index hold, whom they are for, and that no header write has failed yet. */
    ghost var entry: Entry
    ghost var clean: bool

    ghost predicate Valid()
      reads this, store, store.dev, store.dev.mem
    {
      && store.Valid()
      && (active ==> InTransaction(store.dev.crc, store.dev.mem[..], store.dev.book, store.dev.key))
    }

    /** How many commits this transaction has completed, if no header write failed. */
    ghost function Commits(): Option<nat>
      reads this
    {
      if clean then Some(slot) else None
    }

    ghost predicate InTransaction(crc: Crc, img: Image, book: seq<Entry>, key: Option<string>)
      reads this
    {
      && Sound(img) && |book| == SLOT_COUNT
      && slot <= SLOT_COUNT
      && Ready(crc, img, book, cursor, slot, entry)
      && IndexOk(img, hdr, entry)
      && IndexBelow(hdr, cursor)
      && (key.Some? ==> key.value == entry.tag)
      && (clean ==> Committed(crc, img, slot))
    }

    constructor (store: Store)
      requires store.Valid()
      ensures Valid() && this.store == store && !active
    {
      this.store := store;
      hdr, cursor, slot, active := [NoBlob, NoBlob, NoBlob], 0, 0, false;
      entry, clean := Entry("", [[], [], []]), false;
    }

    /** The header sector is wiped before anything else. */
    method Begin(ghost tag: string) returns (ok: bool)
      requires Valid() && (store.dev.key.Some? ==> store.dev.key.value == tag)
      modifies this, store, store.dev.mem, store.dev`points, store.dev`faults
      ensures Valid() && store.dev.Valid() && old(store.dev.points) <= store.dev.points
      ensures old(active) ==> !ok && store.hdrValid == old(store.hdrValid)
      ensures !old(active) ==> !store.hdrValid && active == ok
      ensures ok ==> slot == 0 && entry == Entry(tag, [[], [], []]) && clean && hdr == [NoBlob, NoBlob, NoBlob]
      ensures ok ==> Adopted(store.dev.crc, store.dev.mem[..]) == None && cursor == DATA_BASE
      ensures old(store.dev.faults) <= store.dev.faults
      ensures ok <==> !old(active) && store.dev.faults == old(store.dev.faults)
    {
      if active {
        return false;
      }
      hide PointsSafe, CrashSafe, Torn, OpOk;
      store.hdrValid := false;
      ghost var img := store.dev.mem[..];
      WipeIsCrashSafe(store.dev.crc, img, store.dev.book, store.dev.key);
      ok := store.dev.Erase(0, SECTOR, None);
      if !ok {
        return;
      }
      hdr := [NoBlob, NoBlob, NoBlob];
      cursor := DATA_BASE;
      slot := 0;
      active := true;
      entry, clean := Entry(tag, [[], [], []]), true;
      WipedIsReady(store.dev.crc, img, store.dev.book, entry);
      RecoversLastCommit(store.dev.crc, store.dev.mem[..], 0);
    }

    /** Fresh sectors at the cursor take the data; only they are touched, whether or not it works. */
    method WriteSectors(data: seq<byte>) returns (ok: bool)
      requires Valid() && active && data != [] && cursor + |data| <= PART_SIZE
      modifies store.dev.mem, store.dev`points, store.dev`faults
      ensures Valid() && Adds(old(store.dev.points), store.dev.points, Commits())
      ensures ok ==> store.dev.mem[..][cursor..cursor + |data|] == data
      ensures old(store.dev.faults) <= store.dev.faults && (ok <==> store.dev.faults == old(store.dev.faults))
    {
      hide Ready, IndexOk, IndexBelow, Committed, Safe, CrashSafe, AlignUp;
      ghost var crc, book, key := store.dev.crc, store.dev.book, store.dev.key;
      ghost var img0 := store.dev.mem[..];
      ReadyParts(crc, img0, book, cursor, slot, entry);
      SectorsFit(cursor, |data|);
      BlobOpIsCrashSafe(crc, img0, Flash.Erase(cursor, |data|), book, key, cursor);
      ok := store.dev.Erase(cursor, |data|, Commits());
      ghost var img1 := store.dev.mem[..];
      BlobOpKeeps(crc, img0, Flash.Erase(cursor, |data|), img1, book, cursor, slot, entry, hdr);
      if !ok {
        return;
      }
      ReadyParts(crc, img1, book, cursor, slot, entry);
      BlobOpIsCrashSafe(crc, img1, Flash.Program(cursor, data), book, key, cursor);
      ok := store.dev.Program(cursor, data, Commits());
      BlobOpKeeps(crc, img1, Flash.Program(cursor, data), store.dev.mem[..], book, cursor, slot, entry, hdr);
    }

    /** A blob goes to freshly erased sectors at the cursor; the pending index takes it up only once it is written. */
    method WriteBlob(id: nat, data: seq<byte>, meta: Blob) returns (ok: bool)
      requires Valid() && |data| + PART_SIZE < 0x1_0000_0000
      modifies this, store.dev.mem, store.dev`points, store.dev`faults
      ensures Adds(old(store.dev.points), store.dev.points, old(Commits()))
      ensures Valid() && active == old(active) && slot == old(slot) && clean == old(clean)
      ensures ok ==> active && id < BLOB_COUNT && entry == old(entry).(blobs := old(entry).blobs[id := data])
      ensures ok ==> hdr[id].length == |data| > 0
      ensures ok ==> hdr[id] == meta.(offset := hdr[id].offset, length := |data|, crc := store.dev.crc(data))
      ensures ok ==> forall k :: 0 <= k < BLOB_COUNT && k != id ==> hdr[k] == old(hdr)[k]
      ensures !ok ==> hdr == old(hdr) && entry == old(entry) && cursor == old(cursor)
      ensures ok ==> cursor == AlignUp(old(cursor) + |data|, SECTOR) && hdr[id].offset == old(cursor)
      ensures old(store.dev.faults) <= store.dev.faults
      ensures ok <==>
        old(active) && id < BLOB_COUNT && data != [] && old(cursor) + |data| <= PART_SIZE && store.dev.faults == old(store.dev.faults)
    {
      hide Ready, Committed, Safe, AlignUp;
      if !active || id >= BLOB_COUNT || data == [] {
        return false;
      }
      var off := cursor;
      ReadyParts(store.dev.crc, store.dev.mem[..], store.dev.book, cursor, slot, entry);
      if (off + |data|) % 0x1_0000_0000 > PART_SIZE {
        return false;
      }
      ok := WriteSectors(data);
      if !ok {
        return;
      }
      ghost var img := store.dev.mem[..];
      var b := meta.(offset := off, length := |data|, crc := store.dev.crc(data));
      SectorsFit(off, |data|);
      var next := AlignUp(off + |data|, SECTOR);
      IndexTakesUp(img, hdr, entry, off, id, b, data, next);
      hide IndexOk, IndexBelow;
      ReadyFurther(store.dev.crc, img, store.dev.book, off, next, slot, entry, entry.(blobs := entry.blobs[id := data]));
      hdr := hdr[id := b];
      entry := entry.(blobs := entry.blobs[id := data]);
      cursor := next;
    }

    /** The header goes to the next free slot, which is used up either way. */
    method AppendHeader() returns (ok: bool)
      requires Valid() && active && slot < SLOT_COUNT
      modifies this, store.dev, store.dev.mem
      ensures store.dev.Valid() && InTransaction(store.dev.crc, store.dev.mem[..], store.dev.book, store.dev.key)
      ensures active && entry == old(entry) && hdr == old(hdr) && cursor == old(cursor) && store.dev.key == old(store.dev.key)
      ensures slot == old(slot) + 1 && Adds(old(store.dev.points), store.dev.points, old(Commits()))
      ensures store.dev.book == old(store.dev.book)[old(slot) := entry]
      ensures clean == (old(clean) && ok)
      ensures clean ==> IndexOf(Slot(store.dev.mem[..], old(slot))) == hdr
      ensures ok ==> SlotValid(store.dev.crc, store.dev.mem[..], old(slot)) && IndexOf(Slot(store.dev.mem[..], old(slot))) == hdr
      ensures forall k :: 0 <= k < SLOT_COUNT && k != old(slot) ==> Slot(store.dev.mem[..], k) == Slot(old(store.dev.mem[..]), k)
      ensures old(clean) ==> AdoptedNear(store.dev.crc, store.dev.mem[..], old(slot))
      ensures SlotValid(store.dev.crc, store.dev.mem[..], old(slot)) ==> IndexOf(Slot(store.dev.mem[..], old(slot))) == hdr
      ensures old(store.dev.faults) <= store.dev.faults && (ok <==> store.dev.faults == old(store.dev.faults))
    {
      hide Safe, CrashSafe, Torn, EncodeHeader, IndexOk, Ready, IndexBelow, Committed, Done, OpOk, IndexOf, Adopted, AdoptedNear, Slot, SlotValid, SlotErased;
      ghost var crc, img, book, s := store.dev.crc, store.dev.mem[..], store.dev.book, slot;
      FreeSlot(crc, img, book, cursor, s, entry);
      store.dev.Announce(s, entry);
      CommitIsCrashSafe(crc, img, store.dev.book, store.dev.key, s, hdr);
      ok := store.dev.Program(SlotOff(slot), EncodeHeader(store.dev.crc, hdr), Commits());
      clean := clean && ok;
      CommitKeeps(crc, img, store.dev.mem[..], book, cursor, s, entry, hdr, clean);
      SlotOpTouches(crc, img, store.dev.mem[..], s, hdr);
      ValidMeansWritten(crc, img, s, hdr, store.dev.mem[..]);
      if old(clean) {
        CommitIsNear(crc, img, s, hdr, store.dev.mem[..]);
      }
      slot := slot + 1;
    }

    /** The index is appended to the header sector, and the reader's copy refreshed from it. */
    method Commit() returns (ok: bool)
      requires Valid()
      modifies this, store, store.dev, store.dev.mem
      ensures Valid() && active == old(active) && entry == old(entry) && hdr == old(hdr) && store.dev.key == old(store.dev.key)
      ensures Adds(old(store.dev.points), store.dev.points, old(Commits()))
      ensures ok ==> old(active) && slot == old(slot) + 1
      ensures ok && clean ==> store.hdrValid && store.hdr == hdr && store.at == old(slot) && store.dev.book[store.at] == entry
      ensures clean == (old(clean) && (ok || !old(active) || old(slot) >= SLOT_COUNT))
      ensures old(active) && old(slot) < SLOT_COUNT ==> store.dev.book == old(store.dev.book)[old(slot) := entry]
      ensures old(active) && old(clean) && old(slot) < SLOT_COUNT ==> AdoptedNear(store.dev.crc, store.dev.mem[..], old(slot))
      ensures old(active) && old(slot) < SLOT_COUNT ==> slot == old(slot) + 1
      ensures old(active) && old(slot) < SLOT_COUNT && SlotValid(store.dev.crc, store.dev.mem[..], old(slot)) ==>
        IndexOf(Slot(store.dev.mem[..], old(slot))) == hdr
      ensures forall k :: 0 <= k < SLOT_COUNT && k != old(slot) ==> Slot(store.dev.mem[..], k) == Slot(old(store.dev.mem[..]), k)
      ensures ok ==> SlotValid(store.dev.crc, store.dev.mem[..], old(slot)) && IndexOf(Slot(store.dev.mem[..], old(slot))) == hdr
      ensures ok ==> ((store.hdrValid && store.at == old(slot)) <==> forall k :: 0 <= k < old(slot) ==> !SlotErased(store.dev.mem[..], k))
      ensures old(store.dev.faults) <= store.dev.faults
      ensures ok <==> old(active) && old(slot) < SLOT_COUNT && store.dev.faults == old(store.dev.faults)
      ensures cursor == old(cursor)
    {
      if !active || slot >= SLOT_COUNT {
        return false;
      }
      hide Safe, IndexOk, Ready, IndexBelow, Committed, IndexOf, Adopted, AdoptedNear;
      ok := AppendHeader();
      store.ReloadHeader();
      if ok {
        FreeSlot(store.dev.crc, store.dev.mem[..], store.dev.book, cursor, slot, entry);
        LatestFoundExactly(store.dev.crc, store.dev.mem[..], old(slot));
      }
      if clean {
        RecoversLastCommit(store.dev.crc, store.dev.mem[..], slot);
      }
    }

    /** Only a transaction that has committed nothing can be taken back. */
    method Abort()
      requires Valid()
      modifies this, store
      ensures Valid() && slot == old(slot)
      ensures !old(active) || old(slot) > 0 ==> active == old(active) && store.hdrValid == old(store.hdrValid)
      ensures old(active) && old(slot) == 0 ==> !active && !store.hdrValid
    {
      if !active || slot > 0 {
        return;
      }
      FreeSlot(store.dev.crc, store.dev.mem[..], store.dev.book, cursor, 0, entry);
      active := false;
      store.ReloadHeader();
    }
  }

  /** What a user of the store may call. */
  datatype Request = Begin(tag: string) | WriteBlob(id: nat, data: seq<byte>, meta: Blob) | Commit | Abort

  /** The calls of a transaction are for the cached path, if there is one, and blobs are no longer than 32 bits can say. */
  ghost predicate Allowed(key: Option<string>, r: Request) {
    match r
    case Begin(tag) => key.Some? ==> key.value == tag
    case WriteBlob(_, data, _) => |data| + PART_SIZE < 0x1_0000_0000
    case _ => true
  }

  /** Any sequence of requests, whatever each of them returns, is safe at every moment. */
  method Serve(w: Writer, requests: seq<Request>)
    requires w.Valid() && forall r <- requests :: Allowed(w.store.dev.key, r)
    modifies w, w.store, w.store.dev, w.store.dev.mem
    ensures w.Valid() && w.store.dev.Valid() && w.store.dev.key == old(w.store.dev.key)
    ensures old(w.store.dev.points) <= w.store.dev.points
    ensures forall p <- w.store.dev.points :: Recovers(w.store.dev.crc, p)
  {
    var i := 0;
    while i < |requests|
      invariant i <= |requests| && w.Valid() && w.store.dev.Valid() && w.store.dev.key == old(w.store.dev.key)
      invariant old(w.store.dev.points) <= w.store.dev.points
    {
      hide Safe, PointsSafe, Ready, IndexOk, IndexBelow, Committed;
      var ok;
      assert Allowed(w.store.dev.key, requests[i]);
      match requests[i] {
        case Begin(tag) => ok := w.Begin(tag);
        case WriteBlob(id, data, meta) => ok := w.WriteBlob(id, data, meta);
        case Commit => ok := w.Commit();
        case Abort => w.Abort();
      }
      i := i + 1;
    }
    FailsSafely(w.store.dev.crc, w.store.dev.points);
  }

  lemma FailsSafely(crc: Crc, points: seq<Point>)
    requires PointsSafe(crc, points)
    ensures forall p <- points :: Recovers(crc, p)
  {
    hide PointSafe, Recovers;
    forall p | p in points ensures Recovers(crc, p) {
      PointRecovers(crc, p);
    }
  }

  /** New moments, each in a transaction with these commits. */
  ghost predicate Adds(was: seq<Point>, points: seq<Point>, commits: Option<nat>) {
    was <= points && forall p <- points[|was|..] :: p.commits == commits
  }

  /** After a commit attempt on slot `s`: that slot is adopted, or the one before it. */
  ghost predicate AdoptedNear(crc: Crc, img: Image, s: nat) {
    Sound(img) &&
    var a := Adopted(crc, img);
    a == Some(s) || (if s == 0 then a == None else a == Some(s - 1))
  }

  /** A free slot that looks valid after a write to it, whatever the device said, holds the header that was written. */
  lemma ValidMeansWritten(crc: Crc, img: Image, s: nat, x: Index, img': Image)
    requires Sound(img) && s < SLOT_COUNT && !SlotValid(crc, img, s)
    requires OpOk(img, Flash.Program(SlotOff(s), EncodeHeader(crc, x)))
    requires Torn(crc, img, Flash.Program(SlotOff(s), EncodeHeader(crc, x)), img')
    ensures SlotValid(crc, img', s) ==> IndexOf(Slot(img', s)) == x
  {
    hide EncodeHeader, ValidHeader, IndexOf;
    HeaderRoundTrip(crc, x);
    assert Slot(Done(img, Flash.Program(SlotOff(s), EncodeHeader(crc, x))), s) == EncodeHeader(crc, x);
  }

  lemma CommitIsNear(crc: Crc, img: Image, k: nat, x: Index, img': Image)
    requires Sound(img) && k < SLOT_COUNT && Committed(crc, img, k)
    requires OpOk(img, Flash.Program(SlotOff(k), EncodeHeader(crc, x)))
    requires Torn(crc, img, Flash.Program(SlotOff(k), EncodeHeader(crc, x)), img')
    ensures AdoptedNear(crc, img', k)
  {
    hide Committed, OpOk, EncodeHeader, Adopted, SlotValid, Done;
    RecoversAfterTornCommit(crc, img, k, x, img');
  }

  /** The loop over the header slots: the last valid one before an erased one wins. */
  method LastValidSlot(crc: Crc, img: Image) returns (best: Option<nat>)
    requires Sound(img)
    ensures best == Adopted(crc, img)
  {
    best := None;
    var s := 0;
    assert AdoptFrom(crc, img, 0, best) == Adopted(crc, img);
    hide AdoptFrom, Adopted, ValidHeader, MagicOf, Slot;
    while s < SLOT_COUNT
      invariant s <= SLOT_COUNT
      invariant best.Some? ==> best.value < SLOT_COUNT && SlotValid(crc, img, best.value)
      invariant AdoptFrom(crc, img, s, best) == Adopted(crc, img)
    {
      AdoptStep(crc, img, s, best);
      var h := Slot(img, s);
      if MagicOf(h) == ERASED_MAGIC {
        return;
      }
      if ValidHeader(crc, h) {
        best := Some(s);
      }
      s := s + 1;
    }
    AdoptEnd(crc, img, best);
  }

  /** One turn of the loop over the slots. */
  lemma AdoptStep(crc: Crc, img: Image, s: nat, best: Option<nat>)
    requires Sound(img) && s < SLOT_COUNT && (best.Some? ==> best.value < SLOT_COUNT && SlotValid(crc, img, best.value))
    ensures AdoptFrom(crc, img, s, best) ==
      if MagicOf(Slot(img, s)) == ERASED_MAGIC then best
      else AdoptFrom(crc, img, s + 1, if ValidHeader(crc, Slot(img, s)) then Some(s) else best)
  {
  }

  lemma AdoptEnd(crc: Crc, img: Image, best: Option<nat>)
    requires Sound(img) && (best.Some? ==> best.value < SLOT_COUNT && SlotValid(crc, img, best.value))
    ensures AdoptFrom(crc, img, SLOT_COUNT, best) == best
  {
  }

  lemma SafeIsSound(crc: Crc, img: Image, book: seq<Entry>, key: Option<string>)
    requires Safe(crc, img, book, key)
    ensures Sound(img)
  {
  }

  // ---- what a transaction keeps -------------------------------------------------

  /** The cursor is past every indexed blob, the slots from `slot` on are free, and the valid ones are for one path. */
  ghost predicate Ready(crc: Crc, img: Image, book: seq<Entry>, cursor: nat, slot: nat, e: Entry) {
    && Sound(img) && |book| == SLOT_COUNT && slot <= SLOT_COUNT
    && DATA_BASE <= cursor <= PART_SIZE && cursor % SECTOR == 0
    && Below(crc, img, cursor)
    && (forall i :: SlotOff(slot) <= i < DATA_BASE ==> img[i] == ERASED)
    && (forall s :: 0 <= s < SLOT_COUNT && SlotValid(crc, img, s) ==> book[s].tag == e.tag)
  }

  lemma SectorsFit(off: nat, len: nat)
    requires off % SECTOR == 0 && off + len <= PART_SIZE && len > 0
    ensures off + AlignUp(len, SECTOR) <= PART_SIZE
    ensures AlignUp(off + len, SECTOR) % SECTOR == 0
    ensures off + len <= AlignUp(off + len, SECTOR) <= PART_SIZE
    ensures AlignUp(len, SECTOR) >= len
  {
  }

  ghost predicate IndexBelow(x: Index, cursor: nat) {
    forall id :: 0 <= id < BLOB_COUNT ==> x[id].length > 0 ==> x[id].offset + x[id].length <= cursor
  }

  lemma WipedIsReady(crc: Crc, img: Image, book: seq<Entry>, e: Entry)
    requires OpOk(img, Flash.Erase(0, SECTOR)) && |book| == SLOT_COUNT && e.blobs == [[], [], []]
    ensures var done := Done(img, Flash.Erase(0, SECTOR));
      Ready(crc, done, book, DATA_BASE, 0, e) && Committed(crc, done, 0) && IndexOk(done, [NoBlob, NoBlob, NoBlob], e)
  {
    var done := Done(img, Flash.Erase(0, SECTOR));
    forall s | 0 <= s < SLOT_COUNT ensures SlotErased(done, s) && !SlotValid(crc, done, s) {
      ErasedSlot(done, s);
    }
  }

  /** A blob operation at or past the cursor, however it ends, leaves the slots and the indexed blobs alone. */
  lemma BlobOpKeeps(crc: Crc, img: Image, op: Op, img': Image, book: seq<Entry>, cursor: nat, slot: nat, e: Entry, x: Index)
    requires Ready(crc, img, book, cursor, slot, e) && OpOk(img, op) && cursor <= op.off && Torn(crc, img, op, img')
    requires IndexOk(img, x, e) && IndexBelow(x, cursor)
    ensures forall s :: 0 <= s < SLOT_COUNT ==> Slot(img', s) == Slot(img, s)
    ensures Ready(crc, img', book, cursor, slot, e) && IndexOk(img', x, e)
    ensures Committed(crc, img, slot) ==> Committed(crc, img', slot)
  {
    UntouchedSlots(crc, img, op, img');
    assert Below(crc, img', cursor);
    forall s | 0 <= s < SLOT_COUNT && SlotValid(crc, img', s) ensures book[s].tag == e.tag {
      assert SlotValid(crc, img, s);
    }
    forall id | 0 <= id < BLOB_COUNT ensures BlobOk(img', x[id], e.blobs[id]) {
      var b := x[id];
      assert BlobOk(img, b, e.blobs[id]);
      if b.length > 0 {
        assert img'[b.offset..b.offset + b.length] == img[b.offset..b.offset + b.length];
      }
    }
    if Committed(crc, img, slot) {
      forall s | 0 <= s < SLOT_COUNT
        ensures if s < slot then SlotValid(crc, img', s) else SlotErased(img', s)
      {
        assert if s < slot then SlotValid(crc, img, s) else SlotErased(img, s);
      }
    }
  }

  lemma ReadyTags(crc: Crc, img: Image, book: seq<Entry>, cursor: nat, slot: nat, e: Entry)
    requires Ready(crc, img, book, cursor, slot, e)
    ensures forall s :: 0 <= s < SLOT_COUNT && SlotValid(crc, img, s) ==> book[s].tag == e.tag
  {
  }

  lemma ReadyParts(crc: Crc, img: Image, book: seq<Entry>, cursor: nat, slot: nat, e: Entry)
    requires Ready(crc, img, book, cursor, slot, e)
    ensures Below(crc, img, cursor) && DATA_BASE <= cursor <= PART_SIZE && cursor % SECTOR == 0
  {
  }

  /** A blob just written at the old cursor joins the index. */
  lemma IndexTakesUp(img: Image, x: Index, e: Entry, cursor: nat, id: nat, b: Blob, data: seq<byte>, next: nat)
    requires Sound(img) && IndexOk(img, x, e) && IndexBelow(x, cursor) && id < BLOB_COUNT
    requires b.offset == cursor && b.length == |data| > 0 && DATA_BASE <= cursor && cursor + |data| <= next <= PART_SIZE
    requires img[cursor..cursor + |data|] == data
    ensures var y: Index := x[id := b];
      IndexOk(img, y, e.(blobs := e.blobs[id := data])) && IndexBelow(y, next)
  {
    var y, f := x[id := b], e.blobs[id := data];
    forall k | 0 <= k < BLOB_COUNT ensures BlobOk(img, y[k], f[k]) {
      assert BlobOk(img, x[k], e.blobs[k]);
    }
  }

  lemma ReadyFurther(crc: Crc, img: Image, book: seq<Entry>, cursor: nat, further: nat, slot: nat, e: Entry, f: Entry)
    requires Ready(crc, img, book, cursor, slot, e) && f.tag == e.tag
    requires cursor <= further <= PART_SIZE && further % SECTOR == 0
    ensures Ready(crc, img, book, further, slot, f)
  {
  }

  lemma FreeSlot(crc: Crc, img: Image, book: seq<Entry>, cursor: nat, s: nat, e: Entry)
    requires Ready(crc, img, book, cursor, s, e)
    ensures forall k :: s <= k < SLOT_COUNT ==> SlotErased(img, k) && !SlotValid(crc, img, k)
    ensures s < SLOT_COUNT ==>
      forall data: seq<byte> :: |data| <= SLOT_STRIDE ==> OpOk(img, Flash.Program(SlotOff(s), data))
    ensures s == 0 ==> Adopted(crc, img) == None
  {
    forall k | s <= k < SLOT_COUNT ensures SlotErased(img, k) && !SlotValid(crc, img, k) {
      ErasedSlot(img, k);
    }
    if s < SLOT_COUNT {
      assert SlotOff(s) + SLOT_STRIDE <= DATA_BASE;
    }
  }

  /** Programming the header of slot `s`, however it ends, leaves the other slots and all blobs alone. */
  lemma SlotOpTouches(crc: Crc, img: Image, img': Image, s: nat, x: Index)
    requires Sound(img) && s < SLOT_COUNT
    requires OpOk(img, Flash.Program(SlotOff(s), EncodeHeader(crc, x)))
    requires Torn(crc, img, Flash.Program(SlotOff(s), EncodeHeader(crc, x)), img')
    ensures Sound(img') && img[DATA_BASE..] == img'[DATA_BASE..]
    ensures forall k :: 0 <= k < SLOT_COUNT && k != s ==> Slot(img', k) == Slot(img, k)
    ensures forall i :: SlotOff(s + 1) <= i < DATA_BASE ==> img'[i] == img[i]
    ensures SlotValid(crc, img', s) && !SlotValid(crc, img, s) ==> IndexOf(Slot(img', s)) == x
    ensures img' == Done(img, Flash.Program(SlotOff(s), EncodeHeader(crc, x))) ==> SlotValid(crc, img', s) && IndexOf(Slot(img', s)) == x
  {
    var op := Flash.Program(SlotOff(s), EncodeHeader(crc, x));
    HeaderRoundTrip(crc, x);
    assert Slot(Done(img, op), s) == EncodeHeader(crc, x);
    hide EncodeHeader, ValidHeader, IndexOf;
    assert SlotOff(s) + SLOT_STRIDE <= DATA_BASE;
    forall k | 0 <= k < SLOT_COUNT && k != s ensures Slot(img', k) == Slot(img, k) {
      OtherSlot(crc, img, op, img', s, k);
    }
  }

  lemma CommitKeepsBelow(crc: Crc, img: Image, img': Image, cursor: nat, s: nat, x: Index)
    requires Sound(img) && Sound(img') && s < SLOT_COUNT && Below(crc, img, cursor) && IndexBelow(x, cursor)
    requires forall k :: 0 <= k < SLOT_COUNT && k != s ==> Slot(img', k) == Slot(img, k)
    requires SlotValid(crc, img', s) ==> IndexOf(Slot(img', s)) == x
    ensures Below(crc, img', cursor)
  {
    hide IndexOf, ValidHeader, Slot;
    forall k, id | 0 <= k < SLOT_COUNT && 0 <= id < BLOB_COUNT && SlotValid(crc, img', k)
      ensures var b := IndexOf(Slot(img', k))[id]; b.length > 0 ==> b.offset + b.length <= cursor
    {
      if k != s {
        assert Slot(img', k) == Slot(img, k);
        assert SlotValid(crc, img, k);
      }
    }
  }

  /** A commit, however it ends, uses up its slot; one that completes is one more commit. */
  lemma CommitKeeps(crc: Crc, img: Image, img': Image, book: seq<Entry>, cursor: nat, s: nat, e: Entry, x: Index, clean: bool)
    requires Ready(crc, img, book, cursor, s, e) && s < SLOT_COUNT && IndexOk(img, x, e) && IndexBelow(x, cursor)
    requires var op := Flash.Program(SlotOff(s), EncodeHeader(crc, x));
      OpOk(img, op) && Torn(crc, img, op, img') && (clean ==> img' == Done(img, op) && Committed(crc, img, s))
    ensures Ready(crc, img', book[s := e], cursor, s + 1, e) && IndexOk(img', x, e)
    ensures clean ==> Committed(crc, img', s + 1) && IndexOf(Slot(img', s)) == x
  {
    FreeSlot(crc, img, book, cursor, s, e);
    SlotOpTouches(crc, img, img', s, x);
    BlobsUntouched(img, img', x, e);
    CommitKeepsBelow(crc, img, img', cursor, s, x);
    CommitKeepsTags(crc, img, img', book, s, e);
    hide Torn, EncodeHeader, ValidHeader, IndexOf, Below, IndexOk, Slot, OpOk, Done, SlotErased, SlotValid, Committed, IndexBelow;
    ReadyAgain(crc, img, img', book, cursor, s, e);
    hide Ready;
    if clean {
      CommitCounts(crc, img, img', s);
    }
  }

  lemma ReadyAgain(crc: Crc, img: Image, img': Image, book: seq<Entry>, cursor: nat, s: nat, e: Entry)
    requires Ready(crc, img, book, cursor, s, e) && s < SLOT_COUNT && Sound(img') && Below(crc, img', cursor)
    requires forall i :: SlotOff(s + 1) <= i < DATA_BASE ==> img'[i] == img[i]
    requires forall k :: 0 <= k < SLOT_COUNT && SlotValid(crc, img', k) ==> book[s := e][k].tag == e.tag
    ensures Ready(crc, img', book[s := e], cursor, s + 1, e)
  {
    hide Below, ValidHeader, Slot;
  }

  lemma CommitKeepsTags(crc: Crc, img: Image, img': Image, book: seq<Entry>, s: nat, e: Entry)
    requires Sound(img) && Sound(img') && s < SLOT_COUNT == |book|
    requires forall k :: 0 <= k < SLOT_COUNT && k != s ==> Slot(img', k) == Slot(img, k)
    requires forall k :: 0 <= k < SLOT_COUNT && SlotValid(crc, img, k) ==> book[k].tag == e.tag
    ensures forall k :: 0 <= k < SLOT_COUNT && SlotValid(crc, img', k) ==> book[s := e][k].tag == e.tag
  {
    hide Slot, ValidHeader;
    forall k | 0 <= k < SLOT_COUNT && SlotValid(crc, img', k) ensures book[s := e][k].tag == e.tag {
      if k != s {
        assert Slot(img', k) == Slot(img, k);
        assert SlotValid(crc, img, k);
      }
    }
  }

  lemma CommitCounts(crc: Crc, img: Image, img': Image, s: nat)
    requires Sound(img) && Sound(img') && s < SLOT_COUNT && Committed(crc, img, s) && SlotValid(crc, img', s)
    requires forall k :: 0 <= k < SLOT_COUNT && k != s ==> Slot(img', k) == Slot(img, k)
    ensures Committed(crc, img', s + 1)
  {
    hide Slot, ValidHeader, MagicOf;
    forall k | 0 <= k < SLOT_COUNT
      ensures if k < s + 1 then SlotValid(crc, img', k) else SlotErased(img', k)
    {
      if k != s {
        assert Slot(img', k) == Slot(img, k);
        assert if k < s then SlotValid(crc, img, k) else SlotErased(img, k);
      }
    }
  }
}
