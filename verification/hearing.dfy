/** What the application has learned from the events it has handled: its incoming state as a function of that history. */
module Hearing {
  import opened Wire
  import opened Engine
  import opened Links
  import opened System
  import opened Guarantees
  import opened Transfer
  import opened Carrying
  import opened Sending

  // ---- histories ----------------------------------------------------------

  ghost predicate SaidOpen(es: seq<Event>, id: u16, kind: u16) {
    exists o: Opts :: Opened(id, o) in es && o.kind == kind
  }

  /** Every event came in its time. */
  ghost predicate Tidy(role: Role, es: seq<Event>) {
    forall i :: 0 <= i < |es| ==> Timely(role, es[..i], es[i])
  }

  lemma TidyGrows(role: Role, es: seq<Event>, ds: seq<Event>)
    requires Tidy(role, es) && Raises(role, es, ds)
    ensures Tidy(role, ds)
  {
    forall i | 0 <= i < |ds| ensures Timely(role, ds[..i], ds[i]) {
      if i < |es| {
        assert ds[i] == es[i] && ds[..i] == es[..i];
      } else {
        assert ds[..i] == es;
      }
    }
  }

  /** After its end nothing more is read from a stream, and its end is not reported twice. */
  lemma EndedMeansSilent(role: Role, es: seq<Event>, e: Event, id: u16)
    requires Timely(role, es, e) && (e.Data? || e.Finished?) && e.id == id
    ensures Finished(id) !in es
  {
    if Finished(id) in es {
      InEventsOf(es, Finished(id), id);
    }
  }

  /** Only one stream of each kind was opened, each before anything else happened on it. */
  ghost predicate Distinct(es: seq<Event>, e: Event) {
    && (forall i: u16, j: u16, k: u16 :: SaidOpen(es + [e], i, k) && SaidOpen(es + [e], j, k) ==> i == j)
    && (e.Opened? ==> forall o: Opts :: Opened(e.id, o) !in es)
    && (e.Opened? ==> Read(es, e.id) == [] && Finished(e.id) !in es)
  }

  lemma SaidStays(es: seq<Event>, e: Event, id: u16, kind: u16)
    requires SaidOpen(es, id, kind)
    ensures SaidOpen(es + [e], id, kind)
  {
    var o: Opts :| Opened(id, o) in es && o.kind == kind;
    assert Opened(id, o) in es + [e];
  }

  // ---- what was heard -------------------------------------------------------

  ghost predicate KindsInv(a: App, es: seq<Event>) {
    && (forall id <- a.inc.kinds :: SaidOpen(es, id, a.inc.kinds[id]))
    && (a.gotPeerAck ==> exists id: u16 :: SaidOpen(es, id, KIND_ACK))
  }

  ghost predicate HelloInv(a: App, es: seq<Event>) {
    && (forall id <- a.inc.kinds :: a.inc.kinds[id] == KIND_HELLO ==> a.inc.hello == Cut(Read(es, id), HELLO_RX_MAX))
    && (a.inc.hello != [] ==> exists id: u16 :: SaidOpen(es, id, KIND_HELLO) && id in a.inc.kinds)
  }

  /** What becomes of a card's bytes in the temporary file: nothing if there is no file, and what fits otherwise. */
  ghost function Stored(cfg: Config, bytes: seq<byte>): seq<byte> {
    if cfg.canOpen then Cut(bytes, cfg.room) else []
  }

  /** The file is what can be stored of the bytes read; that it is not all of them is a failure. */
  ghost predicate CardFile(a: App, es: seq<Event>, id: u16) {
    && a.inc.file == Stored(a.cfg, Read(es, id))
    && (a.inc.fileOpen <==> a.cfg.canOpen && Finished(id) !in es)
    && (!a.failed ==> a.cfg.canOpen && |Read(es, id)| <= a.cfg.room)
  }

  ghost predicate FileInv(a: App, es: seq<Event>) {
    && a.inc.disk + |a.inc.file| == a.cfg.room
    && (forall id <- a.inc.kinds :: a.inc.kinds[id] == KIND_CARD ==> CardFile(a, es, id))
    && (a.inc.file != [] ==> exists id <- a.inc.kinds :: a.inc.kinds[id] == KIND_CARD)
  }

  ghost predicate HeardEnd(a: App, es: seq<Event>, kind: u16) {
    exists id <- a.inc.kinds :: a.inc.kinds[id] == kind && Finished(id) in es
  }

  ghost predicate EndsInv(a: App, es: seq<Event>) {
    && (a.inc.complete ==> HeardEnd(a, es, KIND_CARD))
    && (a.deal.ready ==> HeardEnd(a, es, KIND_HELLO))
  }

  ghost predicate HeardInv(a: App, es: seq<Event>) {
    KindsInv(a, es) && HelloInv(a, es) && FileInv(a, es) && EndsInv(a, es)
  }

  // ---- one more event ---------------------------------------------------------

  /** `a1` knows what `a` knew. */
  ghost predicate SameKnowledge(a: App, a1: App) {
    a1.inc == a.inc && a1.cfg == a.cfg && a1.gotPeerAck == a.gotPeerAck && (a.failed ==> a1.failed)
  }

  lemma KnowledgeKeeps(a: App, a1: App, es: seq<Event>)
    requires HeardInv(a, es) && SameKnowledge(a, a1) && (a1.deal.ready ==> HeardEnd(a, es, KIND_HELLO))
    ensures HeardInv(a1, es)
  {
    assert HeardEnd(a, es, KIND_CARD) == HeardEnd(a1, es, KIND_CARD);
    assert HeardEnd(a, es, KIND_HELLO) == HeardEnd(a1, es, KIND_HELLO);
  }

  lemma EndStays(a: App, es: seq<Event>, e: Event, kind: u16)
    requires HeardEnd(a, es, kind)
    ensures HeardEnd(a, es + [e], kind)
  {
    var id :| id in a.inc.kinds && a.inc.kinds[id] == kind && Finished(id) in es;
    assert Finished(id) in es + [e];
  }

  lemma KindsCarry(a: App, es: seq<Event>, e: Event)
    requires KindsInv(a, es)
    ensures KindsInv(a, es + [e])
  {
    forall id | id in a.inc.kinds ensures SaidOpen(es + [e], id, a.inc.kinds[id]) {
      SaidStays(es, e, id, a.inc.kinds[id]);
    }
    if a.gotPeerAck {
      var id: u16 :| SaidOpen(es, id, KIND_ACK);
      SaidStays(es, e, id, KIND_ACK);
    }
  }

  lemma EndsCarry(a: App, es: seq<Event>, e: Event)
    requires EndsInv(a, es)
    ensures EndsInv(a, es + [e])
  {
    if a.inc.complete { EndStays(a, es, e, KIND_CARD); }
    if a.deal.ready { EndStays(a, es, e, KIND_HELLO); }
  }

  /** An event that brings no data and ends no card leaves everything as it was. */
  lemma QuietEvent(a: App, es: seq<Event>, e: Event)
    requires HeardInv(a, es) && !e.Data? && (e.Finished? ==> KindOf(a.inc, e.id) != KIND_CARD)
    ensures HeardInv(a, es + [e])
  {
    hide SaidOpen, Read, CardFile;
    KindsCarry(a, es, e);
    EndsCarry(a, es, e);
    forall id: u16 ensures Read(es + [e], id) == Read(es, id) {
      ReadOne(es, e, id);
      assert Read(es, id) + [] == Read(es, id);
    }
    HelloCarries(a, es, e);
    FileCarries(a, es, e);
  }

  lemma HelloCarries(a: App, es: seq<Event>, e: Event)
    requires HelloInv(a, es)
    requires forall id <- a.inc.kinds :: a.inc.kinds[id] == KIND_HELLO ==> Read(es + [e], id) == Read(es, id)
    ensures HelloInv(a, es + [e])
  {
    hide SaidOpen, Read;
    if a.inc.hello != [] {
      var id: u16 :| SaidOpen(es, id, KIND_HELLO) && id in a.inc.kinds;
      SaidStays(es, e, id, KIND_HELLO);
    }
  }

  lemma FileCarries(a: App, es: seq<Event>, e: Event)
    requires FileInv(a, es)
    requires forall id <- a.inc.kinds :: a.inc.kinds[id] == KIND_CARD ==> Read(es + [e], id) == Read(es, id) && e != Finished(id)
    ensures FileInv(a, es + [e])
  {
    hide Read, Stored;
    forall id | id in a.inc.kinds && a.inc.kinds[id] == KIND_CARD ensures CardFile(a, es + [e], id) {
      assert CardFile(a, es, id);
    }
  }

  // ---- a stream is opened -------------------------------------------------------

  lemma OpenedKinds(a: App, es: seq<Event>, id: u16, o: Opts)
    requires KindsInv(a, es)
    ensures KindsInv(OnOpened(a, id, o), es + [Opened(id, o)])
  {
    KindsCarry(a, es, Opened(id, o));
    assert Opened(id, o) in es + [Opened(id, o)];
    assert SaidOpen(es + [Opened(id, o)], id, o.kind);
    if o.kind == KIND_CARD {} else if o.kind == KIND_ACK {} else {}
  }

  lemma NewStreamIsNew(a: App, es: seq<Event>, id: u16, o: Opts)
    requires KindsInv(a, es) && Distinct(es, Opened(id, o))
    ensures id !in a.inc.kinds
    ensures forall j <- a.inc.kinds :: a.inc.kinds[j] != o.kind
  {
    forall j | j in a.inc.kinds ensures a.inc.kinds[j] != o.kind && j != id {
      SaidStays(es, Opened(id, o), j, a.inc.kinds[j]);
      assert Opened(id, o) in es + [Opened(id, o)];
      assert SaidOpen(es + [Opened(id, o)], id, o.kind);
    }
  }

  lemma HelloIsFirst(a: App, es: seq<Event>, id: u16, o: Opts)
    requires KindsInv(a, es) && HelloInv(a, es) && Distinct(es, Opened(id, o)) && o.kind == KIND_HELLO
    ensures a.inc.hello == []
  {
    if a.inc.hello != [] {
      var j: u16 :| SaidOpen(es, j, KIND_HELLO) && j in a.inc.kinds;
      SaidStays(es, Opened(id, o), j, KIND_HELLO);
      NewStreamIsNew(a, es, id, o);
      assert Opened(id, o) in es + [Opened(id, o)];
      assert SaidOpen(es + [Opened(id, o)], id, KIND_HELLO);
    }
  }

  lemma HeardOpened(a: App, es: seq<Event>, id: u16, o: Opts)
    requires HeardInv(a, es) && Distinct(es, Opened(id, o))
    ensures HeardInv(OnOpened(a, id, o), es + [Opened(id, o)])
  {
    hide OnOpened, KindsInv, HelloInv, FileInv, EndsInv, Distinct, Read;
    var e, a1 := Opened(id, o), OnOpened(a, id, o);
    OpenedFields(a, id, o);
    OpenedKinds(a, es, id, o);
    NewStreamIsNew(a, es, id, o);
    assert a1.inc.kinds == a.inc.kinds[id := o.kind] && a1.inc.hello == a.inc.hello && a1.deal == a.deal && a1.inc.complete == a.inc.complete;
    forall j: u16 ensures Read(es + [e], j) == Read(es, j) {
      ReadOne(es, e, j);
      assert Read(es, j) + [] == Read(es, j);
    }
    EndsCarry(a, es, e);
    OpenedEnds(a, a1, es + [e], id, o);
    OpenedHello(a, a1, es, id, o);
    OpenedFile(a, es, id, o);
  }

  lemma OpenedFields(a: App, id: u16, o: Opts)
    ensures var a1 := OnOpened(a, id, o);
      && a1.inc.kinds == a.inc.kinds[id := o.kind] && a1.inc.hello == a.inc.hello && a1.deal == a.deal && a1.inc.complete == a.inc.complete
      && a1.cfg == a.cfg && a1.inc.disk == a.inc.disk
      && (o.kind == KIND_CARD ==> a1.inc.file == [] && a1.inc.fileOpen == a.cfg.canOpen && (!a1.failed ==> a.cfg.canOpen))
      && (o.kind != KIND_CARD ==> a1.inc.file == a.inc.file && a1.inc.fileOpen == a.inc.fileOpen && a1.failed == a.failed)
  {
    if o.kind == KIND_CARD {} else if o.kind == KIND_ACK {} else {}
  }

  lemma OpenedEnds(a: App, a1: App, es: seq<Event>, id: u16, o: Opts)
    requires EndsInv(a, es) && id !in a.inc.kinds
    requires a1.inc.kinds == a.inc.kinds[id := o.kind] && a1.deal == a.deal && a1.inc.complete == a.inc.complete
    ensures EndsInv(a1, es)
  {
    forall kind: u16 | HeardEnd(a, es, kind) ensures HeardEnd(a1, es, kind) {
      var j :| j in a.inc.kinds && a.inc.kinds[j] == kind && Finished(j) in es;
      assert j in a1.inc.kinds;
    }
  }

  lemma OpenedHello(a: App, a1: App, es: seq<Event>, id: u16, o: Opts)
    requires KindsInv(a, es) && HelloInv(a, es) && Distinct(es, Opened(id, o)) && id !in a.inc.kinds
    requires a1.inc.kinds == a.inc.kinds[id := o.kind] && a1.inc.hello == a.inc.hello
    requires forall j: u16 :: Read(es + [Opened(id, o)], j) == Read(es, j)
    ensures HelloInv(a1, es + [Opened(id, o)])
  {
    hide SaidOpen, Read;
    var e := Opened(id, o);
    if o.kind == KIND_HELLO {
      HelloIsFirst(a, es, id, o);
      NewStreamIsNew(a, es, id, o);
    } else {
      HelloCarries(a, es, e);
    }
  }

  lemma OpenedFile(a: App, es: seq<Event>, id: u16, o: Opts)
    requires KindsInv(a, es) && FileInv(a, es) && Distinct(es, Opened(id, o)) && id !in a.inc.kinds
    requires forall j: u16 :: Read(es + [Opened(id, o)], j) == Read(es, j)
    ensures FileInv(OnOpened(a, id, o), es + [Opened(id, o)])
  {
    hide Read, OnOpened, KindsInv, CardFile, SaidOpen;
    var a1, es1 := OnOpened(a, id, o), es + [Opened(id, o)];
    OpenedFields(a, id, o);
    NewStreamIsNew(a, es, id, o);
    if o.kind == KIND_CARD {
      FreshFile(a1, es, id, o);
      assert id in a1.inc.kinds;
    } else {
      FileCarries(a, es, Opened(id, o));
      forall j | j in a1.inc.kinds && a1.inc.kinds[j] == KIND_CARD ensures CardFile(a1, es1, j) {
        assert CardFile(a, es1, j);
        SameCardFile(a, a1, es1, j);
      }
      if a1.inc.file != [] {
        var j :| j in a.inc.kinds && a.inc.kinds[j] == KIND_CARD;
        assert j in a1.inc.kinds && a1.inc.kinds[j] == KIND_CARD;
      }
    }
  }

  lemma FreshFile(a: App, es: seq<Event>, id: u16, o: Opts)
    requires Distinct(es, Opened(id, o)) && Read(es + [Opened(id, o)], id) == Read(es, id)
    requires a.inc.file == [] && a.inc.fileOpen == a.cfg.canOpen && (!a.failed ==> a.cfg.canOpen)
    ensures CardFile(a, es + [Opened(id, o)], id)
  {
    hide Read, SaidOpen;
  }

  lemma SameCardFile(a: App, a1: App, es: seq<Event>, id: u16)
    requires CardFile(a, es, id) && a1.cfg == a.cfg && a1.inc.file == a.inc.file && a1.inc.fileOpen == a.inc.fileOpen && (a.failed ==> a1.failed)
    ensures CardFile(a1, es, id)
  {
    hide Read;
  }

  // ---- data arrives ---------------------------------------------------------------

  lemma OneHello(a: App, es: seq<Event>, e: Event, i: u16, j: u16)
    requires KindsInv(a, es) && Distinct(es, e) && i in a.inc.kinds && j in a.inc.kinds && a.inc.kinds[i] == a.inc.kinds[j]
    ensures i == j
  {
    SaidStays(es, e, i, a.inc.kinds[i]);
    SaidStays(es, e, j, a.inc.kinds[i]);
  }

  lemma CutAppend(x: seq<byte>, y: seq<byte>, room: nat, n: nat)
    requires n == (if |y| <= room - |Cut(x, room)| then |y| else room - |Cut(x, room)|)
    ensures Cut(x + y, room) == Cut(x, room) + y[..n]
  {
  }

  lemma HeardData(role: Role, a: App, es: seq<Event>, id: u16, bytes: seq<byte>)
    requires HeardInv(a, es) && Distinct(es, Data(id, bytes)) && Timely(role, es, Data(id, bytes))
    ensures HeardInv(OnData(a, id, bytes), es + [Data(id, bytes)])
  {
    hide Read, SaidOpen, Distinct, Timely, OnData, KindsInv, HelloInv, FileInv, EndsInv;
    var e, a1 := Data(id, bytes), OnData(a, id, bytes);
    DataFields(a, id, bytes);
    forall j: u16 ensures Read(es + [e], j) == Read(es, j) + if j == id then bytes else [] {
      ReadOne(es, e, j);
    }
    forall j: u16 ensures Read(es, j) + [] == Read(es, j) {
    }
    KindsCarry(a, es, e);
    SameKinds(a, a1, es + [e]);
    EndsCarry(a, es, e);
    SameEnds(a, a1, es + [e]);
    if KindOf(a.inc, id) == KIND_HELLO {
      HelloData(a, es, id, bytes);
    } else {
      HelloCarries(a, es, e);
      SameHello(a, a1, es + [e]);
    }
    if KindOf(a.inc, id) == KIND_CARD {
      EndedMeansSilent(role, es, e, id);
      CardData(a, es, id, bytes);
    } else {
      FileCarries(a, es, e);
      SameFile(a, a1, es + [e]);
    }
  }

  lemma DataFields(a: App, id: u16, bytes: seq<byte>)
    ensures var a1 := OnData(a, id, bytes);
      && a1.inc.kinds == a.inc.kinds && a1.gotPeerAck == a.gotPeerAck && a1.deal == a.deal && a1.inc.complete == a.inc.complete
      && a1.inc.fileOpen == a.inc.fileOpen && a1.cfg == a.cfg
      && (KindOf(a.inc, id) != KIND_HELLO ==> a1.inc.hello == a.inc.hello)
      && (KindOf(a.inc, id) != KIND_CARD ==> a1.inc.file == a.inc.file && a1.inc.disk == a.inc.disk && a1.failed == a.failed)
  {
    if KindOf(a.inc, id) == KIND_HELLO {} else if KindOf(a.inc, id) == KIND_CARD && a.inc.fileOpen {} else {}
  }

  lemma SameKinds(a: App, a1: App, es: seq<Event>)
    requires KindsInv(a, es) && a1.inc.kinds == a.inc.kinds && a1.gotPeerAck == a.gotPeerAck
    ensures KindsInv(a1, es)
  {
  }

  lemma SameHello(a: App, a1: App, es: seq<Event>)
    requires HelloInv(a, es) && a1.inc.kinds == a.inc.kinds && a1.inc.hello == a.inc.hello
    ensures HelloInv(a1, es)
  {
  }

  lemma SameFile(a: App, a1: App, es: seq<Event>)
    requires FileInv(a, es) && a1.inc.kinds == a.inc.kinds && a1.inc.file == a.inc.file && a1.inc.disk == a.inc.disk
    requires a1.inc.fileOpen == a.inc.fileOpen && a1.cfg == a.cfg && (a.failed ==> a1.failed)
    ensures FileInv(a1, es)
  {
    hide CardFile;
    forall id | id in a.inc.kinds && a.inc.kinds[id] == KIND_CARD ensures CardFile(a1, es, id) {
      SameCardFile(a, a1, es, id);
    }
  }

  lemma SameEnds(a: App, a1: App, es: seq<Event>)
    requires EndsInv(a, es) && a1.inc.kinds == a.inc.kinds && a1.deal == a.deal && a1.inc.complete == a.inc.complete
    ensures EndsInv(a1, es)
  {
    assert HeardEnd(a, es, KIND_CARD) == HeardEnd(a1, es, KIND_CARD);
    assert HeardEnd(a, es, KIND_HELLO) == HeardEnd(a1, es, KIND_HELLO);
  }

  lemma HelloData(a: App, es: seq<Event>, id: u16, bytes: seq<byte>)
    requires KindsInv(a, es) && HelloInv(a, es) && Distinct(es, Data(id, bytes)) && KindOf(a.inc, id) == KIND_HELLO
    requires Read(es + [Data(id, bytes)], id) == Read(es, id) + bytes
    ensures HelloInv(OnData(a, id, bytes), es + [Data(id, bytes)])
  {
    hide Read, Distinct;
    var e := Data(id, bytes);
    var n := if |bytes| <= HelloRoom(a.inc) then |bytes| else HelloRoom(a.inc);
    CutAppend(Read(es, id), bytes, HELLO_RX_MAX, n);
    forall j | j in a.inc.kinds && a.inc.kinds[j] == KIND_HELLO ensures j == id {
      OneHello(a, es, e, j, id);
    }
    SaidStays(es, e, id, KIND_HELLO);
  }

  lemma CardData(a: App, es: seq<Event>, id: u16, bytes: seq<byte>)
    requires KindsInv(a, es) && FileInv(a, es) && Distinct(es, Data(id, bytes)) && KindOf(a.inc, id) == KIND_CARD
    requires Finished(id) !in es
    requires Read(es + [Data(id, bytes)], id) == Read(es, id) + bytes
    ensures FileInv(OnData(a, id, bytes), es + [Data(id, bytes)])
  {
    hide Read, Distinct, SaidOpen, CardFile;
    var e := Data(id, bytes);
    forall j | j in a.inc.kinds && a.inc.kinds[j] == KIND_CARD ensures j == id {
      OneHello(a, es, e, j, id);
    }
    assert CardFile(a, es, id);
    MoreFile(a, es, id, bytes);
    DataFields(a, id, bytes);
  }

  lemma MoreFile(a: App, es: seq<Event>, id: u16, bytes: seq<byte>)
    requires CardFile(a, es, id) && KindOf(a.inc, id) == KIND_CARD && Finished(id) !in es
    requires a.inc.disk + |a.inc.file| == a.cfg.room
    requires Read(es + [Data(id, bytes)], id) == Read(es, id) + bytes
    ensures var a1 := OnData(a, id, bytes);
      CardFile(a1, es + [Data(id, bytes)], id) && a1.inc.disk + |a1.inc.file| == a.cfg.room
  {
    hide Read;
    var w := if |bytes| <= a.inc.disk then |bytes| else a.inc.disk;
    if a.cfg.canOpen {
      CutAppend(Read(es, id), bytes, a.cfg.room, w);
    }
  }

  // ---- a stream ends ----------------------------------------------------------------

  ghost function Closed(a: App): App {
    a.(inc := a.inc.(fileOpen := false, complete := true))
  }

  lemma HeardCardEnd(a: App, es: seq<Event>, id: u16)
    requires HeardInv(a, es) && Distinct(es, Finished(id)) && KindOf(a.inc, id) == KIND_CARD
    ensures HeardInv(Closed(a), es + [Finished(id)])
  {
    hide Read, SaidOpen, Distinct, CardFile;
    var e, es1 := Finished(id), es + [Finished(id)];
    forall j: u16 ensures Read(es1, j) == Read(es, j) {
      ReadOne(es, e, j);
      assert Read(es, j) + [] == Read(es, j);
    }
    KindsCarry(a, es, e);
    HelloCarries(a, es, e);
    EndsCarry(a, es, e);
    assert e in es1;
    assert HeardEnd(a, es1, KIND_HELLO) == HeardEnd(Closed(a), es1, KIND_HELLO);
    assert HeardEnd(Closed(a), es1, KIND_CARD);
    forall j | j in a.inc.kinds && a.inc.kinds[j] == KIND_CARD ensures j == id {
      OneHello(a, es, e, j, id);
    }
    assert CardFile(a, es, id);
    WholeFile(a, es, id);
  }

  lemma WholeFile(a: App, es: seq<Event>, id: u16)
    requires CardFile(a, es, id) && Read(es + [Finished(id)], id) == Read(es, id)
    ensures CardFile(Closed(a), es + [Finished(id)], id)
  {
    hide Read;
    assert Finished(id) in es + [Finished(id)];
  }
}
