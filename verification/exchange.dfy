/**
 Two sides exchanging cards over two sessions. The callbacks run inside the sessions, so a session's next step comes
 only after its last event was handled. What is shown: an acknowledged card has been handed over in full.
 */
module Exchange {
  import opened Options
  import opened Wire
  import opened Engine
  import opened Links
  import opened System
  import opened Guarantees
  import opened Transfer
  import opened Carrying
  import opened Sending
  import opened Hearing

  // ---- what the application asked of its session ------------------------------------

  function Count<T>(o: Option<T>): nat {
    if o.Some? then 1 else 0
  }

  ghost predicate Named(a: App, id: u16, kind: u16) {
    || (kind == KIND_HELLO && a.helloId == Some(id))
    || (kind == KIND_CARD && a.out.card == Some(id))
    || (kind == KIND_ACK && a.ackId == Some(id))
  }

  /** At most three streams are ever opened, one of each kind. */
  ghost predicate OptsInv(a: App, s: Sess) {
    && s.opens == Count(a.helloId) + Count(a.out.card) + Count(a.ackId)
    && (forall id <- s.opts :: Named(a, id, s.opts[id].kind))
    && (a.helloId.Some? ==> a.helloSent)
    && (a.ackId.Some? ==> a.ackSent)
  }

  ghost predicate HelloSaid(a: App, s: Sess) {
    a.helloId.Some? ==>
      var h := a.helloId.value;
      h in s.opts && s.opts[h].kind == KIND_HELLO && Written(s, h) == Cut(HelloBytes(a.cfg), s.window)
  }

  ghost predicate CardSaid(a: App, s: Sess) {
    a.out.card.Some? ==>
      var c := a.out.card.value;
      && PumpOk(a.out) && CardInv(a.out, s) && c in s.opts && s.opts[c].kind == KIND_CARD
      && a.cfg.own.Some? && a.out.stream.value.pdf == a.cfg.own.value.pdf && a.out.stream.value.end == a.cfg.own.value.end
  }

  ghost predicate DealInv(a: App) {
    && (a.deal.willSend <==> a.out.card.Some?)
    && (a.out.card.None? ==> a.out.buf == [] && a.out.off == 0 && !a.out.done)
    && (a.deal.willSend ==> a.deal.ready && a.cfg.offer && a.deal.peerAccept)
    && (a.deal.ready ==> (a.deal.willRecv <==> a.deal.peerOffer && a.cfg.accept))
    && (a.ackSent ==> a.deal.ready && (a.deal.willRecv ==> a.inc.complete))
  }

  /** The application and its session agree on what was asked. */
  ghost predicate Asked(t: Side, b: Sess) {
    AppOk(t.a) && NoPause(t.s) && Linked(t.s, b) && OptsInv(t.a, t.s) && HelloSaid(t.a, t.s) && CardSaid(t.a, t.s) && DealInv(t.a)
  }

  /** The application knows no more than before, and its session raised nothing. */
  ghost predicate Quiet(t: Side, u: Side) {
    && SameKnowledge(t.a, u.a) && u.a.seen == t.a.seen
    && u.s.trace == t.s.trace && u.s.role == t.s.role && u.s.window == t.s.window
  }

  // ---- each call keeps it -------------------------------------------------------

  lemma OnlyWroteKeepsNoPause(s: Sess, t: Sess, id: u16)
    requires OnlyWrote(s, t, id) && NoPause(s)
    ensures NoPause(t)
  {
  }

  lemma OnlyWroteKeepsOthers(s: Sess, t: Sess, id: u16, k: u16)
    requires OnlyWrote(s, t, id) && k != id
    ensures Written(t, k) == Written(s, k)
    ensures k in s.streams ==> k in t.streams && t.streams[k] == s.streams[k]
  {
    assert Lookup(t.wrote, k) == Lookup(s.wrote, k);
  }

  /** Writing to a stream that is not the card's, or finishing it, does not touch the card. */
  lemma CardUntouched(a: App, s: Sess, t: Sess, id: u16)
    requires CardSaid(a, s) && OnlyWrote(s, t, id) && a.out.card != Some(id)
    ensures CardSaid(a, t)
  {
    if a.out.card.Some? {
      OnlyWroteKeepsOthers(s, t, id, a.out.card.value);
    }
  }

  lemma HelloUntouched(a: App, s: Sess, t: Sess, id: u16)
    requires HelloSaid(a, s) && OnlyWrote(s, t, id) && a.helloId != Some(id)
    ensures HelloSaid(a, t)
  {
    if a.helloId.Some? {
      OnlyWroteKeepsOthers(s, t, id, a.helloId.value);
    }
  }

  lemma OpenedUntouched(t: Side, b: Sess, o: Opts)
    requires Asked(t, b) && CanOpen(t.s) && t.s.opens < MAX_OPENS
    ensures var s1 := OpenStream(t.s, o);
      NoPause(s1) && HelloSaid(t.a, s1) && CardSaid(t.a, s1) && t.a.helloId != Some(t.s.nextTxId) && t.a.out.card != Some(t.s.nextTxId)
  {
    hide Linked, AppOk, OpenStream, DealInv, OptsInv;
    OpenEffect(t.s, b, o);
  }

  lemma PumpedKeeps(t: Side, b: Sess)
    requires Asked(t, b) && t.a.out.card.Some?
    ensures Asked(Pumped(t), b) && Quiet(t, Pumped(t)) && Pumped(t).a.deal == t.a.deal
  {
    hide Linked, OnlyWrote, NoPause, CardInv;
    var c := t.a.out.card.value;
    var p := Pump(t.a.out, t.s);
    PumpSendKeeps(p, b);
    var r := PumpSend(p);
    OnlyWroteKeepsNoPause(t.s, r.s, c);
    HelloUntouched(t.a, t.s, r.s, c);
    OnlyWroteFields(t.s, r.s, c);
  }

  lemma OnlyWroteFields(s: Sess, t: Sess, id: u16)
    requires OnlyWrote(s, t, id)
    ensures t.opts == s.opts && t.opens == s.opens && t.trace == s.trace && t.role == s.role && t.window == s.window && t.stack == s.stack
  {
  }

  lemma SendHelloKeeps(t: Side, b: Sess)
    requires Asked(t, b)
    ensures Asked(SendHello(t), b) && Quiet(t, SendHello(t)) && SendHello(t).a.deal == t.a.deal
  {
    if t.a.helloSent {
    } else if !CanOpen(t.s) {
      hide Linked, NoPause, CardInv;
    } else {
      HelloGoesOut(t, b);
    }
  }

  /** The session in which HELLO was opened, written and finished. */
  lemma HelloWritten(s: Sess, b: Sess, o: Opts, h: seq<byte>)
    requires Linked(s, b) && CanOpen(s) && s.opens < MAX_OPENS && |h| > 0
    ensures var id, s1 := s.nextTxId, OpenStream(s, o);
      var s3 := FinishIfOpen(HelloLoop(s1, id, h, 64), id);
      Linked(s3, b) && OnlyWrote(s1, s3, id) && Written(s3, id) == Cut(h, s.window)
  {
    hide Linked, OnlyWrote, HelloLoop, FinishIfOpen, OpenStream;
    var id, s1 := s.nextTxId, OpenStream(s, o);
    OpenEffect(s, b, o);
    HelloLoopSends(s1, b, id, h);
    var s2 := HelloLoop(s1, id, h, 64);
    FinishIfOpenKeeps(s2, b, id);
    FinishEffect(s2, id);
    OnlyWroteTwice(s1, s2, FinishIfOpen(s2, id), id);
  }

  lemma HelloGoesOut(t: Side, b: Sess)
    requires Asked(t, b) && !t.a.helloSent && CanOpen(t.s)
    ensures Asked(SendHello(t), b) && Quiet(t, SendHello(t)) && SendHello(t).a.deal == t.a.deal
  {
    hide Linked, OnlyWrote, NoPause, CardInv, HelloLoop, FinishIfOpen, OpenStream, AppOk;
    var id, h := t.s.nextTxId, HelloBytes(t.a.cfg);
    var o := Opts(KIND_HELLO, |h|);
    var s1, s3 := OpenStream(t.s, o), SendHello(t).s;
    OpenEffect(t.s, b, o);
    OpenedUntouched(t, b, o);
    HelloWritten(t.s, b, o, h);
    OnlyWroteKeepsNoPause(s1, s3, id);
    OnlyWroteFields(s1, s3, id);
    CardUntouched(t.a, s1, s3, id);
    SameApp(t.a, SendHello(t).a);
    assert CardSaid(SendHello(t).a, s3);
  }

  lemma SameApp(a: App, a1: App)
    requires AppOk(a) && a1.cfg == a.cfg && a1.out == a.out
    ensures AppOk(a1)
  {
  }

  lemma AckKeeps(t: Side, b: Sess)
    requires Asked(t, b)
    ensures Asked(MaybeSendAck(t), b) && Quiet(t, MaybeSendAck(t)) && MaybeSendAck(t).a.deal == t.a.deal
  {
    if t.a.ackSent || !t.a.deal.ready {
    } else if t.a.deal.willRecv && !t.a.inc.complete {
    } else if CanOpen(t.s) {
      AckGoesOut(t, b);
    } else {
      hide Linked, NoPause, CardInv;
    }
  }

  lemma AckGoesOut(t: Side, b: Sess)
    requires Asked(t, b) && !t.a.ackSent && t.a.deal.ready && (t.a.deal.willRecv ==> t.a.inc.complete) && CanOpen(t.s)
    ensures Asked(MaybeSendAck(t), b) && Quiet(t, MaybeSendAck(t)) && MaybeSendAck(t).a.deal == t.a.deal
  {
    hide Linked, OnlyWrote, NoPause, CardSaid, HelloSaid, FinishIfOpen, OpenStream, AppOk, OptsInv;
    var id, o := t.s.nextTxId, Opts(KIND_ACK, 0);
    FewOpens(t.a, t.s);
    var s1 := OpenStream(t.s, o);
    OpenEffect(t.s, b, o);
    OpenedUntouched(t, b, o);
    var s2 := FinishIfOpen(s1, id);
    FinishIfOpenKeeps(s1, b, id);
    FinishEffect(s1, id);
    OnlyWroteKeepsNoPause(s1, s2, id);
    OnlyWroteFields(s1, s2, id);
    CardUntouched(t.a, s1, s2, id);
    HelloUntouched(t.a, s1, s2, id);
    SameApp(t.a, MaybeSendAck(t).a);
    SameSaid(t.a, MaybeSendAck(t).a, s2);
    AckIsNamed(t.a, MaybeSendAck(t).a, t.s, s2, id, o);
  }

  lemma AckIsNamed(a: App, a1: App, s: Sess, s1: Sess, id: u16, o: Opts)
    requires OptsInv(a, s) && !a.ackSent && o.kind == KIND_ACK && id !in s.opts
    requires a1 == a.(ackSent := true, ackId := Some(id)) && s1.opts == s.opts[id := o] && s1.opens == s.opens + 1
    ensures OptsInv(a1, s1)
  {
  }

  lemma FewOpens(a: App, s: Sess)
    requires OptsInv(a, s)
    ensures s.opens <= 3
  {
  }

  lemma SameSaid(a: App, a1: App, s: Sess)
    requires CardSaid(a, s) && HelloSaid(a, s)
    requires a1.cfg == a.cfg && a1.out == a.out && a1.helloId == a.helloId
    ensures CardSaid(a1, s) && HelloSaid(a1, s)
  {
    hide CardInv, PumpOk, HelloBytes;
  }

  lemma StartCardKeeps(t: Side, b: Sess)
    requires Asked(t, b) && !t.a.deal.ready
    ensures Asked(StartCard(t), b) && Quiet(t, StartCard(t))
  {
    if Sends(t.a) && CanOpen(t.s) {
      CardStarts(t, b);
    } else if Sends(t.a) {
      hide Linked, NoPause, CardInv;
    } else {
      hide Linked, NoPause, CardInv;
    }
  }

  lemma CardStarts(t: Side, b: Sess)
    requires Asked(t, b) && !t.a.deal.ready && Sends(t.a) && CanOpen(t.s)
    ensures Asked(StartCard(t), b) && Quiet(t, StartCard(t))
  {
    hide Linked, NoPause, OpenStream, PumpOk;
    var o := Opts(KIND_CARD, t.a.cfg.own.value.end % 0x1_0000_0000_0000_0000);
    var u := StartCard(t);
    OpenEffect(t.s, b, o);
    OpenedUntouched(t, b, o);
    FreshPump(t.a, u.a);
    assert Written(u.s, u.a.out.card.value) == [];
    assert CardInv(u.a.out, u.s);
  }

  lemma FreshPump(a: App, a1: App)
    requires AppOk(a) && a.cfg.own.Some? && a.out.buf == [] && a.out.off == 0
    requires a1.cfg == a.cfg && a1.out.card.Some? && a1.out == a.out.(stream := a.cfg.own, card := a1.out.card)
    ensures AppOk(a1) && PumpOk(a1.out)
  {
  }

  // ---- what one side can tell from its events ---------------------------------------

  ghost predicate Foreign(role: Role, id: u16) {
    id != 0 && !Own(role, id)
  }

  lemma OpenedIsForeign(role: Role, es: seq<Event>, id: u16, o: Opts)
    requires Tidy(role, es) && Opened(id, o) in es
    ensures Foreign(role, id)
  {
    var i :| 0 <= i < |es| && es[i] == Opened(id, o);
    assert Timely(role, es[..i], es[i]);
  }

  lemma ForeignIsPeers(s: Sess, b: Sess, id: u16)
    requires Linked(s, b) && Foreign(s.role, id)
    ensures Own(b.role, id)
  {
  }

  /** A stream that was opened towards `x` is the one its peer has for that kind. */
  lemma OpenedAsNamed(x: Side, y: Side, id: u16, kind: u16)
    requires Linked(y.s, x.s) && OptsInv(y.a, y.s) && Tidy(x.s.role, x.s.trace) && SaidOpen(x.s.trace, id, kind)
    ensures Foreign(x.s.role, id) && Own(y.s.role, id) && Named(y.a, id, kind)
    ensures id in y.s.opts && y.s.opts[id].kind == kind
  {
    hide Linked, Tidy, Own;
    var o: Opts :| Opened(id, o) in x.s.trace && o.kind == kind;
    OpenedIsForeign(x.s.role, x.s.trace, id, o);
    LinkedSymmetric(y.s, x.s);
    ForeignIsPeers(x.s, y.s, id);
    OpenedAsAsked(y.s, x.s, id, o);
  }

  lemma EventsAreDistinct(x: Side, y: Side, es: seq<Event>, e: Event)
    requires Linked(y.s, x.s) && OptsInv(y.a, y.s) && Tidy(x.s.role, x.s.trace) && x.s.trace == es + [e]
    ensures Distinct(es, e)
  {
    hide Linked, Tidy, OptsInv, SaidOpen, Own;
    forall i: u16, j: u16, k: u16 | SaidOpen(es + [e], i, k) && SaidOpen(es + [e], j, k) ensures i == j {
      OpenedAsNamed(x, y, i, k);
      OpenedAsNamed(x, y, j, k);
    }
    if e.Opened? {
      NewIsNew(x, y, es, e);
    }
  }

  lemma NewIsNew(x: Side, y: Side, es: seq<Event>, e: Event)
    requires Linked(y.s, x.s) && Tidy(x.s.role, x.s.trace) && x.s.trace == es + [e] && e.Opened?
    ensures forall o: Opts :: Opened(e.id, o) !in es
    ensures Read(es, e.id) == [] && Finished(e.id) !in es
  {
    hide Links.TxInv, Links.RxInv, Links.CreditInv, Links.ContentInv, Links.FramesInv, Run, Own, SessInv;
    OpenedIsForeign(x.s.role, x.s.trace, e.id, e.opts);
    LinkedSymmetric(y.s, x.s);
    ReaderInv(x.s, y.s, e.id);
    EventsAppend(es, [e], e.id);
    EventsOwn([e], e.id);
    var evs := EventsOf(x.s.trace, e.id);
    assert evs == EventsOf(es, e.id) + [e];
    assert evs[|evs| - 1] == e;
    assert EventsOf(es, e.id) == [];
    if Finished(e.id) in es {
      InEventsOf(es, Finished(e.id), e.id);
    }
    forall o: Opts ensures Opened(e.id, o) !in es {
      if Opened(e.id, o) in es {
        InEventsOf(es, Opened(e.id, o), e.id);
      }
    }
  }

  /** Once the peer's HELLO was read, its wishes are known, as far as they fitted the window. */
  ghost predicate Told(a: App, window: u32, peer: Config) {
    a.deal.ready ==>
      && (a.deal.peerOffer <==> window >= HELLO_HEAD && peer.offer)
      && (a.deal.peerAccept <==> window >= HELLO_HEAD && peer.accept)
  }

  ghost predicate SideInv(t: Side, b: Sess) {
    && Asked(t, b)
    && Tidy(t.s.role, t.s.trace)
    && t.a.seen <= |t.s.trace| <= t.a.seen + 1
    && HeardInv(t.a, t.s.trace[..t.a.seen])
  }

  ghost predicate PairInv(x: Side, y: Side) {
    && SideInv(x, y.s) && SideInv(y, x.s)
    && Told(x.a, x.s.window, y.a.cfg) && Told(y.a, y.s.window, x.a.cfg)
  }

  lemma PairSymmetric(x: Side, y: Side)
    requires PairInv(x, y)
    ensures PairInv(y, x)
  {
  }

  lemma CutTwice(d: seq<byte>, m: nat, n: nat)
    requires |d| <= n
    ensures Cut(Cut(d, m), n) == Cut(d, m)
  {
  }

  /** The end of the peer's HELLO comes once, and then all of it has been heard. */
  lemma HelloIsHeard(x: Side, y: Side, es: seq<Event>, id: u16)
    requires SideInv(x, y.s) && SideInv(y, x.s) && es == x.s.trace[..x.a.seen] && x.s.trace == es + [Finished(id)]
    requires KindOf(x.a.inc, id) == KIND_HELLO
    ensures !x.a.deal.ready
    ensures x.a.inc.hello == Cut(HelloBytes(y.a.cfg), y.s.window)
  {
    hide Linked, Own, SaidOpen, Read, NoPause, AppOk, CardSaid, CardInv, DealInv;
    var e := Finished(id);
    LinkedSymmetric(x.s, y.s);
    EventsAreDistinct(x, y, es, e);
    assert Timely(x.s.role, x.s.trace[..|es|], x.s.trace[|es|]);
    EndedMeansSilent(x.s.role, es, e, id);
    forall j | j in x.a.inc.kinds && x.a.inc.kinds[j] == KIND_HELLO ensures j == id {
      OneHello(x.a, es, e, j, id);
    }
    SaidStays(es, e, id, KIND_HELLO);
    OpenedAsNamed(x, y, id, KIND_HELLO);
    FinishedMeansComplete(y.s, x.s, id);
    ReadOne(es, e, id);
    assert Read(es, id) + [] == Read(es, id);
    CutTwice(HelloBytes(y.a.cfg), y.s.window, HELLO_RX_MAX);
  }

  lemma CutHello(c: Config, window: u32)
    ensures var h := Cut(HelloBytes(c), window);
      && (Transfer.Heard(h, 2) <==> window >= HELLO_HEAD && c.offer)
      && (Transfer.Heard(h, 3) <==> window >= HELLO_HEAD && c.accept)
  {
    hide HelloBytes;
  }

  // ---- an event is handled ------------------------------------------------------------

  /** `t`, about to handle the event `e` after `es`. */
  ghost predicate Facing(t: Side, y: Side, es: seq<Event>, e: Event) {
    && Asked(t, y.s) && HeardInv(t.a, es) && Told(t.a, t.s.window, y.a.cfg)
    && t.s.trace == es + [e] && Distinct(es, e) && Timely(t.s.role, es, e)
  }

  /** `u`, having handled it. */
  ghost predicate Faced(t: Side, u: Side, y: Side) {
    && Asked(u, y.s) && HeardInv(u.a, t.s.trace) && Told(u.a, u.s.window, y.a.cfg)
    && u.a.cfg == t.a.cfg && u.a.seen == t.a.seen
    && u.s.trace == t.s.trace && u.s.role == t.s.role && u.s.window == t.s.window
  }

  lemma QuietFaced(t: Side, u: Side, y: Side, es: seq<Event>, e: Event)
    requires Facing(t, y, es, e) && !e.Data? && (e.Finished? ==> KindOf(t.a.inc, e.id) != KIND_CARD)
    requires Asked(u, y.s) && Quiet(t, u) && u.a.deal == t.a.deal
    ensures Faced(t, u, y)
  {
    hide Asked, Timely, Distinct, HeardInv;
    QuietEvent(t.a, es, e);
    ReadyIsHeard(t.a, es + [e]);
    KnowledgeKeeps(t.a, u.a, es + [e]);
  }

  lemma ReadyIsHeard(a: App, es: seq<Event>)
    requires HeardInv(a, es)
    ensures a.deal.ready ==> HeardEnd(a, es, KIND_HELLO)
  {
  }

  /** The application notes something that has no part in what it asked. */
  lemma NoteKeepsAsked(t: Side, a: App, b: Sess)
    requires Asked(t, b)
    requires a.cfg == t.a.cfg && a.deal == t.a.deal && a.out == t.a.out && a.helloSent == t.a.helloSent && a.helloId == t.a.helloId
    requires a.ackSent == t.a.ackSent && a.ackId == t.a.ackId && (t.a.inc.complete ==> a.inc.complete)
    ensures Asked(t.(a := a), b)
  {
    hide NoPause, Linked, CardInv, HelloBytes, PumpOk;
  }

  lemma ConnectedFaced(t: Side, y: Side, es: seq<Event>)
    requires Facing(t, y, es, Connected) && AppOk(t.a)
    ensures Faced(t, React(t, Connected), y)
  {
    hide Asked, Timely, Distinct, HeardInv, Told, SendHello, AppOk;
    var t1 := t.(a := t.a.(connected := true));
    NoteKeepsAsked(t, t1.a, y.s);
    SendHelloKeeps(t1, y.s);
    QuietFaced(t, SendHello(t1), y, es, Connected);
  }

  lemma NotedFaced(t: Side, y: Side, es: seq<Event>, e: Event)
    requires Facing(t, y, es, e) && AppOk(t.a) && (e.Disconnected? || e.Failed? || e.WasReset?)
    ensures Faced(t, React(t, e), y)
  {
    hide Asked, Timely, Distinct, HeardInv, Told, AppOk;
    NoteKeepsAsked(t, React(t, e).a, y.s);
    QuietFaced(t, React(t, e), y, es, e);
  }

  lemma OpenedFaced(t: Side, y: Side, es: seq<Event>, id: u16, o: Opts)
    requires Facing(t, y, es, Opened(id, o)) && AppOk(t.a)
    ensures Faced(t, React(t, Opened(id, o)), y)
  {
    hide Asked, Timely, Distinct, HeardInv, AppOk;
    HeardOpened(t.a, es, id, o);
    if o.kind == KIND_CARD {} else if o.kind == KIND_ACK {} else {}
    NoteKeepsAsked(t, OnOpened(t.a, id, o), y.s);
  }

  lemma DataFaced(t: Side, y: Side, es: seq<Event>, id: u16, bytes: seq<byte>)
    requires Facing(t, y, es, Data(id, bytes)) && AppOk(t.a)
    ensures Faced(t, React(t, Data(id, bytes)), y)
  {
    hide Asked, Timely, Distinct, HeardInv, AppOk;
    HeardData(t.s.role, t.a, es, id, bytes);
    if KindOf(t.a.inc, id) == KIND_HELLO {} else if KindOf(t.a.inc, id) == KIND_CARD && t.a.inc.fileOpen {} else {}
    NoteKeepsAsked(t, OnData(t.a, id, bytes), y.s);
  }

  lemma WritableFaced(t: Side, y: Side, es: seq<Event>, id: u16)
    requires Facing(t, y, es, Writable(id)) && AppOk(t.a)
    ensures Faced(t, React(t, Writable(id)), y)
  {
    hide Asked, Timely, Distinct, HeardInv, Told, Pumped;
    if t.a.out.card == Some(id) {
      PumpedKeeps(t, y.s);
      QuietFaced(t, Pumped(t), y, es, Writable(id));
    } else {
      QuietFaced(t, t, y, es, Writable(id));
    }
  }

  lemma CardEndFaced(t: Side, y: Side, es: seq<Event>, id: u16)
    requires Facing(t, y, es, Finished(id)) && AppOk(t.a) && KindOf(t.a.inc, id) == KIND_CARD
    ensures Faced(t, React(t, Finished(id)), y)
  {
    hide Asked, Timely, Distinct, HeardInv, MaybeSendAck, AppOk;
    var t1 := t.(a := Closed(t.a));
    HeardCardEnd(t.a, es, id);
    NoteKeepsAsked(t, t1.a, y.s);
    AckKeeps(t1, y.s);
    ReadyIsHeard(t1.a, t.s.trace);
    KnowledgeKeeps(t1.a, MaybeSendAck(t1).a, t.s.trace);
  }

  lemma ParseKeeps(t: Side, b: Sess)
    requires Asked(t, b) && !t.a.deal.ready
    ensures var u := ParsePeerHello(t);
      && Asked(u, b) && Quiet(t, u) && u.a.deal.ready
      && u.a.deal.peerOffer == Transfer.Heard(t.a.inc.hello, 2) && u.a.deal.peerAccept == Transfer.Heard(t.a.inc.hello, 3)
  {
    hide Linked, StartCard, Pumped, MaybeSendAck, CardInv, NoPause, Quiet;
    var t1 := StartCard(t);
    StartCardKeeps(t, b);
    StartCardDeal(t);
    var t2 := if t1.a.deal.willSend then Pumped(t1) else t1;
    if t1.a.deal.willSend {
      PumpedKeeps(t1, b);
      QuietTwice(t, t1, t2);
    }
    AckKeeps(t2, b);
    QuietTwice(t, t2, MaybeSendAck(t2));
  }

  lemma QuietTwice(t: Side, u: Side, v: Side)
    requires Quiet(t, u) && Quiet(u, v)
    ensures Quiet(t, v)
  {
  }

  lemma StartCardDeal(t: Side)
    ensures var d := StartCard(t).a.deal;
      && d.ready && d.peerOffer == Transfer.Heard(t.a.inc.hello, 2) && d.peerAccept == Transfer.Heard(t.a.inc.hello, 3)
  {
  }

  lemma HelloEndFaced(t: Side, y: Side, es: seq<Event>, id: u16)
    requires Facing(t, y, es, Finished(id)) && AppOk(t.a) && KindOf(t.a.inc, id) == KIND_HELLO
    requires !t.a.deal.ready && t.a.inc.hello == Cut(HelloBytes(y.a.cfg), y.s.window) && y.s.window == t.s.window
    ensures Faced(t, React(t, Finished(id)), y)
  {
    hide Asked, Timely, Distinct, HeardInv, ParsePeerHello, HelloBytes;
    var u := ParsePeerHello(t);
    ParseKeeps(t, y.s);
    CutHello(y.a.cfg, y.s.window);
    QuietEvent(t.a, es, Finished(id));
    assert Finished(id) in t.s.trace;
    assert HeardEnd(t.a, t.s.trace, KIND_HELLO);
    KnowledgeKeeps(t.a, u.a, t.s.trace);
  }

  lemma OtherEndFaced(t: Side, y: Side, es: seq<Event>, id: u16)
    requires Facing(t, y, es, Finished(id)) && AppOk(t.a) && KindOf(t.a.inc, id) != KIND_HELLO && KindOf(t.a.inc, id) != KIND_CARD
    ensures Faced(t, React(t, Finished(id)), y)
  {
    hide Asked, Timely, Distinct, HeardInv, Told;
    QuietFaced(t, t, y, es, Finished(id));
  }

  lemma EventFaced(t: Side, y: Side, es: seq<Event>, e: Event)
    requires Facing(t, y, es, e) && AppOk(t.a)
    requires e.Finished? && KindOf(t.a.inc, e.id) == KIND_HELLO ==>
      !t.a.deal.ready && t.a.inc.hello == Cut(HelloBytes(y.a.cfg), y.s.window) && y.s.window == t.s.window
    ensures Faced(t, React(t, e), y)
  {
    hide Facing, Faced, React, AppOk;
    match e {
      case Connected => ConnectedFaced(t, y, es);
      case Opened(id, o) => OpenedFaced(t, y, es, id, o);
      case Data(id, bytes) => DataFaced(t, y, es, id, bytes);
      case Writable(id) => WritableFaced(t, y, es, id);
      case Finished(id) =>
        if KindOf(t.a.inc, id) == KIND_HELLO { HelloEndFaced(t, y, es, id); }
        else if KindOf(t.a.inc, id) == KIND_CARD { CardEndFaced(t, y, es, id); }
        else { OtherEndFaced(t, y, es, id); }
      case _ => NotedFaced(t, y, es, e);
    }
  }

  // ---- steps of the pair ----------------------------------------------------------------

  lemma HandleKeeps(x: Side, y: Side)
    requires PairInv(x, y) && x.a.seen < |x.s.trace|
    ensures AppOk(x.a) && PairInv(Handle(x), y) && Handle(x).a.cfg == x.a.cfg && Handle(x).s.window == x.s.window
  {
    hide Asked, HeardInv, Told, Distinct, React, AppOk, Timely, Read, SaidOpen;
    var n := x.a.seen;
    var es, e := x.s.trace[..n], x.s.trace[n];
    assert x.s.trace == es + [e];
    var t := x.(a := x.a.(seen := n + 1));
    AskedParts(x, y.s);
    AskedParts(y, x.s);
    LinkedSymmetric(x.s, y.s);
    EventsAreDistinct(x, y, es, e);
    assert Timely(x.s.role, x.s.trace[..n], x.s.trace[n]);
    NoteKeepsAsked(x, t.a, y.s);
    AskedParts(t, y.s);
    SeenIsNotKnown(x.a, t.a, es);
    if e.Finished? && KindOf(x.a.inc, e.id) == KIND_HELLO {
      HelloIsHeard(x, y, es, e.id);
    }
    assert Told(t.a, t.s.window, y.a.cfg) by { ToldSame(x.a, t.a, x.s.window, y.a.cfg); }
    EventFaced(t, y, es, e);
    var u := React(t, e);
    assert u.s.trace[..u.a.seen] == x.s.trace;
    PeerUntouched(x, u, y);
  }

  lemma AskedParts(t: Side, b: Sess)
    requires Asked(t, b)
    ensures Linked(t.s, b) && OptsInv(t.a, t.s) && AppOk(t.a) && NoPause(t.s) && t.s.window == b.window
  {
  }

  lemma SeenIsNotKnown(a: App, a1: App, es: seq<Event>)
    requires HeardInv(a, es) && a1 == a.(seen := a1.seen)
    ensures HeardInv(a1, es)
  {
    ReadyIsHeard(a, es);
    KnowledgeKeeps(a, a1, es);
  }

  lemma ToldSame(a: App, a1: App, window: u32, peer: Config)
    requires Told(a, window, peer) && a1.deal == a.deal
    ensures Told(a1, window, peer)
  {
  }

  /** What one side does is no business of the other's application. */
  lemma PeerUntouched(x: Side, u: Side, y: Side)
    requires SideInv(y, x.s) && Told(y.a, y.s.window, x.a.cfg) && u.a.cfg == x.a.cfg
    requires Linked(u.s, y.s) || Asked(u, y.s)
    ensures SideInv(y, u.s) && Told(y.a, y.s.window, u.a.cfg)
  {
    hide HeardInv, Tidy, NoPause, AppOk, OptsInv, HelloSaid, CardSaid, DealInv, Linked, Told;
    LinkedSymmetric(u.s, y.s);
  }

  lemma LowerKeeps(x: Side, y: Side, act: Act)
    requires PairInv(x, y) && ActOk(x.s, y.s, act) && Lower(act) && x.a.seen == |x.s.trace|
    ensures PairInv(x.(s := Do(x.s, act)), y) && Do(x.s, act).window == x.s.window
  {
    hide Asked, HeardInv, Told, Tidy, Do, Enabled, Carries, NoPause;
    AskedParts(x, y.s);
    var t := Do(x.s, act);
    LowerStep(x.s, y.s, act);
    CarriedAsked(x, y.s, t);
    TidyGrows(x.s.role, x.s.trace, t.trace);
    assert t.trace[..x.a.seen] == x.s.trace == x.s.trace[..x.a.seen];
    CarriesFields(x.s, t);
    PeerUntouched(x, x.(s := t), y);
  }

  lemma CarriesFields(s: Sess, t: Sess)
    requires Carries(s, t)
    ensures t.role == s.role && t.window == s.window
  {
  }

  lemma CarriedAsked(x: Side, b: Sess, t: Sess)
    requires Asked(x, b) && Carries(x.s, t) && NoPause(t) && Linked(t, b)
    ensures Asked(x.(s := t), b)
  {
    hide Linked, NoPause, AppOk, HelloBytes, PumpOk;
  }
}
