/** What the card exchange guarantees over every run of the two sides. */
module Agreement {
  import opened Options
  import opened Wire
  import opened Engine
  import opened System
  import opened Guarantees
  import opened Transfer
  import opened Carrying
  import opened Sending
  import opened Hearing
  import opened Exchange

  // ---- runs -------------------------------------------------------------------

  /** One side's session does something by itself, or its application handles the event that was raised. */
  datatype Step = Session(first: bool, act: Act) | Callback(first: bool)

  ghost predicate SideOk(x: Side, y: Side, st: Step) {
    match st
    case Session(_, act) => x.a.seen == |x.s.trace| && Lower(act) && ActOk(x.s, y.s, act)
    case Callback(_) => x.a.seen < |x.s.trace| && AppOk(x.a)
  }

  ghost function SideDo(x: Side, y: Side, st: Step): Side
    requires SideOk(x, y, st)
  {
    match st
    case Session(_, act) => x.(s := Do(x.s, act))
    case Callback(_) => Handle(x)
  }

  ghost predicate RunsTo(x: Side, y: Side, steps: seq<Step>, x1: Side, y1: Side)
    decreases |steps|
  {
    if steps == [] then x1 == x && y1 == y
    else if steps[0].first then SideOk(x, y, steps[0]) && RunsTo(SideDo(x, y, steps[0]), y, steps[1..], x1, y1)
    else SideOk(y, x, steps[0]) && RunsTo(x, SideDo(y, x, steps[0]), steps[1..], x1, y1)
  }

  lemma StepKeeps(x: Side, y: Side, st: Step)
    requires PairInv(x, y) && SideOk(x, y, st)
    ensures PairInv(SideDo(x, y, st), y)
    ensures SideDo(x, y, st).a.cfg == x.a.cfg && SideDo(x, y, st).s.window == x.s.window
  {
    hide PairInv, Handle, Do, Lower, AppOk;
    match st
    case Session(_, act) => LowerKeeps(x, y, act);
    case Callback(_) => HandleKeeps(x, y);
  }

  lemma {:induction false} ExchangeKeeps(x: Side, y: Side, steps: seq<Step>, x1: Side, y1: Side)
    requires PairInv(x, y) && RunsTo(x, y, steps, x1, y1)
    ensures PairInv(x1, y1) && x1.a.cfg == x.a.cfg && y1.a.cfg == y.a.cfg
    ensures x1.s.window == x.s.window && y1.s.window == y.s.window
    decreases |steps|
  {
    hide PairInv, SideDo, SideOk;
    if steps != [] {
      if steps[0].first {
        StepKeeps(x, y, steps[0]);
        ExchangeKeeps(SideDo(x, y, steps[0]), y, steps[1..], x1, y1);
      } else {
        PairSymmetric(x, y);
        StepKeeps(y, x, steps[0]);
        PairSymmetric(SideDo(y, x, steps[0]), x);
        ExchangeKeeps(x, SideDo(y, x, steps[0]), steps[1..], x1, y1);
      }
    }
  }

  ghost function Start(role: Role, window: u32, cfg: Config): Side {
    Side(NewApp(cfg), NewSession(role, window))
  }

  /** Two fresh sides with one window, and where a run of theirs leads. */
  ghost predicate Met(window: u32, cx: Config, cy: Config, steps: seq<Step>, x: Side, y: Side) {
    window > 0 && OwnOk(cx) && OwnOk(cy) &&
    exists role: Role :: RunsTo(Start(role, window, cx), Start(PeerOf(role), window, cy), steps, x, y)
  }

  lemma StartSide(role: Role, peer: Role, window: u32, cfg: Config)
    requires role != peer && window > 0 && OwnOk(cfg)
    ensures SideInv(Start(role, window, cfg), NewSession(peer, window))
  {
    hide Linked;
    LinkedInitially(role, peer, window);
  }

  lemma MetKeeps(window: u32, cx: Config, cy: Config, steps: seq<Step>, x: Side, y: Side)
    requires Met(window, cx, cy, steps, x, y)
    ensures PairInv(x, y) && x.a.cfg == cx && y.a.cfg == cy && x.s.window == y.s.window == window
  {
    hide SideInv, RunsTo;
    var role: Role :| RunsTo(Start(role, window, cx), Start(PeerOf(role), window, cy), steps, x, y);
    StartSide(role, PeerOf(role), window, cx);
    StartSide(PeerOf(role), role, window, cy);
    ExchangeKeeps(Start(role, window, cx), Start(PeerOf(role), window, cy), steps, x, y);
  }

  /** A raised event can always be handled. */
  lemma CallbackIsReady(x: Side, y: Side)
    requires PairInv(x, y) && x.a.seen < |x.s.trace|
    ensures SideOk(x, y, Callback(true))
  {
  }

  // ---- what the two agree on -------------------------------------------------------

  /** What a side shares of its card. */
  ghost function SharedPart(cfg: Config): seq<byte>
    requires OwnOk(cfg) && cfg.own.Some? && cfg.own.value.end <= |cfg.own.value.pdf|
  {
    cfg.own.value.pdf[..cfg.own.value.end]
  }

  /** `y` was handed the whole of the card that `x` shares. */
  ghost predicate HandedOver(x: Side, y: Side) {
    && x.a.out.card.Some? && x.a.out.done
    && OwnOk(x.a.cfg) && x.a.cfg.own.Some? && x.a.cfg.own.value.end <= |x.a.cfg.own.value.pdf|
    && Finished(x.a.out.card.value) in y.s.trace
    && Delivered(y.s, x.a.out.card.value) == SharedPart(x.a.cfg)
    && y.a.inc.file == Stored(y.a.cfg, SharedPart(x.a.cfg))
    && (!y.a.failed ==> y.a.cfg.canOpen && |SharedPart(x.a.cfg)| <= y.a.cfg.room)
  }

  lemma HeardSays(a: App, es: seq<Event>, kind: u16) returns (id: u16)
    requires KindsInv(a, es) && HeardEnd(a, es, kind)
    ensures SaidOpen(es, id, kind) && Finished(id) in es && id in a.inc.kinds && a.inc.kinds[id] == kind
  {
    id :| id in a.inc.kinds && a.inc.kinds[id] == kind && Finished(id) in es;
  }

  lemma SaidInTrace(trace: seq<Event>, n: nat, id: u16, kind: u16)
    requires n <= |trace| && SaidOpen(trace[..n], id, kind)
    ensures SaidOpen(trace, id, kind)
  {
    var o: Opts :| Opened(id, o) in trace[..n] && o.kind == kind;
    assert Opened(id, o) in trace;
  }

  /** A finished card is a whole card. */
  lemma FinishedIsWhole(x: Side, y: Side, c: u16)
    requires Asked(x, y.s) && x.a.out.card == Some(c) && Own(x.s.role, c) && Finished(c) in y.s.trace
    ensures x.a.out.done && x.a.out.stream.value.pos == x.a.cfg.own.value.end
    ensures x.a.cfg.own.value.end <= |x.a.cfg.own.value.pdf| && Delivered(y.s, c) == SharedPart(x.a.cfg)
  {
    hide Links.Inv, Half, SessInv, NoPause, HelloSaid, OptsInv;
    FinishedMeansComplete(x.s, y.s, c);
    var o := x.a.out;
    assert o.buf[o.off..] == [];
    assert Written(x.s, c) + [] == Written(x.s, c);
  }

  /** Nothing was read after the events handled so far but, at most, one that is still to be handled. */
  lemma FileIsDelivered(y: Side, es: seq<Event>, c: u16)
    requires Tidy(y.s.role, y.s.trace) && y.a.seen <= |y.s.trace| <= y.a.seen + 1 && es == y.s.trace[..y.a.seen]
    requires Finished(c) in es
    ensures Read(es, c) == Delivered(y.s, c)
  {
    hide EventsOf, Timely;
    if |es| < |y.s.trace| {
      var e := y.s.trace[|es|];
      assert y.s.trace == es + [e];
      ReadOne(es, e, c);
      assert Timely(y.s.role, y.s.trace[..|es|], y.s.trace[|es|]);
      if e.Data? && e.id == c {
        EndedMeansSilent(y.s.role, es, e, c);
      }
      assert Read(es, c) + [] == Read(es, c);
    } else {
      assert es == y.s.trace;
    }
  }

  /** A card received to its end is the one the peer shares, whole; stored so, unless storing failed. */
  lemma CompleteMeansWhole(x: Side, y: Side)
    requires PairInv(x, y) && y.a.inc.complete
    ensures HandedOver(x, y)
  {
    hide Linked, Own, SaidOpen, Read, NoPause, Asked, Tidy, OptsInv, HelloInv;
    var es := y.s.trace[..y.a.seen];
    AskedParts(x, y.s);
    var c := HeardSays(y.a, es, KIND_CARD);
    SaidInTrace(y.s.trace, y.a.seen, c, KIND_CARD);
    OpenedAsNamed(y, x, c, KIND_CARD);
    NamedCard(x.a, c);
    assert Finished(c) in y.s.trace;
    FinishedIsWhole(x, y, c);
    FileIsDelivered(y, es, c);
    AppParts(x.a);
    CardParts(x, y.s);
  }

  lemma NamedCard(a: App, c: u16)
    requires Named(a, c, KIND_CARD)
    ensures a.out.card == Some(c)
  {
  }

  lemma AppParts(a: App)
    requires AppOk(a)
    ensures OwnOk(a.cfg)
  {
  }

  lemma CardParts(x: Side, b: Sess)
    requires Asked(x, b) && x.a.out.card.Some?
    ensures x.a.cfg.own.Some?
  {
  }

  /** Whoever sends a card is expected to. */
  lemma SenderIsExpected(x: Side, y: Side)
    requires PairInv(x, y) && x.a.deal.willSend && y.a.deal.ready
    ensures y.a.deal.willRecv
  {
    hide Linked, NoPause, OptsInv, HelloSaid, CardSaid, AppOk, Tidy, HeardInv;
    AskedParts(x, y.s);
  }

  /** An ACK was sent only once everything expected had come. */
  lemma AckMeansReceived(x: Side, y: Side)
    requires PairInv(x, y) && x.a.gotPeerAck
    ensures y.a.ackSent && y.a.deal.ready && (y.a.deal.willRecv ==> y.a.inc.complete)
  {
    hide Linked, Own, SaidOpen, NoPause, HelloSaid, CardSaid, AppOk, Tidy, HelloInv, FileInv, EndsInv;
    var id: u16 :| SaidOpen(x.s.trace[..x.a.seen], id, KIND_ACK);
    SaidInTrace(x.s.trace, x.a.seen, id, KIND_ACK);
    OpenedAsNamed(x, y, id, KIND_ACK);
  }

  /** An acknowledged card has been handed over in full: closing on the ACK truncates nothing. */
  lemma AckSafety(window: u32, cx: Config, cy: Config, steps: seq<Step>, x: Side, y: Side)
    requires Met(window, cx, cy, steps, x, y)
    ensures x.a.deal.willSend && x.a.gotPeerAck ==> HandedOver(x, y)
    ensures y.a.deal.willSend && y.a.gotPeerAck ==> HandedOver(y, x)
  {
    hide PairInv, HandedOver;
    MetKeeps(window, cx, cy, steps, x, y);
    PairSymmetric(x, y);
    if x.a.deal.willSend && x.a.gotPeerAck {
      AckedIsWhole(x, y);
    }
    if y.a.deal.willSend && y.a.gotPeerAck {
      AckedIsWhole(y, x);
    }
  }

  lemma AckedIsWhole(x: Side, y: Side)
    requires PairInv(x, y) && x.a.deal.willSend && x.a.gotPeerAck
    ensures HandedOver(x, y)
  {
    hide PairInv, HandedOver;
    AckMeansReceived(x, y);
    SenderIsExpected(x, y);
    CompleteMeansWhole(x, y);
  }

  /** A card received to its end is in the temporary file exactly if the file could be created and had room, or there is nothing in it. */
  lemma StoredExactly(x: Side, y: Side)
    requires HandedOver(x, y)
    ensures y.a.inc.file == SharedPart(x.a.cfg) <==>
      SharedPart(x.a.cfg) == [] || (y.a.cfg.canOpen && |SharedPart(x.a.cfg)| <= y.a.cfg.room)
    ensures !y.a.failed ==> y.a.inc.file == SharedPart(x.a.cfg)
    ensures !y.a.cfg.canOpen ==> y.a.inc.file == [] && y.a.failed
  {
  }

  /** The same of a card that was acknowledged: the ACK is sent however the file turned out. */
  lemma AckedIsStoredExactly(window: u32, cx: Config, cy: Config, steps: seq<Step>, x: Side, y: Side)
    requires Met(window, cx, cy, steps, x, y) && x.a.deal.willSend && x.a.gotPeerAck
    ensures HandedOver(x, y) && y.a.ackSent && y.a.cfg == cy && x.a.cfg == cx
    ensures y.a.inc.file == SharedPart(cx) <==> SharedPart(cx) == [] || (cy.canOpen && |SharedPart(cx)| <= cy.room)
    ensures !cy.canOpen ==> y.a.inc.file == [] && y.a.failed
  {
    hide PairInv, Met, HandedOver;
    MetKeeps(window, cx, cy, steps, x, y);
    AckedIsWhole(x, y);
    AckMeansReceived(x, y);
    StoredExactly(x, y);
  }

  // ---- no lost wakeup ------------------------------------------------------------------

  /** A pump that was stopped by its window is woken by the WRITABLE of any run that opens the window again. */
  lemma BlockedPumpIsWoken(t: Side, b: Sess, ms: seq<Move>)
    requires Asked(t, b) && t.a.out.card.Some?
    requires !Pumped(t).a.out.done && !Pumped(t).a.out.stuck && RunOk(Pumped(t).s, b, ms)
    requires var (h, c) := RunEnd(Pumped(t).s, b, ms); Within(h) && Within(c) && CanWrite(h, t.a.out.card.value)
    ensures var u, c := Pumped(t), t.a.out.card.value;
      && !CanWrite(u.s, c)
      && u.s.trace <= RunEnd(u.s, b, ms).0.trace
      && Writable(c) in RunEnd(u.s, b, ms).0.trace[|u.s.trace|..]
  {
    hide Linked, NoPause, OptsInv, HelloSaid, CardInv, DealInv, RunEnd, RunOk, CanWrite;
    var u, c := Pumped(t), t.a.out.card.value;
    PumpedKeeps(t, b);
    PumpStopsWithReason(Pump(t.a.out, t.s));
    CardIsOwn(u, b);
    ReopeningWakesWriter(u.s, b, ms, c);
  }

  lemma CardIsOwn(t: Side, b: Sess)
    requires Asked(t, b) && t.a.out.card.Some?
    ensures t.a.out.card.value < Limit(t.s)
  {
    hide Half, HelloSaid, OptsInv, NoPause, DealInv;
    OpenerInv(t.s, b, t.a.out.card.value);
  }
}
