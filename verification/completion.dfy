/** How an exchange ends: who is expected to send, what has happened when nothing is left to do, and what the verdict says. */
module Completion {
  import opened Wire
  import opened Engine
  import opened Links
  import opened System
  import opened Guarantees
  import opened Transfer
  import opened Carrying
  import opened Intactness
  import opened Hearing
  import opened Exchange
  import opened Settling
  import opened Agreement

  // ---- runs -------------------------------------------------------------------------

  lemma LiveSymmetric(x: Side, y: Side)
    requires LivePair(x, y)
    ensures LivePair(y, x)
  {
    hide PairInv, Lively, Accepts;
    PairSymmetric(x, y);
  }

  lemma StepLives(x: Side, y: Side, st: Step)
    requires LivePair(x, y) && SideOk(x, y, st)
    ensures LivePair(SideDo(x, y, st), y)
  {
    hide LivePair, Handle, Do, Lower, AppOk;
    match st
    case Session(_, act) => LowerLively(x, y, act);
    case Callback(_) => HandleLively(x, y);
  }

  lemma {:induction false} RunLives(x: Side, y: Side, steps: seq<Step>, x1: Side, y1: Side)
    requires LivePair(x, y) && RunsTo(x, y, steps, x1, y1)
    ensures LivePair(x1, y1)
    decreases |steps|
  {
    hide LivePair, SideDo, SideOk;
    if steps != [] {
      if steps[0].first {
        StepLives(x, y, steps[0]);
        RunLives(SideDo(x, y, steps[0]), y, steps[1..], x1, y1);
      } else {
        LiveSymmetric(x, y);
        StepLives(y, x, steps[0]);
        LiveSymmetric(SideDo(y, x, steps[0]), x);
        RunLives(x, SideDo(y, x, steps[0]), steps[1..], x1, y1);
      }
    }
  }

  lemma StartLives(role: Role, window: u32, cx: Config, cy: Config)
    requires window > 0 && OwnOk(cx) && OwnOk(cy)
    ensures LivePair(Start(role, window, cx), Start(PeerOf(role), window, cy))
  {
    hide Linked;
    StartSide(role, PeerOf(role), window, cx);
    StartSide(PeerOf(role), role, window, cy);
  }

  lemma MetLives(window: u32, cx: Config, cy: Config, steps: seq<Step>, x: Side, y: Side)
    requires Met(window, cx, cy, steps, x, y)
    ensures LivePair(x, y) && PairInv(x, y) && x.a.cfg == cx && y.a.cfg == cy && x.s.window == y.s.window == window
  {
    hide SideInv, RunsTo, LivePair, PairInv;
    MetKeeps(window, cx, cy, steps, x, y);
    var role: Role :| RunsTo(Start(role, window, cx), Start(PeerOf(role), window, cy), steps, x, y);
    StartLives(role, window, cx, cy);
    RunLives(Start(role, window, cx), Start(PeerOf(role), window, cy), steps, x, y);
    LiveIsPair(x, y);
  }

  lemma LiveIsPair(x: Side, y: Side)
    requires LivePair(x, y)
    ensures PairInv(x, y)
  {
  }

  // ---- who is expected to send ------------------------------------------------------

  /**
   The peer expects a card that never comes exactly when this side offers one and has none. Its session cannot be in the way:
   it raises no event once it is closing, and its table of streams never fills up.
   */
  lemma ExpectedExactly(window: u32, cx: Config, cy: Config, steps: seq<Step>, x: Side, y: Side)
    requires Met(window, cx, cy, steps, x, y) && x.a.deal.ready && y.a.deal.ready
    ensures y.a.deal.willRecv <==> window >= HELLO_HEAD && cx.offer && cy.accept
    ensures x.a.deal.willSend <==> window >= HELLO_HEAD && cx.offer && cy.accept && cx.own.Some?
    ensures y.a.deal.willRecv && !x.a.deal.willSend <==> window >= HELLO_HEAD && cx.offer && cy.accept && cx.own.None?
  {
    hide Met, LivePair, PairInv;
    MetLives(window, cx, cy, steps, x, y);
    LiveDeal(x, y);
    PairSymmetric(x, y);
    PairDeal(y, x);
    PairDeal(x, y);
  }

  lemma LiveDeal(x: Side, y: Side)
    requires LivePair(x, y)
    ensures Willing(x.a) && Willing(y.a)
  {
  }

  lemma PairDeal(x: Side, y: Side)
    requires PairInv(x, y)
    ensures Told(x.a, x.s.window, y.a.cfg) && DealInv(x.a)
  {
  }

  /** An offer with no card behind it: the peer waits for a card, never acknowledges, and its screen never ends of itself. */
  lemma NeverComes(window: u32, cx: Config, cy: Config, steps: seq<Step>, x: Side, y: Side, p: Polled, placed: bool, expired: bool)
    requires Met(window, cx, cy, steps, x, y) && y.a.deal.ready && PolledOk(y.a, p)
    requires window >= HELLO_HEAD && cx.offer && cy.accept && cx.own.None?
    ensures y.a.deal.willRecv && !y.a.inc.complete && !y.a.ackSent && !x.a.gotPeerAck
    ensures !y.a.failed && !y.a.peerLeft ==> Poll(y.a, p, placed, expired).1.Wait?
  {
    hide Met, PairInv, HandedOver;
    MetKeeps(window, cx, cy, steps, x, y);
    PairSymmetric(x, y);
    PairDeal(y, x);
    if y.a.inc.complete {
      CompleteMeansWhole(x, y);
      HasCard(x, y);
    }
    if x.a.gotPeerAck {
      AckMeansReceived(x, y);
    }
  }

  lemma HasCard(x: Side, y: Side)
    requires HandedOver(x, y)
    ensures x.a.cfg.own.Some? && x.a.out.done
  {
  }

  // ---- the terminal decision ----------------------------------------------------------

  /** What has been finalized was complete, and the success kept is that of placing the file, or none was placed yet. */
  ghost predicate PolledOk(a: App, p: Polled) {
    (p.finalized ==> a.deal.willRecv && a.inc.complete) && (!p.finalized ==> p.recvOk)
  }

  /** Success is: all this side's bytes were written, the peer's card came whole, and its file was put in its place. */
  ghost predicate Succeeded(a: App, p: Polled) {
    && a.connected && a.deal.ready && p.recvOk
    && (a.deal.willSend ==> a.out.done)
    && (a.deal.willRecv ==> a.inc.complete && p.finalized)
  }

  /**
   What the screen's verdict says, whatever made it end, and exactly when it is success: this side's bytes were written, the
   peer's card arrived whole and was placed, and then the ACK, a departure, a failure or the timeout ended it. With the ACK the
   peer has this side's card. Failure has one of three causes.
   */
  lemma VerdictMeans(window: u32, cx: Config, cy: Config, steps: seq<Step>, x: Side, y: Side, p: Polled, placed: bool, expired: bool)
    requires Met(window, cx, cy, steps, x, y) && PolledOk(x.a, p)
    ensures var (p1, v) := Poll(x.a, p, placed, expired);
      && PolledOk(x.a, p1)
      && (v.Terminate? ==> (v.ok <==> Succeeded(x.a, p1)))
      && (v == Terminate(true) <==>
            Succeeded(x.a, p1) && (!x.a.deal.willSend || x.a.gotPeerAck || x.a.peerLeft || x.a.failed || expired))
      && (v == Terminate(true) && x.a.deal.willRecv ==> HandedOver(y, x) && p1.finalized && p1.recvOk)
      && (v == Terminate(true) && x.a.deal.willSend ==>
            if x.a.gotPeerAck then HandedOver(x, y) else x.a.peerLeft || x.a.failed || expired)
      && (v == Terminate(false) ==> x.a.failed || x.a.peerLeft || (p1.finalized && !p1.recvOk))
  {
    hide Met, PairInv, HandedOver;
    MetKeeps(window, cx, cy, steps, x, y);
    PairSymmetric(x, y);
    if x.a.deal.willSend && x.a.gotPeerAck {
      AckedIsWhole(x, y);
    }
    if x.a.inc.complete {
      CompleteMeansWhole(y, x);
    }
  }

  /** What has been finalized was handed over whole, and an ending without a failure, a departure or the timeout was acknowledged. */
  lemma EndingIsSafe(window: u32, cx: Config, cy: Config, steps: seq<Step>, x: Side, y: Side, p: Polled, placed: bool, expired: bool)
    requires Met(window, cx, cy, steps, x, y) && PolledOk(x.a, p)
    ensures var (p1, v) := Poll(x.a, p, placed, expired);
      && (p1.finalized ==> HandedOver(y, x))
      && (v.Terminate? && x.a.deal.ready && x.a.deal.willRecv && !p1.finalized ==> v == Terminate(false) && (x.a.failed || x.a.peerLeft))
      && (v.Terminate? && !x.a.failed && !x.a.peerLeft && !expired ==>
            && (x.a.deal.willSend ==> HandedOver(x, y))
            && (x.a.deal.willRecv ==> HandedOver(y, x) && p1.finalized))
  {
    hide Met, PairInv, HandedOver;
    MetKeeps(window, cx, cy, steps, x, y);
    PairSymmetric(x, y);
    PairDeal(x, y);
    if x.a.deal.willSend && x.a.gotPeerAck {
      AckedIsWhole(x, y);
    }
    if x.a.inc.complete {
      CompleteMeansWhole(y, x);
    }
  }

  /** Undisturbed, a screen waits exactly for the peer's HELLO, the peer's card and the peer's ACK. */
  lemma WaitsExactly(window: u32, cx: Config, cy: Config, steps: seq<Step>, x: Side, y: Side, p: Polled, placed: bool)
    requires Met(window, cx, cy, steps, x, y) && PolledOk(x.a, p) && !x.a.failed && !x.a.peerLeft
    ensures Poll(x.a, p, placed, false).1.Wait? <==>
      || !x.a.connected || !x.a.deal.ready
      || (x.a.deal.willRecv && !x.a.inc.complete) || (x.a.deal.willSend && !x.a.gotPeerAck)
  {
    hide Met, PairInv, HandedOver;
    MetKeeps(window, cx, cy, steps, x, y);
    if x.a.deal.willSend && x.a.gotPeerAck {
      AckedIsWhole(x, y);
      HasCard(x, y);
    }
  }

  // ---- nothing left to do -------------------------------------------------------------

  /** Every frame was taken, every callback has returned, every event was handled. */
  ghost predicate AtRest(x: Side, y: Side) {
    && x.s.stack == [] && y.s.stack == []
    && x.s.rcvd == |y.s.sent| && y.s.rcvd == |x.s.sent|
    && x.a.seen == |x.s.trace| && y.a.seen == |y.s.trace|
  }

  lemma {:induction false} EventsIn(es: seq<Event>, e: Event, id: u16)
    requires e in EventsOf(es, id)
    ensures e in es && About(e, id)
  {
    if About(es[0], id) && es[0] == e {
    } else {
      EventsIn(es[1..], e, id);
    }
  }

  /** What the reader has of a stream whose every frame it took. */
  lemma NothingInFlight(s: Sess, b: Sess, id: u16)
    requires Linked(s, b) && Own(s.role, id) && b.rcvd == |s.sent| && id in s.streams && !s.streams[id].reset
    requires Accepts(b, s) && Intact(b)
    ensures LinkOf(s, b, id).fwd == [] && id in b.streams && !b.streams[id].reset && !b.streams[id].local
    ensures s.streams[id].finishedSent ==> b.streams[id].finishedRecv
    ensures id in s.opts && Opened(id, s.opts[id]) in b.trace
  {
    hide Half, Run, CreditInv, FramesInv;
    OpenerInv(s, b, id);
    var L := LinkOf(s, b, id);
    assert s.sent[b.rcvd..] == [];
    assert L.fwd == [];
    StillThere(L);
    PeerOwns(s, b, id);
    LinkedSymmetric(s, b);
    assert Own(s.role, id) ==> id != 0 && !Own(b.role, id);
    assert L.q != Unopened;
    forall e | e in L.evs ensures About(e, id) {
      EventsIn(b.trace, e, id);
    }
    FirstIsOpened(s.window, id, L);
    EventsIn(b.trace, Opened(id, s.opts[id]), id);
  }

  lemma StillThere(L: Link)
    requires TxInv(L) && L.fwd == [] && TxLive(L)
    ensures L.q == if L.tx.value.finishedSent then Ended else Streaming
  {
  }

  lemma FirstIsOpened(W: u32, id: u16, L: Link)
    requires Links.Inv(W, id, L) && L.rx.Some? && L.opts.Some?
    requires forall e <- L.evs :: e.Opened? ==> e.id == id
    ensures Opened(id, L.opts.value) in L.evs
  {
    assert L.evs[0] in L.evs;
  }

  /** A stream that was finished has ended at the other side, and its kind is known there. */
  lemma EndArrives(x: Side, y: Side, id: u16)
    requires LivePair(x, y) && AtRest(x, y) && SentEnd(x.s, id) && id in x.s.opts
    ensures id in y.a.inc.kinds && y.a.inc.kinds[id] == x.s.opts[id].kind
    ensures x.s.opts[id].kind == KIND_HELLO ==> y.a.deal.ready
    ensures x.s.opts[id].kind == KIND_CARD ==> y.a.inc.complete
    ensures x.s.opts[id].kind == KIND_ACK ==> y.a.gotPeerAck
  {
    hide Linked, Intact, Accepts, AppOk, Own, Asked, HeardInv, Tidy, Told;
    AskedParts(x, y.s);
    LinkedSymmetric(x.s, y.s);
    OwnFromOpts(x, y, id);
    NotReset(x.s, id);
    NothingInFlight(x.s, y.s, id);
    EndReported(y.s, id);
    assert y.s.trace[..y.a.seen] == y.s.trace;
    hide LivePair;
    NotedSays(y.a, y.s.trace, id, x.s.opts[id]);
  }

  lemma OwnFromOpts(x: Side, y: Side, id: u16)
    requires Linked(x.s, y.s) && SentEnd(x.s, id)
    ensures Own(x.s.role, id)
  {
  }

  lemma NotReset(s: Sess, id: u16)
    requires Intact(s) && id in s.streams
    ensures !s.streams[id].reset
  {
  }

  lemma EndReported(s: Sess, id: u16)
    requires Intact(s) && id in s.streams && s.streams[id].finishedRecv
    ensures Finished(id) in s.trace
  {
  }

  lemma NotedSays(a: App, es: seq<Event>, id: u16, o: Opts)
    requires Noted(a, es) && Opened(id, o) in es && Finished(id) in es
    ensures id in a.inc.kinds && a.inc.kinds[id] == o.kind
    ensures o.kind == KIND_HELLO ==> a.deal.ready
    ensures o.kind == KIND_CARD ==> a.inc.complete
    ensures o.kind == KIND_ACK ==> a.gotPeerAck
  {
  }

  /** At rest, a side that is up has told the peer all about itself. */
  lemma HelloArrives(x: Side, y: Side)
    requires LivePair(x, y) && AtRest(x, y) && x.a.connected
    ensures y.a.deal.ready
  {
    HelloIsNamed(x, y.s);
    hide PairInv, Accepts, Intact;
    EndArrives(x, y, x.a.helloId.value);
  }

  lemma HelloIsNamed(x: Side, b: Sess)
    requires Asked(x, b) && x.a.helloId.Some?
    ensures x.a.helloId.value in x.s.opts && x.s.opts[x.a.helloId.value].kind == KIND_HELLO
  {
    hide Linked, CardSaid, NoPause, OptsInv, HelloBytes;
  }

  /** At rest, a card that could be read has been sent: its window cannot be shut. */
  lemma PumpIsDone(x: Side, y: Side)
    requires LivePair(x, y) && AtRest(x, y) && x.a.deal.willSend && !x.a.out.stuck
    ensures x.a.out.done && y.a.inc.complete
  {
    hide PairInv, Accepts, Intact, Greeted, Acked, Noted, Willing;
    CardIsAsked(x, y);
    var c := x.a.out.card.value;
    if !x.a.out.done {
      WindowIsOpen(x, y, c);
    }
    EndArrives(x, y, c);
  }

  lemma CardIsAsked(x: Side, y: Side)
    requires PairInv(x, y) && x.a.deal.willSend
    ensures x.a.out.card.Some?
    ensures var c := x.a.out.card.value;
      && c in x.s.opts && x.s.opts[c].kind == KIND_CARD && c in x.s.streams && x.s.streams[c].local
      && (x.s.streams[c].finishedSent ==> x.a.out.done)
  {
    hide Linked, NoPause, HelloSaid, OptsInv, AppOk, Tidy, HeardInv, Told;
  }

  lemma WindowIsOpen(x: Side, y: Side, c: u16)
    requires LivePair(x, y) && AtRest(x, y) && c in x.s.streams && x.s.streams[c].local && !x.s.streams[c].finishedSent
    ensures CanWrite(x.s, c)
  {
    hide Asked, Linked, Greeted, Acked, Noted, Willing, Pumping, HeardInv, Tidy, Told, Own, Intact, Accepts;
    AskedParts(x, y.s);
    AskedParts(y, x.s);
    LinkedSymmetric(x.s, y.s);
    NotReset(x.s, c);
    LocalIsOwn(x.s, y.s, c);
    NothingInFlight(x.s, y.s, c);
    NothingBack(x, y, c);
    NotPaused(y.s, c);
    NoCreditDeadlock(x.s, y.s, c);
  }

  lemma LocalIsOwn(s: Sess, b: Sess, id: u16)
    requires Linked(s, b) && id in s.streams && s.streams[id].local
    ensures Own(s.role, id)
  {
  }

  lemma NothingBack(x: Side, y: Side, c: u16)
    requires AtRest(x, y)
    ensures InFlight(x.s, y.s, c) == [] && InFlight(y.s, x.s, c) == [] && InCallback(y.s, c) == []
  {
    assert x.s.sent[y.s.rcvd..] == [] && y.s.sent[x.s.rcvd..] == [];
  }

  lemma NotPaused(s: Sess, c: u16)
    requires NoPause(s) && c in s.streams
    ensures !s.streams[c].paused
  {
  }

  /** At rest, an ACK that was sent has come. */
  lemma AckArrives(x: Side, y: Side)
    requires LivePair(x, y) && AtRest(x, y) && x.a.ackSent
    ensures y.a.gotPeerAck
  {
    hide PairInv, Accepts, Intact;
    EndArrives(x, y, x.a.ackId.value);
  }

  /** Nothing was left behind: the exchange that `x` and `y` agreed on has happened. */
  ghost predicate Exchanged(x: Side, y: Side) {
    && y.a.deal.ready
    && (x.a.deal.willSend ==> x.a.out.done && y.a.inc.complete && HandedOver(x, y))
    && (y.a.ackSent <==> (y.a.deal.willRecv ==> x.a.cfg.own.Some?))
    && (x.a.gotPeerAck <==> y.a.ackSent)
  }

  /**
   Two connected sides that have nothing left to do, with nobody closing and cards that could be read, have read each other's
   HELLO, sent every agreed card whole, and acknowledged each other, unless a card was offered that is not there.
   */
  lemma RestMeansDone(window: u32, cx: Config, cy: Config, steps: seq<Step>, x: Side, y: Side)
    requires Met(window, cx, cy, steps, x, y) && AtRest(x, y)
    requires x.a.connected && y.a.connected && !x.a.out.stuck && !y.a.out.stuck
    ensures Exchanged(x, y) && Exchanged(y, x)
  {
    hide Met, LivePair, AtRest, Exchanged;
    MetLives(window, cx, cy, steps, x, y);
    LiveSymmetric(x, y);
    RestSymmetric(x, y);
    HalfDone(x, y);
    HalfDone(y, x);
  }

  lemma RestSymmetric(x: Side, y: Side)
    requires AtRest(x, y)
    ensures AtRest(y, x)
  {
  }

  lemma HalfDone(x: Side, y: Side)
    requires LivePair(x, y) && LivePair(y, x) && AtRest(x, y) && AtRest(y, x)
    requires x.a.connected && y.a.connected && !x.a.out.stuck
    ensures Exchanged(x, y)
  {
    hide AtRest, LivePair, PairInv, HandedOver;
    HelloArrives(x, y);
    HelloArrives(y, x);
    LiveIsPair(x, y);
    LiveIsPair(y, x);
    LiveDeal(x, y);
    PairDeal(x, y);
    PairDeal(y, x);
    if x.a.deal.willSend {
      PumpIsDone(x, y);
    }
    if y.a.inc.complete {
      CompleteMeansWhole(x, y);
      HasCard(x, y);
    }
    if y.a.ackSent {
      AckArrives(y, x);
    }
    if x.a.gotPeerAck {
      AckMeansReceived(x, y);
    }
    SameWindow(x, y);
  }

  lemma SameWindow(x: Side, y: Side)
    requires PairInv(x, y)
    ensures x.s.window == y.s.window
  {
    AskedParts(x, y.s);
  }

  /** So both screens end of themselves, unless they wait for a card that is not there. */
  lemma RestMeansOver(window: u32, cx: Config, cy: Config, steps: seq<Step>, x: Side, y: Side, p: Polled, placed: bool)
    requires Met(window, cx, cy, steps, x, y) && AtRest(x, y) && PolledOk(x.a, p)
    requires x.a.connected && y.a.connected && !x.a.out.stuck && !y.a.out.stuck
    requires cx.offer ==> cx.own.Some?
    requires cy.offer ==> cy.own.Some?
    ensures var (p1, v) := Poll(x.a, p, placed, false);
      v == Terminate(p1.recvOk) && (x.a.deal.willRecv ==> p1.finalized)
  {
    hide Met, AtRest, PairInv, LivePair, HandedOver;
    RestMeansDone(window, cx, cy, steps, x, y);
    MetKeeps(window, cx, cy, steps, x, y);
    PairSymmetric(x, y);
    PairDeal(x, y);
    PairDeal(y, x);
  }
}
