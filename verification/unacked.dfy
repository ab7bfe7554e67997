/** That the screen can report success although the peer does not have the card, and that only the ACK tells the difference. */
module Unacked {
  import opened Wire
  import opened Engine
  import opened Links
  import opened System
  import opened Guarantees
  import opened Transfer
  import opened Carrying
  import opened Sending
  import opened Hearing
  import opened Exchange
  import opened Settling
  import opened Agreement
  import opened Completion
  import opened Termination
  import Effects

  /** The end of a card of the peer's was reported. */
  ghost predicate CardEnded(y: Side) {
    exists id: u16 :: SaidOpen(y.s.trace, id, KIND_CARD) && Finished(id) in y.s.trace
  }

  /** A run in which the end of the card is reported, up to the step of the receiving session that reports it. */
  lemma {:induction false} BeforeTheEnd(x: Side, y: Side, steps: seq<Step>, x1: Side, y1: Side)
    returns (pre: seq<Step>, x2: Side, y2: Side, st: Step)
    requires LivePair(x, y) && RunsTo(x, y, steps, x1, y1) && !CardEnded(y) && CardEnded(y1)
    ensures RunsTo(x, y, pre, x2, y2) && LivePair(x2, y2) && !CardEnded(y2)
    ensures !st.first && SideOk(y2, x2, st) && CardEnded(SideDo(y2, x2, st))
    decreases |steps|
  {
    hide LivePair, SideOk, SideDo, CardEnded;
    var s := steps[0];
    if s.first {
      StepLives(x, y, s);
      pre, x2, y2, st := BeforeTheEnd(SideDo(x, y, s), y, steps[1..], x1, y1);
      OneMore(x, y, s, pre, x2, y2);
      pre := [s] + pre;
    } else if CardEnded(SideDo(y, x, s)) {
      pre, x2, y2, st := [], x, y, s;
    } else {
      LiveSymmetric(x, y);
      StepLives(y, x, s);
      LiveSymmetric(SideDo(y, x, s), x);
      pre, x2, y2, st := BeforeTheEnd(x, SideDo(y, x, s), steps[1..], x1, y1);
      OneMore(x, y, s, pre, x2, y2);
      pre := [s] + pre;
    }
  }

  /** What was handed over has ended. */
  lemma HandedIsEnded(x: Side, y: Side)
    requires PairInv(x, y) && HandedOver(x, y)
    ensures CardEnded(y)
  {
    hide Linked, NoPause, HelloSaid, OptsInv, AppOk, Tidy, HeardInv, Told, CardInv, PumpOk;
    var c := x.a.out.card.value;
    PairAsked(x, y);
    CardIsLocal(x, y.s);
    AskedParts(x, y.s);
    FinishedWasOpened(x.s, y.s, c);
    assert x.s.opts[c].kind == KIND_CARD;
    assert SaidOpen(y.s.trace, c, KIND_CARD);
  }

  lemma FinishedWasOpened(s: Sess, b: Sess, id: u16)
    requires Linked(s, b) && id in s.opts && Finished(id) in b.trace && Own(s.role, id)
    ensures Opened(id, s.opts[id]) in b.trace
  {
    hide Half, Run, TxInv, RxInv, CreditInv, FramesInv;
    OpenerInv(s, b, id);
    InEventsOf(b.trace, Finished(id), id);
    var L := LinkOf(s, b, id);
    assert L.evs[0] in L.evs;
    EventsIn(b.trace, L.evs[0], id);
  }

  /** Once it has ended, the sender was done. */
  lemma EndedIsSent(x: Side, y: Side)
    requires PairInv(x, y) && CardEnded(y)
    ensures x.a.deal.willSend && x.a.out.done
  {
    hide Linked, NoPause, HelloSaid, OptsInv, AppOk, Tidy, HeardInv, Told, CardInv, PumpOk, SaidOpen, Own;
    var id: u16 :| SaidOpen(y.s.trace, id, KIND_CARD) && Finished(id) in y.s.trace;
    AskedParts(x, y.s);
    PairTidy(x, y);
    OpenedAsNamed(y, x, id, KIND_CARD);
    NamedCard(x.a, id);
    PairAsked(x, y);
    FinishedIsWhole(x, y, id);
  }

  lemma PairTidy(x: Side, y: Side)
    requires PairInv(x, y)
    ensures Tidy(y.s.role, y.s.trace)
  {
  }

  lemma PairAsked(x: Side, y: Side)
    requires PairInv(x, y)
    ensures Asked(x, y.s) && Asked(y, x.s)
  {
  }

  /** Before the end of the card is reported nothing was handed over, and nothing acknowledged. */
  lemma NotYet(x: Side, y: Side)
    requires PairInv(x, y) && !CardEnded(y) && x.a.deal.willSend
    ensures !HandedOver(x, y) && !x.a.gotPeerAck
  {
    hide PairInv, HandedOver, CardEnded;
    if x.a.gotPeerAck {
      AckedIsWhole(x, y);
    }
    if HandedOver(x, y) {
      HandedIsEnded(x, y);
    }
  }

  lemma NothingEnded(y: Side)
    requires y.s.trace == [Connected]
    ensures !CardEnded(y)
  {
  }

  /** The step that reports the end is one of the session, and the application has still to hear of it. */
  lemma EndIsNews(y: Side, x: Side, st: Step)
    requires LivePair(y, x) && SideOk(y, x, st) && !CardEnded(y) && CardEnded(SideDo(y, x, st))
    ensures var u := SideDo(y, x, st); u.a.seen == |y.s.trace| < |u.s.trace|
  {
    hide LivePair, CardEnded, Handle, Lower, AppOk, Do, Enabled;
    match st
    case Session(_, act) =>
      Effects.ActTraceGrows(y.s, act);
      if Do(y.s, act).trace == y.s.trace {
        SameEnded(y, SideDo(y, x, st));
      }
    case Callback(_) =>
      HandleStaysOpen(y, x);
      SameEnded(y, Handle(y));
  }

  lemma SameEnded(y: Side, u: Side)
    requires u.s.trace == y.s.trace
    ensures CardEnded(u) <==> CardEnded(y)
  {
    hide SaidOpen;
  }

  /** Once the application has heard of the end, the card has been handed over. */
  lemma HeardIsHanded(x: Side, y: Side)
    requires LivePair(x, y) && y.a.seen < |y.s.trace| && CardEnded(y)
    ensures SideOk(y, x, Callback(false)) && HandedOver(x, Handle(y))
  {
    hide LivePair, HandedOver, Handle, CardEnded;
    LiveSymmetric(x, y);
    LiveIsPair(y, x);
    CallbackIsReady(y, x);
    AllSeen(y, x);
    HandleStaysOpen(y, x);
    StepLives(y, x, Callback(true));
    LiveSymmetric(Handle(y), x);
    LiveIsPair(x, Handle(y));
    SameEnded(y, Handle(y));
    AllHeard(Handle(y), x);
    EndedIsComplete(Handle(y));
    CompleteMeansWhole(x, Handle(y));
  }

  lemma AllHeard(u: Side, x: Side)
    requires LivePair(u, x) && u.a.seen == |u.s.trace|
    ensures Noted(u.a, u.s.trace)
  {
    hide PairInv, Noted;
    assert u.s.trace[..u.a.seen] == u.s.trace;
  }

  lemma EndedIsComplete(u: Side)
    requires Noted(u.a, u.s.trace) && CardEnded(u)
    ensures u.a.inc.complete
  {
    var id: u16 :| SaidOpen(u.s.trace, id, KIND_CARD) && Finished(id) in u.s.trace;
    var o: Opts :| Opened(id, o) in u.s.trace && o.kind == KIND_CARD;
  }

  /** A side that only sends, has sent, and waits no longer for the ACK ends with success. */
  lemma TimeoutEnds(a: App)
    requires a.connected && a.deal.ready && a.deal.willSend && a.out.done && !a.deal.willRecv
    ensures Poll(a, Polled(false, true), false, true) == (Polled(false, true), Terminate(true))
  {
  }

  lemma OneWay(window: u32, cx: Config, cy: Config, steps: seq<Step>, x: Side, y: Side)
    requires Met(window, cx, cy, steps, x, y) && x.a.deal.willSend && !(cx.accept && cy.offer)
    ensures x.a.deal.ready && !x.a.deal.willRecv
  {
    hide Met, PairInv;
    MetKeeps(window, cx, cy, steps, x, y);
    PairDeal(x, y);
  }

  /**
   For every card that can be sent one way there is a run after which the sender's screen, its patience over, reports success
   although the peer was never handed the card; and a run that leaves the sender in the very same state although it was. So
   short of the ACK nothing the sender has seen can tell the two apart.
   */
  lemma SucceedsUnacked(window: u32, cx: Config, cy: Config)
    requires window >= HELLO_HEAD && OwnOk(cx) && OwnOk(cy) && Readable(cx) && Readable(cy)
    requires cx.offer && cx.own.Some? && cy.accept && !(cx.accept && cy.offer)
    ensures exists steps: seq<Step>, more: seq<Step>, x: Side, y: Side, z: Side ::
      && Met(window, cx, cy, steps, x, y) && Met(window, cx, cy, more, x, z)
      && x.a.deal.willSend && !x.a.gotPeerAck
      && Poll(x.a, Polled(false, true), false, true) == (Polled(false, true), Terminate(true))
      && !HandedOver(x, y) && HandedOver(x, z)
  {
    hide LivePair, PairInv, RunsTo, SideOk, SideDo, AtRest, CardEnded, HandedOver, Readable, Flowing, Poll, Handle, Met;
    var x0, y0 := Start(Host, window, cx), Start(Client, window, cy);
    var up, x1, y1, rest, xe, ye := Termination.Finish(window, cx, cy);
    NothingEnded(y1);
    ExpectedExactly(window, cx, cy, up + rest, xe, ye);
    MetKeeps(window, cx, cy, up + rest, xe, ye);
    HandedIsEnded(xe, ye);
    var pre, x, y, st := BeforeTheEnd(x1, y1, rest, xe, ye);
    RunOn(x0, y0, up, x1, y1, pre, x, y);
    MetFrom(window, cx, cy, up + pre, x, y);
    var u, z, more := AfterTheEnd(x, y, st);
    RunOn(x0, y0, up + pre, x, y, more, x, z);
    MetFrom(window, cx, cy, up + pre + more, x, z);
    EndedIsSent(x, u);
    OneWay(window, cx, cy, up + pre, x, y);
    NotYet(x, y);
    RunFlows(x1, y1, pre, x, y);
    TimeoutEnds(x.a);
  }

  /** The end of the card is reported and heard of, and the sender has no part in it. */
  lemma AfterTheEnd(x: Side, y: Side, st: Step) returns (u: Side, z: Side, more: seq<Step>)
    requires LivePair(x, y) && !CardEnded(y) && !st.first && SideOk(y, x, st) && CardEnded(SideDo(y, x, st))
    ensures PairInv(x, y) && PairInv(x, u) && CardEnded(u)
    ensures RunsTo(x, y, more, x, z) && HandedOver(x, z)
  {
    hide LivePair, PairInv, SideOk, Do, CardEnded, HandedOver, Handle, RunsTo;
    LiveIsPair(x, y);
    LiveSymmetric(x, y);
    u := SideDo(y, x, st);
    EndIsNews(y, x, st);
    StepLives(y, x, st);
    LiveSymmetric(u, x);
    LiveIsPair(x, u);
    HeardIsHanded(x, u);
    z := SideDo(u, x, Callback(false));
    StaysPut(x, z);
    OneMore(x, u, Callback(false), [], x, z);
    OneMore(x, y, st, [Callback(false)] + [], x, z);
    more := [st] + ([Callback(false)] + []);
  }
}
