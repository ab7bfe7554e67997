/**
 That the exchange comes to an end: what both sides keep beside the safety of `Exchange`, so that two sides with nothing
 left to do have exchanged all they agreed on.
 */
module Settling {
  import opened Options
  import opened Wire
  import opened Engine
  import opened Links
  import opened System
  import opened Guarantees
  import opened Transfer
  import opened Carrying
  import opened Intactness
  import opened Sending
  import opened Hearing
  import opened Exchange

  // ---- the stream table never fills up ----------------------------------------------

  lemma {:induction false} SubsetSize<T>(a: set<T>, b: set<T>)
    requires a <= b
    ensures |a| <= |b|
  {
    if a != {} {
      var e :| e in a;
      SubsetSize(a - {e}, b - {e});
    }
  }

  ghost function OneOf(o: Option<u16>): (r: set<u16>)
    ensures |r| <= 1
  {
    if o.Some? then {o.value} else {}
  }

  /** The streams a side has opened. */
  ghost function OpenedBy(a: App): (r: set<u16>)
    ensures |r| <= 3
  {
    OneOf(a.helloId) + OneOf(a.out.card) + OneOf(a.ackId)
  }

  lemma OptsAreOpened(t: Side, id: u16)
    requires OptsInv(t.a, t.s) && id in t.s.opts
    ensures id in OpenedBy(t.a)
  {
  }

  lemma StreamIsOpened(x: Side, y: Side, id: u16)
    requires Linked(x.s, y.s) && OptsInv(x.a, x.s) && OptsInv(y.a, y.s) && id in x.s.streams
    ensures id in OpenedBy(x.a) + OpenedBy(y.a)
  {
    hide Links.Inv, Half, OptsInv, LinkOf, Run;
    if Own(x.s.role, id) {
      OpenerInv(x.s, y.s, id);
      OptsAreOpened(x, id);
    } else {
      ReaderInv(x.s, y.s, id);
      AcceptedIsAsked(x.s, y.s, id);
      OptsAreOpened(y, id);
    }
  }

  lemma AcceptedIsAsked(s: Sess, b: Sess, id: u16)
    requires Linked(s, b) && id in s.streams && id != 0 && !Own(s.role, id)
    ensures id in b.opts
  {
    hide Half, SessInv, Run, CreditInv, ContentInv, FramesInv, Own;
    ReaderInv(s, b, id);
    var L := LinkOf(b, s, id);
    assert L.opts.Some? by { RxMeansOpened(s.window, L); }
  }

  lemma RxMeansOpened(W: u32, L: Link)
    requires TxInv(L) && RxInv(W, L) && L.rx.Some?
    ensures L.opts.Some?
  {
    if EndPhase(L) == Unopened {
      StillUnopened(L.q, L.fwd);
    }
  }

  /** Each side opens at most three streams, so neither table of sixteen is ever full. */
  lemma FewStreams(x: Side, y: Side)
    requires Linked(x.s, y.s) && OptsInv(x.a, x.s) && OptsInv(y.a, y.s)
    ensures |x.s.streams| <= 6
  {
    hide Linked, OptsInv, OpenedBy;
    forall id | id in x.s.streams ensures id in OpenedBy(x.a) + OpenedBy(y.a) {
      StreamIsOpened(x, y, id);
    }
    SubsetSize(x.s.streams.Keys, OpenedBy(x.a) + OpenedBy(y.a));
    SumSize(OpenedBy(x.a), OpenedBy(y.a));
  }

  lemma SumSize<T>(a: set<T>, b: set<T>)
    ensures |a + b| <= |a| + |b|
  {
    assert |a + b| == |a| + |b| - |a * b|;
  }

  // ---- what a side keeps ------------------------------------------------------------

  /** This side's stream `id` has been finished. */
  ghost predicate SentEnd(s: Sess, id: u16) {
    id in s.streams && s.streams[id].local && s.streams[id].finishedSent
  }

  /** HELLO goes out, and to its end. */
  ghost predicate Greeted(a: App, s: Sess) {
    a.helloSent ==> a.helloId.Some? && SentEnd(s, a.helloId.value)
  }

  /** So does ACK. */
  ghost predicate Acked(a: App, s: Sess) {
    a.ackSent ==> a.ackId.Some? && a.ackId.value in s.opts && s.opts[a.ackId.value].kind == KIND_ACK && SentEnd(s, a.ackId.value)
  }

  /** A card is sent exactly if it is offered here, wanted there, and there is one. */
  ghost predicate Willing(a: App) {
    && (a.deal.ready ==> (a.deal.willSend <==> a.cfg.offer && a.deal.peerAccept && a.cfg.own.Some?))
    && (a.deal.ready && (a.deal.willRecv ==> a.inc.complete) ==> a.ackSent)
  }

  /** A pump that is not done and can read is waiting for its window, or for the WRITABLE that was just raised. */
  ghost predicate Pumping(a: App, s: Sess) {
    a.out.card.Some? ==>
      && (a.out.done ==> SentEnd(s, a.out.card.value))
      && (!a.out.done && !a.out.stuck && CanWrite(s, a.out.card.value) ==>
            a.seen < |s.trace| && s.trace[a.seen] == Writable(a.out.card.value))
  }

  /** Everything heard was taken note of. */
  ghost predicate Noted(a: App, es: seq<Event>) {
    && (forall id: u16, o: Opts :: Opened(id, o) in es ==>
          id in a.inc.kinds && a.inc.kinds[id] == o.kind && (o.kind == KIND_ACK ==> a.gotPeerAck))
    && (forall id: u16 :: Finished(id) in es && KindOf(a.inc, id) == KIND_HELLO ==> a.deal.ready)
    && (forall id: u16 :: Finished(id) in es && KindOf(a.inc, id) == KIND_CARD ==> a.inc.complete)
  }

  ghost predicate Lively(t: Side) {
    && (t.a.seen < |t.s.trace| ==> !t.s.closing)
    && (t.a.connected ==> t.a.helloSent) && Greeted(t.a, t.s) && Acked(t.a, t.s) && Willing(t.a) && Pumping(t.a, t.s)
    && t.a.seen <= |t.s.trace| && Noted(t.a, t.s.trace[..t.a.seen])
    && Intact(t.s)
  }

  ghost predicate LivePair(x: Side, y: Side) {
    && PairInv(x, y) && Lively(x) && Lively(y) && Accepts(x.s, y.s) && Accepts(y.s, x.s)
  }

  // ---- a session's own step ---------------------------------------------------------

  lemma CarriedSaid(a: App, s: Sess, t: Sess)
    requires Greeted(a, s) && Acked(a, s) && Carries(s, t)
    ensures Greeted(a, t) && Acked(a, t)
  {
  }

  lemma CardIsLocal(t: Side, b: Sess)
    requires Asked(t, b) && t.a.out.card.Some?
    ensures var c := t.a.out.card.value; c in t.s.streams && t.s.streams[c].local && c < Limit(t.s) && Own(t.s.role, c)
  {
    hide Links.Inv, Half, LinkOf, Run, HelloSaid, OptsInv, NoPause, DealInv;
    var c := t.a.out.card.value;
    assert c in t.s.streams && t.s.streams[c].local;
    OpenerInv(t.s, b, c);
  }

  lemma CarriedPumping(x: Side, b: Sess, act: Act)
    requires Asked(x, b) && Pumping(x.a, x.s) && x.a.seen == |x.s.trace|
    requires ActOk(x.s, b, act) && Lower(act) && Fine(x.s, Do(x.s, act)) && Linked(Do(x.s, act), b)
    ensures Pumping(x.a, Do(x.s, act))
  {
    hide Linked, Asked, Do, Carries, NoPause, Timely, CanWrite;
    var t := Do(x.s, act);
    if x.a.out.card.Some? {
      var c := x.a.out.card.value;
      CardIsLocal(x, b);
      CarriedEnd(x.s, t, c);
      AskedParts(x, b);
      LinkedParts(x.s, b);
      LinkedParts(t, b);
      if !CanWrite(x.s, c) {
        OnlyWindowReopens(x.s, b, act, c);
        if CanWrite(t, c) {
          var i :| 0 <= i < |t.trace[|x.s.trace|..]| && t.trace[|x.s.trace|..][i] == Writable(c);
          assert i == 0;
        }
      }
    }
  }

  lemma CarriedEnd(s: Sess, t: Sess, id: u16)
    requires Carries(s, t)
    ensures SentEnd(s, id) ==> SentEnd(t, id)
  {
  }

  lemma LowerLively(x: Side, y: Side, act: Act)
    requires LivePair(x, y) && ActOk(x.s, y.s, act) && Lower(act) && x.a.seen == |x.s.trace|
    ensures LivePair(x.(s := Do(x.s, act)), y)
  {
    hide Linked, Do, Asked, Carries, NoPause, Timely, Noted, Willing, Greeted, Acked, Pumping, Intact, Accepts, HeardInv, Tidy, Told;
    var t := Do(x.s, act);
    AskedParts(x, y.s);
    AskedParts(y, x.s);
    FewStreams(x, y);
    LowerKeeps(x, y, act);
    LowerStep(x.s, y.s, act);
    StepIntact(x.s, y.s, act);
    CarriesFields(x.s, t);
    StepAccepts(x.s, y.s, act);
    StepRcvd(x.s, act);
    LinkedSymmetric(x.s, y.s);
    LinkedSymmetric(t, y.s);
    LinkedParts(y.s, x.s);
    LinkedParts(y.s, t);
    AcceptsLater(y.s, x.s, t);
    CarriedSaid(x.a, x.s, t);
    CarriedPumping(x, y.s, act);
    if t.trace != x.s.trace {
      RaisedWhileOpen(x.s, act);
    }
    assert t.trace[..x.a.seen] == x.s.trace == x.s.trace[..x.a.seen];
  }

  // ---- the application's calls ------------------------------------------------------

  /** Nothing was taken from the channel, and nothing taken back. */
  ghost predicate Grows(s: Sess, t: Sess) {
    t.rcvd == s.rcvd && t.role == s.role && t.closing == s.closing && s.sent <= t.sent && s.streams.Keys <= t.streams.Keys
  }

  lemma GrowsTwice(s: Sess, t: Sess, u: Sess)
    requires Grows(s, t) && Grows(t, u)
    ensures Grows(s, u)
  {
  }

  /** `t` has what `s` had, and perhaps one more stream. */
  ghost predicate Adds(s: Sess, t: Sess) {
    && Grows(s, t)
    && (forall id <- s.streams :: id in t.streams && t.streams[id] == s.streams[id])
    && (forall id <- s.opts :: id in t.opts && t.opts[id] == s.opts[id])
    && t.trace == s.trace && |t.streams| <= |s.streams| + 1
  }

  lemma AddsKeeps(a: App, s: Sess, t: Sess)
    requires Adds(s, t) && Greeted(a, s) && Acked(a, s)
    ensures Greeted(a, t) && Acked(a, t) && Grows(s, t)
  {
  }

  lemma OnlyWroteIntact(s: Sess, t: Sess, id: u16)
    requires OnlyWrote(s, t, id) && Intact(s)
    ensures Intact(t)
  {
  }

  /** From `s` to `t` the stream `id` was opened. */
  ghost predicate Opens(s: Sess, t: Sess, id: u16, o: Opts) {
    && id !in s.streams && id !in s.opts
    && t.streams == s.streams[id := NewStream(true, s.window)] && t.opts == s.opts[id := o]
    && t.sent == s.sent + [Frame(FRAME_OPEN, id, Wr16(o.kind) + Wr64(o.hint))]
    && t.trace == s.trace && t.closing == s.closing && t.rcvd == s.rcvd && t.role == s.role
  }

  lemma OpensOne(s: Sess, b: Sess, o: Opts)
    requires Linked(s, b) && CanOpen(s) && s.opens < MAX_OPENS
    ensures Opens(s, OpenStream(s, o), s.nextTxId, o)
  {
    hide Linked, Own;
    NextIsFresh(s, b);
  }

  lemma OpensAdds(s: Sess, t: Sess, id: u16, o: Opts)
    requires Opens(s, t, id, o)
    ensures Adds(s, t)
  {
    assert t.streams.Keys == s.streams.Keys + {id};
    assert |t.streams| == |t.streams.Keys| && |s.streams| == |s.streams.Keys|;
  }

  lemma OpensIntact(s: Sess, t: Sess, id: u16, o: Opts)
    requires Opens(s, t, id, o) && Intact(s)
    ensures Intact(t)
  {
  }

  lemma OpenIntact(s: Sess, b: Sess, o: Opts)
    requires Linked(s, b) && CanOpen(s) && s.opens < MAX_OPENS && Intact(s)
    ensures Intact(OpenStream(s, o)) && Adds(s, OpenStream(s, o))
  {
    hide Linked, OpenStream, Opens, Adds, Intact;
    OpensOne(s, b, o);
    OpensAdds(s, OpenStream(s, o), s.nextTxId, o);
    OpensIntact(s, OpenStream(s, o), s.nextTxId, o);
  }

  /** A stream is opened, written to and finished; all else stays. */
  lemma SaidIntact(s: Sess, b: Sess, o: Opts, t: Sess)
    requires Linked(s, b) && CanOpen(s) && s.opens < MAX_OPENS && Intact(s)
    requires OnlyWrote(OpenStream(s, o), t, s.nextTxId)
    ensures Intact(t) && Adds(s, t)
    ensures s.nextTxId in t.streams && t.streams[s.nextTxId].local && !t.streams[s.nextTxId].reset && t.opts == s.opts[s.nextTxId := o]
  {
    hide Linked, Intact;
    var s1 := OpenStream(s, o);
    OpenEffect(s, b, o);
    OpenIntact(s, b, o);
    hide OpenStream;
    OnlyWroteIntact(s1, t, s.nextTxId);
    assert t.streams.Keys == s1.streams.Keys;
    assert |t.streams| == |t.streams.Keys| && |s1.streams| == |s1.streams.Keys|;
  }

  /** A pump that is not woken has nothing to do. */
  ghost predicate Calm(a: App, s: Sess) {
    a.out.card.Some? ==>
      && a.out.card.value in s.streams
      && (a.out.done ==> SentEnd(s, a.out.card.value))
      && (!a.out.done && !a.out.stuck ==> !CanWrite(s, a.out.card.value))
  }

  ghost predicate Orderly(a: App, s: Sess) {
    Greeted(a, s) && Acked(a, s) && Intact(s) && Calm(a, s)
  }

  lemma AddsCalm(a: App, s: Sess, t: Sess)
    requires Adds(s, t) && Calm(a, s)
    ensures Calm(a, t)
  {
  }

  lemma HelloStream(t: Side, b: Sess)
    requires Asked(t, b) && !t.a.helloSent && Intact(t.s) && CanOpen(t.s)
    ensures var id, h := t.s.nextTxId, HelloBytes(t.a.cfg);
      var s := FinishIfOpen(HelloLoop(OpenStream(t.s, Opts(KIND_HELLO, |h|)), id, h, 64), id);
      Intact(s) && Adds(t.s, s) && SentEnd(s, id) && s.trace == t.s.trace
  {
    hide OnlyWrote, NoPause, CardInv, CardSaid, HelloSaid, DealInv, AppOk, HelloLoop, FinishIfOpen, OpenStream, Intact, Adds, SentEnd, HelloBytes, OptsInv;
    var id, h := t.s.nextTxId, HelloBytes(t.a.cfg);
    var o := Opts(KIND_HELLO, |h|);
    FewOpens(t.a, t.s);
    hide Linked;
    var s1 := OpenStream(t.s, o);
    OpenEffect(t.s, b, o);
    HelloLoopSends(s1, b, id, h);
    var s2 := HelloLoop(s1, id, h, 64);
    var s3 := FinishIfOpen(s2, id);
    FinishEffect(s2, id);
    OnlyWroteTwice(s1, s2, s3, id);
    SaidIntact(t.s, b, o, s2);
    SaidIntact(t.s, b, o, s3);
    FinishedStream(s2, s3, id);
    OnlyWroteFields(s1, s3, id);
  }

  lemma HelloOrderly(t: Side, b: Sess)
    requires Asked(t, b) && Orderly(t.a, t.s) && CanOpen(t.s)
    ensures var u := SendHello(t);
      && Orderly(u.a, u.s) && u.a.helloSent
      && u.a == t.a.(helloSent := true, helloId := u.a.helloId) && u.s.trace == t.s.trace && Grows(t.s, u.s)
  {
    hide Asked, HelloLoop, FinishIfOpen, OpenStream, Intact, Calm, Adds, SentEnd, HelloBytes;
    if !t.a.helloSent {
      HelloStream(t, b);
      var u := SendHello(t);
      AddsKeeps(t.a, t.s, u.s);
      AddsCalm(t.a, t.s, u.s);
      CalmSame(t.a, u.a, u.s);
    }
  }

  lemma AckStream(t: Side, b: Sess)
    requires Asked(t, b) && Intact(t.s) && CanOpen(t.s)
    ensures var id, o := t.s.nextTxId, Opts(KIND_ACK, 0);
      var s := FinishIfOpen(OpenStream(t.s, o), id);
      Intact(s) && Adds(t.s, s) && SentEnd(s, id) && s.trace == t.s.trace && id in s.opts && s.opts[id] == o
  {
    hide OnlyWrote, NoPause, CardInv, CardSaid, HelloSaid, DealInv, AppOk, FinishIfOpen, OpenStream, Intact, Adds, SentEnd, OptsInv;
    var id, o := t.s.nextTxId, Opts(KIND_ACK, 0);
    FewOpens(t.a, t.s);
    hide Linked;
    var s1 := OpenStream(t.s, o);
    OpenEffect(t.s, b, o);
    var s2 := FinishIfOpen(s1, id);
    FinishEffect(s1, id);
    SaidIntact(t.s, b, o, s2);
    FinishedStream(s1, s2, id);
    OnlyWroteFields(s1, s2, id);
  }

  lemma AckOrderly(t: Side, b: Sess)
    requires Asked(t, b) && Orderly(t.a, t.s) && CanOpen(t.s)
    ensures var u := MaybeSendAck(t);
      && Orderly(u.a, u.s) && (u.a.deal.ready && (u.a.deal.willRecv ==> u.a.inc.complete) ==> u.a.ackSent)
      && u.a == t.a.(ackSent := u.a.ackSent, ackId := u.a.ackId) && u.s.trace == t.s.trace && Grows(t.s, u.s)
  {
    hide Asked, FinishIfOpen, OpenStream, Intact, Calm, Adds, SentEnd;
    if !t.a.ackSent && t.a.deal.ready && (t.a.deal.willRecv ==> t.a.inc.complete) {
      AckStream(t, b);
      var u := MaybeSendAck(t);
      AddsKeeps(t.a, t.s, u.s);
      AddsCalm(t.a, t.s, u.s);
      CalmSame(t.a, u.a, u.s);
    }
  }

  lemma FinishedStream(s: Sess, t: Sess, id: u16)
    requires t == FinishIfOpen(s, id) && id in s.streams && s.streams[id].local && !s.streams[id].reset
    ensures SentEnd(t, id)
  {
    hide OnlyWrote;
    FinishEffect(s, id);
  }

  lemma CalmSame(a: App, a1: App, s: Sess)
    requires Calm(a, s) && a1.out == a.out
    ensures Calm(a1, s)
  {
  }

  // ---- the pump ---------------------------------------------------------------------

  /** The card's stream, and that it is finished once the pump is done. */
  ghost predicate CardEnds(o: Outgoing, s: Sess)
    requires o.card.Some?
  {
    var c := o.card.value;
    c in s.streams && s.streams[c].local && !s.streams[c].reset && (o.done ==> SentEnd(s, c))
  }

  lemma WriteTurnEnds(p: Pump)
    requires PumpOk(p.o) && CardEnds(p.o, p.s)
    ensures WriteTurn(p).p.o.card == p.o.card && CardEnds(WriteTurn(p).p.o, WriteTurn(p).p.s)
  {
    hide WriteIfOpen, AcceptedOn;
    var id, rest := p.o.card.value, p.o.buf[p.o.off..];
    WriteEffect(p.s, id, rest);
  }

  lemma TurnEnds(p: Pump)
    requires PumpOk(p.o) && CardEnds(p.o, p.s)
    ensures PumpTurn(p).p.o.card == p.o.card && CardEnds(PumpTurn(p).p.o, PumpTurn(p).p.s)
  {
    hide WriteTurn, FinishIfOpen, ReadShare;
    if p.o.off == |p.o.buf| {
      RefillProgress(p.o);
      var o1 := Refilled(p.o);
      if o1.buf != [] {
        WriteTurnEnds(p.(o := o1));
      } else if Remaining(o1.stream.value) > 0 || o1.stream.value.error {
      } else {
        var s1 := FinishIfOpen(p.s, p.o.card.value);
        FinishEffect(p.s, p.o.card.value);
        FinishedStream(p.s, s1, p.o.card.value);
      }
    } else {
      WriteTurnEnds(p);
    }
  }

  lemma {:induction false} PumpEnds(p: Pump)
    requires PumpOk(p.o) && CardEnds(p.o, p.s)
    ensures PumpSend(p).o.card == p.o.card && CardEnds(PumpSend(p).o, PumpSend(p).s)
    decreases ToSend(p.o)
  {
    hide PumpTurn, ToSend, CardEnds;
    TurnProgress(p);
    TurnEnds(p);
    if PumpTurn(p).Again? {
      PumpEnds(PumpTurn(p).p);
    }
  }

  lemma OtherEnds(s: Sess, t: Sess, c: u16, id: u16)
    requires OnlyWrote(s, t, c) && id != c && SentEnd(s, id)
    ensures SentEnd(t, id)
  {
  }

  lemma OthersStayFinished(t: Side, s: Sess)
    requires t.a.out.card.Some? && CardSaid(t.a, t.s) && HelloSaid(t.a, t.s) && Greeted(t.a, t.s) && Acked(t.a, t.s)
    requires OnlyWrote(t.s, s, t.a.out.card.value)
    ensures Greeted(t.a, s) && Acked(t.a, s)
  {
    hide CardInv, PumpOk, HelloBytes, OnlyWrote, SentEnd;
    var c := t.a.out.card.value;
    OnlyWroteFields(t.s, s, c);
    if t.a.helloSent {
      assert t.s.opts[t.a.helloId.value].kind == KIND_HELLO;
      OtherEnds(t.s, s, c, t.a.helloId.value);
    }
    if t.a.ackSent {
      OtherEnds(t.s, s, c, t.a.ackId.value);
    }
  }

  lemma PumpedOrderly(t: Side, b: Sess)
    requires Asked(t, b) && t.a.out.card.Some? && CardEnds(t.a.out, t.s)
    requires Greeted(t.a, t.s) && Acked(t.a, t.s) && Intact(t.s)
    ensures var u := Pumped(t);
      && Orderly(u.a, u.s) && u.a.out.card == t.a.out.card
      && u.a == t.a.(out := u.a.out, failed := u.a.failed)
      && u.s.trace == t.s.trace && u.s.closing == t.s.closing && |u.s.streams| == |t.s.streams| && Grows(t.s, u.s)
  {
    hide Linked, OnlyWrote, NoPause, CardInv, Intact, Greeted, Acked, PumpSend, OptsInv, DealInv, HelloBytes, CanWrite;
    var c := t.a.out.card.value;
    var p := Pump(t.a.out, t.s);
    PumpSendKeeps(p, b);
    PumpStopsWithReason(p);
    PumpEnds(p);
    var r := PumpSend(p);
    OnlyWroteIntact(t.s, r.s, c);
    OthersStayFinished(t, r.s);
    OnlyWroteSizes(t.s, r.s, c);
    SameGreeted(t.a, Pumped(t).a, r.s);
  }

  lemma OnlyWroteSizes(s: Sess, t: Sess, id: u16)
    requires OnlyWrote(s, t, id)
    ensures t.trace == s.trace && t.closing == s.closing && |t.streams| == |s.streams| && Grows(s, t)
  {
    assert |t.streams| == |t.streams.Keys| && |s.streams| == |s.streams.Keys|;
  }

  lemma SameGreeted(a: App, a1: App, s: Sess)
    requires Greeted(a, s) && Acked(a, s)
    requires a1.helloSent == a.helloSent && a1.helloId == a.helloId && a1.ackSent == a.ackSent && a1.ackId == a.ackId
    ensures Greeted(a1, s) && Acked(a1, s)
  {
  }

  // ---- the peer's HELLO ---------------------------------------------------------------

  /** The card's stream is opened whenever there is a card to send. */
  lemma StartOrderly(t: Side, b: Sess)
    requires Asked(t, b) && Orderly(t.a, t.s) && CanOpen(t.s) && !t.a.deal.ready
    ensures var u := StartCard(t);
      && Greeted(u.a, u.s) && Acked(u.a, u.s) && Intact(u.s)
      && u.a.deal.ready && (u.a.deal.willSend <==> u.a.cfg.offer && u.a.deal.peerAccept && u.a.cfg.own.Some?)
      && (u.a.deal.willSend <==> u.a.out.card.Some?) && (u.a.deal.willSend ==> CardEnds(u.a.out, u.s))
      && u.a == t.a.(deal := u.a.deal, out := u.a.out)
      && u.s.trace == t.s.trace && u.s.closing == t.s.closing && |u.s.streams| <= |t.s.streams| + 1 && Grows(t.s, u.s)
  {
    hide Linked, NoPause, CardInv, Intact, Adds, OpenStream, OptsInv;
    FewOpens(t.a, t.s);
    var u := StartCard(t);
    if Sends(t.a) {
      var o := Opts(KIND_CARD, t.a.cfg.own.value.end % 0x1_0000_0000_0000_0000);
      OpenIntact(t.s, b, o);
      OpenEffect(t.s, b, o);
      AddsKeeps(t.a, t.s, u.s);
      SameGreeted(t.a, u.a, u.s);
      AddsSizes(t.s, u.s);
    }
  }

  lemma AddsSizes(s: Sess, t: Sess)
    requires Adds(s, t)
    ensures t.trace == s.trace && t.closing == s.closing && |t.streams| <= |s.streams| + 1 && Grows(s, t)
  {
  }

  /** Room for as many streams as one event can open. */
  ghost predicate Roomy(s: Sess) {
    !s.closing && !s.error && |s.streams| + 2 <= MAX_STREAMS
  }

  /** What ParsePeerHello leaves before it perhaps acknowledges. */
  ghost function Begun(t: Side): Side
    requires OwnOk(t.a.cfg) && t.a.out.off <= |t.a.out.buf|
  {
    if StartCard(t).a.deal.willSend then Pumped(StartCard(t)) else StartCard(t)
  }

  lemma BegunOrderly(t: Side, b: Sess)
    requires Asked(t, b) && Orderly(t.a, t.s) && Roomy(t.s) && !t.a.deal.ready
    ensures var u := Begun(t);
      && Asked(u, b) && Orderly(u.a, u.s) && u.a == t.a.(deal := u.a.deal, out := u.a.out, failed := u.a.failed) && u.a.deal.ready
      && (u.a.deal.willSend <==> u.a.cfg.offer && u.a.deal.peerAccept && u.a.cfg.own.Some?)
      && u.s.trace == t.s.trace && u.s.closing == t.s.closing && |u.s.streams| <= |t.s.streams| + 1 && Grows(t.s, u.s)
  {
    assert OwnOk(t.a.cfg) && t.a.out.off <= |t.a.out.buf|;
    hide Grows, Orderly, StartCard, Pumped, Asked, CardEnds, Intact, Greeted, Acked;
    var t1 := StartCard(t);
    StartCardKeeps(t, b);
    StartOrderly(t, b);
    if t1.a.deal.willSend {
      PumpIsReady(t1, b);
      PumpedKeeps(t1, b);
      PumpedOrderly(t1, b);
      GrowsTwice(t.s, t1.s, Begun(t).s);
    } else {
      NothingToPump(t1);
    }
  }

  lemma ParseOrderly(t: Side, b: Sess)
    requires Asked(t, b) && Orderly(t.a, t.s) && Roomy(t.s) && !t.a.deal.ready
    ensures var u := ParsePeerHello(t);
      && Orderly(u.a, u.s) && Willing(u.a) && u.a.deal.ready && u.s.trace == t.s.trace
      && u.a.inc == t.a.inc && u.a.connected == t.a.connected && u.a.helloSent == t.a.helloSent && u.a.gotPeerAck == t.a.gotPeerAck
      && u.a.seen == t.a.seen && Grows(t.s, u.s)
  {
    assert OwnOk(t.a.cfg) && t.a.out.off <= |t.a.out.buf|;
    hide Grows, Orderly, Begun, MaybeSendAck, Asked;
    BegunOrderly(t, b);
    var t2 := Begun(t);
    NoError(t2, b);
    AckOrderly(t2, b);
    GrowsTwice(t.s, t2.s, MaybeSendAck(t2).s);
    assert ParsePeerHello(t) == MaybeSendAck(t2) by { ParseIsBegun(t); }
  }

  lemma ParseIsBegun(t: Side)
    requires OwnOk(t.a.cfg) && t.a.out.off <= |t.a.out.buf|
    ensures ParsePeerHello(t) == MaybeSendAck(Begun(t))
  {
    hide StartCard, Pumped, MaybeSendAck;
  }

  lemma PumpIsReady(t: Side, b: Sess)
    requires Asked(t, b) && t.a.out.card.Some?
    ensures PumpOk(t.a.out)
  {
  }

  lemma NothingToPump(t: Side)
    requires Greeted(t.a, t.s) && Acked(t.a, t.s) && Intact(t.s) && t.a.out.card.None?
    ensures Orderly(t.a, t.s)
  {
  }

  lemma NoError(t: Side, b: Sess)
    requires Asked(t, b)
    ensures !t.s.error
  {
  }

  // ---- an event is handled ------------------------------------------------------------

  lemma OpenedNoted(a: App, es: seq<Event>, id: u16, o: Opts)
    requires Noted(a, es) && Distinct(es, Opened(id, o)) && id !in a.inc.kinds
    ensures Noted(OnOpened(a, id, o), es + [Opened(id, o)])
  {
    OpenedFields(a, id, o);
    AckIsSeen(a, id, o);
    hide SaidOpen, Read, OnOpened;
    var a1, es1 := OnOpened(a, id, o), es + [Opened(id, o)];
    forall j: u16, k: Opts | Opened(j, k) in es1
      ensures j in a1.inc.kinds && a1.inc.kinds[j] == k.kind && (k.kind == KIND_ACK ==> a1.gotPeerAck)
    {
      if Opened(j, k) in es {} else {}
    }
  }

  lemma AckIsSeen(a: App, id: u16, o: Opts)
    ensures OnOpened(a, id, o).gotPeerAck == (a.gotPeerAck || o.kind == KIND_ACK)
  {
    if o.kind == KIND_CARD {} else if o.kind == KIND_ACK {} else {}
  }

  lemma StillNoted(a: App, a1: App, es: seq<Event>, e: Event)
    requires Noted(a, es) && !e.Opened? && a1.inc.kinds == a.inc.kinds && a1.gotPeerAck == a.gotPeerAck
    requires (a.deal.ready ==> a1.deal.ready) && (a.inc.complete ==> a1.inc.complete)
    requires e.Finished? && KindOf(a.inc, e.id) == KIND_HELLO ==> a1.deal.ready
    requires e.Finished? && KindOf(a.inc, e.id) == KIND_CARD ==> a1.inc.complete
    ensures Noted(a1, es + [e])
  {
  }

  /** `t`, about to handle `e` after `es`. */
  ghost predicate Poised(t: Side, b: Sess, es: seq<Event>, e: Event) {
    && Asked(t, b) && Distinct(es, e) && KindsInv(t.a, es) && t.s.trace == es + [e] && t.a.seen == |t.s.trace|
    && Greeted(t.a, t.s) && Acked(t.a, t.s) && Intact(t.s) && (t.a.connected ==> t.a.helloSent)
    && Willing(t.a) && Noted(t.a, es) && Roomy(t.s)
    && (t.a.out.card.Some? ==> CardEnds(t.a.out, t.s))
    && (t.a.out.card == None || e != Writable(t.a.out.card.value) ==> Calm(t.a, t.s))
    && (e.Finished? && KindOf(t.a.inc, e.id) == KIND_HELLO ==> !t.a.deal.ready)
  }

  /** `u`, after it. */
  ghost predicate Composed(t: Side, u: Side) {
    && Orderly(u.a, u.s) && (u.a.connected ==> u.a.helloSent) && Willing(u.a) && Noted(u.a, t.s.trace)
    && u.s.trace == t.s.trace && u.a.seen == t.a.seen && Grows(t.s, u.s)
  }

  lemma ConnectedDone(t: Side, b: Sess, es: seq<Event>)
    requires Poised(t, b, es, Connected)
    ensures Composed(t, React(t, Connected))
  {
    hide Asked, Distinct, KindsInv, Intact, Greeted, Acked, SendHello, Calm;
    var t1 := t.(a := t.a.(connected := true));
    NoteKeepsAsked(t, t1.a, b);
    SameGreeted(t.a, t1.a, t1.s);
    CalmSame(t.a, t1.a, t1.s);
    HelloOrderly(t1, b);
    hide Noted;
    StillNoted(t.a, SendHello(t1).a, es, Connected);
  }

  /** What was noted has no part in what was asked or said. */
  lemma NotedDone(t: Side, a: App, b: Sess, es: seq<Event>, e: Event)
    requires Poised(t, b, es, e) && (t.a.out.card == None || e != Writable(t.a.out.card.value)) && Noted(a, t.s.trace)
    requires a.cfg == t.a.cfg && a.deal == t.a.deal && a.out == t.a.out && a.helloSent == t.a.helloSent && a.helloId == t.a.helloId
    requires a.ackSent == t.a.ackSent && a.ackId == t.a.ackId && a.inc.complete == t.a.inc.complete && a.connected == t.a.connected
    requires a.seen == t.a.seen
    ensures Composed(t, t.(a := a))
  {
    hide Asked, Distinct, KindsInv, Intact, Greeted, Acked, Calm, Noted;
    SameGreeted(t.a, a, t.s);
    CalmSame(t.a, a, t.s);
  }

  lemma OpenedDone(t: Side, b: Sess, es: seq<Event>, id: u16, o: Opts)
    requires Poised(t, b, es, Opened(id, o))
    ensures Composed(t, React(t, Opened(id, o)))
  {
    hide Asked, KindsInv, Intact, Greeted, Acked, Calm, Composed;
    NewStreamIsNew(t.a, es, id, o);
    OpenedNoted(t.a, es, id, o);
    hide Distinct, Noted;
    if o.kind == KIND_CARD {} else if o.kind == KIND_ACK {} else {}
    NotedDone(t, OnOpened(t.a, id, o), b, es, Opened(id, o));
  }

  lemma DataDone(t: Side, b: Sess, es: seq<Event>, id: u16, bytes: seq<byte>)
    requires Poised(t, b, es, Data(id, bytes))
    ensures Composed(t, React(t, Data(id, bytes)))
  {
    hide Asked, KindsInv, Intact, Greeted, Acked, Calm, Composed, Distinct, Noted;
    if KindOf(t.a.inc, id) == KIND_HELLO {} else if KindOf(t.a.inc, id) == KIND_CARD && t.a.inc.fileOpen {} else {}
    StillNoted(t.a, OnData(t.a, id, bytes), es, Data(id, bytes));
    NotedDone(t, OnData(t.a, id, bytes), b, es, Data(id, bytes));
  }

  lemma PlainDone(t: Side, b: Sess, es: seq<Event>, e: Event)
    requires Poised(t, b, es, e) && (e.Disconnected? || e.Failed? || e.WasReset?)
    ensures Composed(t, React(t, e))
  {
    hide Asked, KindsInv, Intact, Greeted, Acked, Calm, Composed, Distinct, Noted;
    AskedParts(t, b);
    StillNoted(t.a, React(t, e).a, es, e);
    NotedDone(t, React(t, e).a, b, es, e);
  }

  lemma WritableDone(t: Side, b: Sess, es: seq<Event>, id: u16)
    requires Poised(t, b, es, Writable(id))
    ensures Composed(t, React(t, Writable(id)))
  {
    hide Asked, KindsInv, Intact, Greeted, Acked, Calm, Distinct, Noted, Pumped, CardEnds, PumpOk;
    if t.a.out.card == Some(id) {
      PumpIsReady(t, b);
      PumpedOrderly(t, b);
      StillNoted(t.a, Pumped(t).a, es, Writable(id));
    } else {
      StillNoted(t.a, t.a, es, Writable(id));
    }
  }

  lemma HelloEndDone(t: Side, b: Sess, es: seq<Event>, id: u16)
    requires Poised(t, b, es, Finished(id)) && KindOf(t.a.inc, id) == KIND_HELLO
    ensures Composed(t, React(t, Finished(id)))
  {
    hide Asked, KindsInv, Intact, Greeted, Acked, Calm, Distinct, Noted, CardEnds, ParsePeerHello, AppOk;
    AskedParts(t, b);
    AppIsOk(t.a);
    ParseOrderly(t, b);
    StillNoted(t.a, ParsePeerHello(t).a, es, Finished(id));
  }

  lemma AppIsOk(a: App)
    requires AppOk(a)
    ensures OwnOk(a.cfg) && a.out.off <= |a.out.buf|
  {
  }

  lemma CardEndDone(t: Side, b: Sess, es: seq<Event>, id: u16)
    requires Poised(t, b, es, Finished(id)) && KindOf(t.a.inc, id) == KIND_CARD
    ensures Composed(t, React(t, Finished(id)))
  {
    hide Asked, KindsInv, Intact, Greeted, Acked, Calm, Distinct, Noted, CardEnds, MaybeSendAck, AppOk;
    AskedParts(t, b);
    var t1 := t.(a := Closed(t.a));
    NoteKeepsAsked(t, t1.a, b);
    SameGreeted(t.a, t1.a, t.s);
    CalmSame(t.a, t1.a, t.s);
    AckOrderly(t1, b);
    StillNoted(t.a, MaybeSendAck(t1).a, es, Finished(id));
  }

  lemma OtherEndDone(t: Side, b: Sess, es: seq<Event>, id: u16)
    requires Poised(t, b, es, Finished(id)) && KindOf(t.a.inc, id) != KIND_HELLO && KindOf(t.a.inc, id) != KIND_CARD
    ensures Composed(t, React(t, Finished(id)))
  {
    hide Asked, KindsInv, Intact, Greeted, Acked, Calm, Distinct, Noted, CardEnds, AppOk;
    AskedParts(t, b);
    StillNoted(t.a, t.a, es, Finished(id));
    assert t.(a := t.a) == t;
    NotedDone(t, t.a, b, es, Finished(id));
  }

  lemma EventDone(t: Side, b: Sess, es: seq<Event>, e: Event)
    requires Poised(t, b, es, e)
    ensures AppOk(t.a) && Composed(t, React(t, e))
  {
    hide Poised, Composed, React, AppOk;
    AskedHere(t, b, es, e);
    match e {
      case Connected => ConnectedDone(t, b, es);
      case Opened(id, o) => OpenedDone(t, b, es, id, o);
      case Data(id, bytes) => DataDone(t, b, es, id, bytes);
      case Finished(id) =>
        if KindOf(t.a.inc, id) == KIND_HELLO { HelloEndDone(t, b, es, id); }
        else if KindOf(t.a.inc, id) == KIND_CARD { CardEndDone(t, b, es, id); }
        else { OtherEndDone(t, b, es, id); }
      case Writable(id) => WritableDone(t, b, es, id);
      case _ => PlainDone(t, b, es, e);
    }
  }

  lemma AskedHere(t: Side, b: Sess, es: seq<Event>, e: Event)
    requires Poised(t, b, es, e)
    ensures AppOk(t.a)
  {
    AskedParts(t, b);
  }

  lemma CardStreamEnds(t: Side, b: Sess)
    requires Asked(t, b) && Intact(t.s) && Pumping(t.a, t.s) && t.a.out.card.Some?
    ensures CardEnds(t.a.out, t.s)
  {
    hide Linked;
  }

  lemma PoisedNow(x: Side, y: Side, es: seq<Event>, e: Event, t: Side)
    requires LivePair(x, y) && x.a.seen < |x.s.trace| && es == x.s.trace[..x.a.seen] && e == x.s.trace[x.a.seen]
    requires t == x.(a := x.a.(seen := x.a.seen + 1))
    ensures Poised(t, y.s, es, e)
  {
    hide Asked, HeardInv, Told, Distinct, AppOk, Timely, Read, SaidOpen, Noted, Greeted, Acked, Intact, CardEnds, Calm, Accepts, Willing;
    assert x.s.trace == es + [e];
    AskedParts(x, y.s);
    AskedParts(y, x.s);
    FewStreams(x, y);
    LinkedSymmetric(x.s, y.s);
    EventsAreDistinct(x, y, es, e);
    assert Timely(x.s.role, x.s.trace[..|es|], x.s.trace[|es|]);
    NoteKeepsAsked(x, t.a, y.s);
    NoError(x, y.s);
    SameGreeted(x.a, t.a, t.s);
    HeardKinds(x.a, es);
    SeenIsNothing(x.a, t.a, es);
    if x.a.out.card.Some? {
      CardStreamEnds(x, y.s);
      CalmNow(x, e);
      if Calm(x.a, x.s) {
        CalmSame(x.a, t.a, t.s);
      }
    } else {
      CalmIdle(t.a, t.s);
    }
    if e.Finished? && KindOf(x.a.inc, e.id) == KIND_HELLO {
      HelloIsHeard(x, y, es, e.id);
    }
  }

  lemma HeardKinds(a: App, es: seq<Event>)
    requires HeardInv(a, es)
    ensures KindsInv(a, es)
  {
  }

  lemma SeenIsNothing(a: App, a1: App, es: seq<Event>)
    requires a1 == a.(seen := a1.seen)
    ensures Noted(a1, es) == Noted(a, es) && KindsInv(a1, es) == KindsInv(a, es) && Willing(a1) == Willing(a)
  {
  }

  lemma CalmNow(x: Side, e: Event)
    requires x.a.seen < |x.s.trace| && e == x.s.trace[x.a.seen] && Pumping(x.a, x.s) && x.a.out.card.Some?
    requires CardEnds(x.a.out, x.s)
    ensures e != Writable(x.a.out.card.value) ==> Calm(x.a, x.s)
  {
  }

  lemma CalmIdle(a: App, s: Sess)
    requires a.out.card.None?
    ensures Calm(a, s)
  {
  }

  lemma HandleLively(x: Side, y: Side)
    requires LivePair(x, y) && x.a.seen < |x.s.trace|
    ensures AppOk(x.a) && LivePair(Handle(x), y)
  {
    hide Asked, React, AppOk, Noted, Greeted, Acked, Intact, Accepts, Willing, Poised, SideInv, Told;
    var n := x.a.seen;
    var es, e, t := x.s.trace[..n], x.s.trace[n], x.(a := x.a.(seen := n + 1));
    HandleKeeps(x, y);
    PoisedNow(x, y, es, e, t);
    EventDone(t, y.s, es, e);
    hide Handle, Lively;
    AllSeen(x, y);
    ComposedIsLively(t, Handle(x));
    PairLinked(x, y);
    PairLinked(Handle(x), y);
    hide PairInv;
    AcceptsMore(x.s, Handle(x).s, y.s);
    AcceptsLater(y.s, x.s, Handle(x).s);
  }

  lemma AllSeen(x: Side, y: Side)
    requires PairInv(x, y) && x.a.seen < |x.s.trace|
    ensures |x.s.trace| == x.a.seen + 1
  {
  }

  lemma PairLinked(x: Side, y: Side)
    requires PairInv(x, y)
    ensures Joined(x.s, y.s) && Joined(y.s, x.s) && Linked(x.s, y.s)
  {
    AskedParts(x, y.s);
  }

  lemma ComposedIsLively(t: Side, u: Side)
    requires Composed(t, u) && t.a.seen == |t.s.trace|
    ensures Lively(u)
  {
    hide Greeted, Acked, Intact, Noted, Willing, CanWrite;
    assert u.s.trace[..u.a.seen] == t.s.trace;
  }

  lemma AcceptsMore(s: Sess, t: Sess, b: Sess)
    requires Joined(s, b) && Joined(t, b) && Grows(s, t) && Accepts(s, b)
    ensures Accepts(t, b)
  {
    hide Run;
    forall id: u16 | id != 0 && !Own(t.role, id) && LinkOf(b, t, id).q != Unopened ensures id in t.streams {
      assert LinkOf(b, t, id).q == LinkOf(b, s, id).q;
    }
  }
}
