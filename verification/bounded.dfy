/** That every run of the exchange ends: whatever the two sides do uses up a weight that only coming up and closing add to. */
module Bounded {
  import opened Options
  import opened Wire
  import opened Engine
  import opened System
  import opened Transfer
  import opened Carrying
  import opened Intactness
  import opened Weighing
  import opened Sending
  import opened Hearing
  import opened Exchange
  import opened Settling

  // ---- what an application has still to send ----------------------------------------

  const HELLO_WORK: nat := 6 + 5 * (HELLO_HEAD + NAME_MAX)

  /** Every byte of the card may go in a frame of its own; then comes its end. */
  ghost function CardWork(a: App): nat {
    if a.out.card.Some? then (if PumpOk(a.out) then 5 * ToSend(a.out) else 0) + if a.out.done then 0 else 4
    else if a.deal.ready then 0
    else if a.cfg.own.Some? && a.cfg.own.value.pos <= a.cfg.own.value.end then 5 * Remaining(a.cfg.own.value) + 6 else 0
  }

  ghost function AppWork(a: App): nat {
    (if a.helloSent then 0 else HELLO_WORK) + (if a.ackSent then 0 else 6) + CardWork(a)
  }

  /** From `t` to `u` the application sent what it had to send less. */
  ghost predicate Spends(t: Side, u: Side) {
    && t.s.sent <= u.s.sent && Weights(u.s.sent[|t.s.sent|..]) + AppWork(u.a) <= AppWork(t.a)
    && u.s.trace == t.s.trace && u.s.stack == t.s.stack && u.s.rcvd == t.s.rcvd
  }

  lemma SpendsTwice(t: Side, u: Side, v: Side)
    requires Spends(t, u) && Spends(u, v)
    ensures Spends(t, v)
  {
    hide AppWork;
    WeighsTwice(t.s, u.s, v.s, Weights(u.s.sent[|t.s.sent|..]), Weights(v.s.sent[|u.s.sent|..]));
  }

  lemma SpendsThese(t: Side, u: Side, n: nat)
    requires Weighs(t.s, u.s, n) && n + AppWork(u.a) <= AppWork(t.a)
    requires u.s.trace == t.s.trace && u.s.stack == t.s.stack && u.s.rcvd == t.s.rcvd
    ensures Spends(t, u)
  {
  }

  // ---- the stream calls ---------------------------------------------------------------

  lemma {:induction false} ChunksWeigh(id: u16, data: seq<byte>)
    ensures Weights(Chunks(id, data)) <= 5 * |data|
    decreases |data|
  {
    if data != [] {
      var n := if |data| > MAX_CHUNK then MAX_CHUNK else |data|;
      ChunksWeigh(id, data[n..]);
      var f := Frame(FRAME_DATA, id, data[..n]);
      WeightsAppend([f], Chunks(id, data[n..]));
      WeightsOne(f);
    }
  }

  lemma WriteWeighs(s: Sess, id: u16, data: seq<byte>)
    ensures Weighs(s, WriteIfOpen(s, id, data), 5 * AcceptedOn(s, id, data))
  {
    hide Chunks;
    if id !in s.streams || !s.streams[id].local || s.streams[id].finishedSent || s.streams[id].reset {
      SameSent(s, s, WriteIfOpen(s, id, data));
    } else {
      var n: nat := Accepted(s.streams[id], data);
      ChunksWeigh(id, data[..n]);
      WeighsThese(s, WriteIfOpen(s, id, data), Chunks(id, data[..n]), 5 * n);
    }
  }

  lemma FinishWeighs(s: Sess, id: u16)
    ensures Weighs(s, FinishIfOpen(s, id), 4)
  {
    var f := Frame(FRAME_EOF, id, []);
    WeightsOne(f);
    if id !in s.streams || !s.streams[id].local || s.streams[id].finishedSent || s.streams[id].reset {
      WeighsThese(s, FinishIfOpen(s, id), [], 4);
    } else {
      WeighsThese(s, FinishIfOpen(s, id), [f], 4);
    }
  }

  lemma OpenStreamWeighs(s: Sess, o: Opts)
    ensures Weighs(s, OpenStream(s, o), 2)
  {
    var f := Frame(FRAME_OPEN, s.nextTxId, Wr16(o.kind) + Wr64(o.hint));
    WeightsOne(f);
    WeighsThese(s, OpenStream(s, o), if s.closing || s.error || |s.streams| >= MAX_STREAMS then [] else [f], 2);
  }

  lemma {:induction false} HelloLoopWeighs(s: Sess, id: u16, rest: seq<byte>, guard: nat)
    ensures Weighs(s, HelloLoop(s, id, rest, guard), 5 * |rest|)
    decreases guard
  {
    hide WriteIfOpen, AcceptedOn, Weighs;
    if guard == 0 || rest == [] {
      SameSent(s, s, s);
      WeighsLess(s, s, 0, 5 * |rest|);
    } else {
      var w, s1 := AcceptedOn(s, id, rest), WriteIfOpen(s, id, rest);
      WriteWeighs(s, id, rest);
      if w == 0 {
        WeighsLess(s, s1, 0, 5 * |rest|);
      } else {
        HelloLoopWeighs(s1, id, rest[w..], guard - 1);
        WeighsTwice(s, s1, HelloLoop(s1, id, rest[w..], guard - 1), 5 * w, 5 * |rest[w..]|);
      }
    }
  }

  // ---- the pump -----------------------------------------------------------------------

  ghost function PumpWork(o: Outgoing): nat
    requires PumpOk(o)
  {
    5 * ToSend(o) + if o.done then 0 else 4
  }

  lemma WriteTurnWeighs(p: Pump)
    requires PumpOk(p.o)
    ensures var p1 := WriteTurn(p).p; PumpOk(p1.o) && PumpWork(p1.o) <= PumpWork(p.o) && Weighs(p.s, p1.s, PumpWork(p.o) - PumpWork(p1.o))
  {
    hide WriteIfOpen, AcceptedOn;
    var id, rest := p.o.card.value, p.o.buf[p.o.off..];
    WriteWeighs(p.s, id, rest);
  }

  lemma SameToSend(o: Outgoing, o1: Outgoing)
    requires PumpOk(o) && PumpOk(o1) && o1.stream == o.stream && o1.buf == o.buf && o1.off == o.off
    ensures ToSend(o1) == ToSend(o)
  {
  }

  lemma FinishOnce(s: Sess, id: u16)
    requires SentEnd(s, id)
    ensures FinishIfOpen(s, id) == s
  {
  }

  lemma TurnWeighs(p: Pump)
    requires PumpOk(p.o) && CardEnds(p.o, p.s)
    ensures var p1 := PumpTurn(p).p; PumpOk(p1.o) && PumpWork(p1.o) <= PumpWork(p.o) && Weighs(p.s, p1.s, PumpWork(p.o) - PumpWork(p1.o))
  {
    hide WriteTurn, FinishIfOpen, ReadShare, Weighs, ToSend, SentEnd;
    TurnProgress(p);
    if p.o.off == |p.o.buf| {
      RefillProgress(p.o);
      var o1 := Refilled(p.o);
      assert o1.done == p.o.done;
      SameToSend(o1, o1.(stuck := true));
      SameToSend(o1, o1.(done := true));
      SameSent(p.s, p.s, p.s);
      if o1.buf != [] {
        WriteTurnWeighs(p.(o := o1));
      } else if Remaining(o1.stream.value) > 0 || o1.stream.value.error {
      } else if p.o.done {
        FinishOnce(p.s, p.o.card.value);
      } else {
        FinishWeighs(p.s, p.o.card.value);
      }
    } else {
      WriteTurnWeighs(p);
    }
  }

  lemma {:induction false} PumpWeighs(p: Pump)
    requires PumpOk(p.o) && CardEnds(p.o, p.s)
    ensures var p1 := PumpSend(p); PumpWork(p1.o) <= PumpWork(p.o) && Weighs(p.s, p1.s, PumpWork(p.o) - PumpWork(p1.o))
    decreases ToSend(p.o)
  {
    hide PumpTurn, ToSend, Weighs, PumpWork, CardEnds;
    TurnProgress(p);
    TurnWeighs(p);
    TurnEnds(p);
    if PumpTurn(p).Again? {
      var p1 := PumpTurn(p).p;
      PumpWeighs(p1);
      var p2 := PumpSend(p1);
      WeighsTwice(p.s, p1.s, p2.s, PumpWork(p.o) - PumpWork(p1.o), PumpWork(p1.o) - PumpWork(p2.o));
    }
  }

  // ---- the application's calls ----------------------------------------------------------

  lemma PumpedSpends(t: Side, b: Sess)
    requires Asked(t, b) && t.a.out.card.Some? && CardEnds(t.a.out, t.s)
    ensures PumpOk(t.a.out) && Spends(t, Pumped(t))
  {
    hide Linked, OnlyWrote, NoPause, CardInv, HelloBytes, PumpSend, ToSend, Weighs, OptsInv, DealInv, HelloSaid;
    var p := Pump(t.a.out, t.s);
    PumpSendKeeps(p, b);
    PumpWeighs(p);
    var r := PumpSend(p);
    OnlyWroteStays(t.s, r.s, t.a.out.card.value);
    WorkOfPump(t.a);
    WorkOfPump(Pumped(t).a);
    WeighsSpends(t, Pumped(t), PumpWork(t.a.out) - PumpWork(r.o));
  }

  lemma OnlyWroteStays(s: Sess, t: Sess, id: u16)
    requires OnlyWrote(s, t, id)
    ensures t.trace == s.trace && t.stack == s.stack && t.rcvd == s.rcvd
  {
  }

  lemma WorkOfPump(a: App)
    requires a.out.card.Some? && PumpOk(a.out)
    ensures CardWork(a) == PumpWork(a.out)
  {
  }

  lemma WeighsSpends(t: Side, u: Side, n: nat)
    requires Weighs(t.s, u.s, n) && n + CardWork(u.a) <= CardWork(t.a)
    requires u.a.helloSent == t.a.helloSent && u.a.ackSent == t.a.ackSent
    requires u.s.trace == t.s.trace && u.s.stack == t.s.stack && u.s.rcvd == t.s.rcvd
    ensures Spends(t, u)
  {
  }

  lemma HelloSpends(t: Side, b: Sess)
    requires Asked(t, b)
    ensures Spends(t, SendHello(t))
  {
    hide Asked, HelloLoop, FinishIfOpen, OpenStream, HelloBytes, CardWork, Weighs;
    if t.a.helloSent {
      SameSent(t.s, t.s, t.s);
      WeighsIs(t.s, t.s, 0);
    } else if !CanOpen(t.s) {
      SameSent(t.s, t.s, t.s);
      SameCardWork(t.a, SendHello(t).a);
      SpendsThese(t, SendHello(t), 0);
    } else {
      var id, h := t.s.nextTxId, HelloBytes(t.a.cfg);
      var s1 := OpenStream(t.s, Opts(KIND_HELLO, |h|));
      var s2 := HelloLoop(s1, id, h, 64);
      OpenStreamWeighs(t.s, Opts(KIND_HELLO, |h|));
      HelloLoopWeighs(s1, id, h, 64);
      FinishWeighs(s2, id);
      WeighsTwice(t.s, s1, s2, 2, 5 * |h|);
      WeighsTwice(t.s, s2, FinishIfOpen(s2, id), 2 + 5 * |h|, 4);
      OpenStays(t.s, Opts(KIND_HELLO, |h|));
      HelloLoopStays(s1, id, h, 64);
      FinishStays(s2, id);
      SameCardWork(t.a, SendHello(t).a);
      SpendsThese(t, SendHello(t), 2 + 5 * |h| + 4);
    }
  }

  lemma WeighsIs(s: Sess, t: Sess, n: nat)
    requires Weighs(s, t, n)
    ensures s.sent <= t.sent && Weights(t.sent[|s.sent|..]) <= n
  {
  }

  lemma SameCardWork(a: App, a1: App)
    requires a1.out == a.out && a1.cfg == a.cfg && a1.deal == a.deal
    ensures CardWork(a1) == CardWork(a)
  {
  }

  lemma OpenStays(s: Sess, o: Opts)
    ensures var t := OpenStream(s, o); t.trace == s.trace && t.stack == s.stack && t.rcvd == s.rcvd
  {
  }

  lemma {:induction false} HelloLoopStays(s: Sess, id: u16, rest: seq<byte>, guard: nat)
    ensures var t := HelloLoop(s, id, rest, guard); t.trace == s.trace && t.stack == s.stack && t.rcvd == s.rcvd
    decreases guard
  {
    hide WriteIfOpen, AcceptedOn;
    if guard == 0 || rest == [] {
    } else {
      WriteEffect(s, id, rest);
      if AcceptedOn(s, id, rest) > 0 {
        HelloLoopStays(WriteIfOpen(s, id, rest), id, rest[AcceptedOn(s, id, rest)..], guard - 1);
      }
    }
  }

  lemma FinishStays(s: Sess, id: u16)
    ensures var t := FinishIfOpen(s, id); t.trace == s.trace && t.stack == s.stack && t.rcvd == s.rcvd
  {
    FinishEffect(s, id);
  }

  lemma AckSpends(t: Side)
    ensures Spends(t, MaybeSendAck(t))
  {
    hide FinishIfOpen, OpenStream, CardWork, Weighs;
    SameSent(t.s, t.s, t.s);
    WeighsIs(t.s, t.s, 0);
    if t.a.ackSent || !t.a.deal.ready {
    } else if t.a.deal.willRecv && !t.a.inc.complete {
    } else if CanOpen(t.s) {
      var id, o := t.s.nextTxId, Opts(KIND_ACK, 0);
      var s1 := OpenStream(t.s, o);
      OpenStreamWeighs(t.s, o);
      FinishWeighs(s1, id);
      WeighsTwice(t.s, s1, FinishIfOpen(s1, id), 2, 4);
      OpenStays(t.s, o);
      FinishStays(s1, id);
      SameCardWork(t.a, MaybeSendAck(t).a);
      SpendsThese(t, MaybeSendAck(t), 6);
    } else {
      SameCardWork(t.a, MaybeSendAck(t).a);
      SpendsThese(t, MaybeSendAck(t), 0);
    }
  }

  lemma StartSpends(t: Side, b: Sess)
    requires Asked(t, b) && !t.a.deal.ready
    ensures Spends(t, StartCard(t))
  {
    hide Linked, NoPause, CardInv, OpenStream, OptsInv, HelloSaid, Weighs;
    SameSent(t.s, t.s, t.s);
    var u := StartCard(t);
    if Transfer.Sends(t.a) && CanOpen(t.s) {
      var o := Opts(KIND_CARD, t.a.cfg.own.value.end % 0x1_0000_0000_0000_0000);
      OpenStreamWeighs(t.s, o);
      OpenStays(t.s, o);
      WeighsSpends(t, u, 2);
    } else {
      WeighsSpends(t, u, 0);
    }
  }

  lemma ParseSpends(t: Side, b: Sess)
    requires Asked(t, b) && Orderly(t.a, t.s) && Roomy(t.s) && !t.a.deal.ready
    ensures Spends(t, ParsePeerHello(t))
  {
    hide Orderly, StartCard, Pumped, MaybeSendAck, Asked, CardEnds, Intact, Greeted, Acked, Spends, AppOk;
    AskedParts(t, b);
    AppIsOk(t.a);
    var t1 := StartCard(t);
    StartCardKeeps(t, b);
    StartOrderly(t, b);
    StartSpends(t, b);
    if t1.a.deal.willSend {
      PumpedSpends(t1, b);
      SpendsTwice(t, t1, Pumped(t1));
      AckSpends(Pumped(t1));
      SpendsTwice(t, Pumped(t1), MaybeSendAck(Pumped(t1)));
    } else {
      AckSpends(t1);
      SpendsTwice(t, t1, MaybeSendAck(t1));
    }
  }

  lemma SameSpends(t: Side, a: App)
    requires a.out == t.a.out && a.cfg == t.a.cfg && a.deal == t.a.deal && a.helloSent == t.a.helloSent && a.ackSent == t.a.ackSent
    ensures Spends(t, t.(a := a)) && AppWork(a) == AppWork(t.a)
  {
    hide CardWork;
    SameSent(t.s, t.s, t.s);
    SameCardWork(t.a, a);
  }

  /** Handling an event adds nothing to what there is to do. */
  lemma EventSpends(t: Side, b: Sess, es: seq<Event>, e: Event)
    requires Poised(t, b, es, e)
    ensures AppOk(t.a) && Spends(t, React(t, e))
  {
    hide Poised, Spends, AppOk, Asked, ParsePeerHello, MaybeSendAck, SendHello, Pumped;
    AskedHere(t, b, es, e);
    PoisedAsked(t, b, es, e);
    match e {
      case Connected =>
        var t1 := t.(a := t.a.(connected := true));
        SameSpends(t, t1.a);
        NoteKeepsAsked(t, t1.a, b);
        HelloSpends(t1, b);
        SpendsTwice(t, t1, SendHello(t1));
      case Opened(id, o) =>
        if o.kind == KIND_CARD {} else if o.kind == KIND_ACK {} else {}
        SameSpends(t, OnOpened(t.a, id, o));
      case Data(id, bytes) =>
        if KindOf(t.a.inc, id) == KIND_HELLO {} else if KindOf(t.a.inc, id) == KIND_CARD && t.a.inc.fileOpen {} else {}
        SameSpends(t, OnData(t.a, id, bytes));
      case Finished(id) => EndSpends(t, b, es, id);
      case Writable(id) =>
        if t.a.out.card == Some(id) {
          PoisedCard(t, b, es, e);
          PumpedSpends(t, b);
        } else {
          SameSpends(t, t.a);
          assert t.(a := t.a) == t;
        }
      case _ => SameSpends(t, React(t, e).a);
    }
  }

  lemma PoisedAsked(t: Side, b: Sess, es: seq<Event>, e: Event)
    requires Poised(t, b, es, e)
    ensures Asked(t, b)
  {
  }

  lemma PoisedCard(t: Side, b: Sess, es: seq<Event>, e: Event)
    requires Poised(t, b, es, e) && t.a.out.card.Some?
    ensures CardEnds(t.a.out, t.s)
  {
  }

  lemma PoisedHello(t: Side, b: Sess, es: seq<Event>, id: u16)
    requires Poised(t, b, es, Finished(id)) && KindOf(t.a.inc, id) == KIND_HELLO
    ensures Orderly(t.a, t.s) && Roomy(t.s) && !t.a.deal.ready
  {
  }

  lemma EndSpends(t: Side, b: Sess, es: seq<Event>, id: u16)
    requires Poised(t, b, es, Finished(id)) && Asked(t, b) && AppOk(t.a)
    ensures Spends(t, React(t, Finished(id)))
  {
    hide Poised, Spends, AppOk, Asked, ParsePeerHello, MaybeSendAck;
    AppIsOk(t.a);
    if KindOf(t.a.inc, id) == KIND_HELLO {
      PoisedHello(t, b, es, id);
      ParseSpends(t, b);
    } else if KindOf(t.a.inc, id) == KIND_CARD {
      var t1 := t.(a := Closed(t.a));
      SameSpends(t, t1.a);
      AckSpends(t1);
      SpendsTwice(t, t1, MaybeSendAck(t1));
    } else {
      SameSpends(t, t.a);
      assert t.(a := t.a) == t;
    }
  }
}
