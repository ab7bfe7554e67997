/** When a screen ends, and when it waits: whatever its session goes through, and whatever the peer does. */
module Verdicts {
  import opened Options
  import opened Wire
  import opened Engine
  import opened Transfer
  import opened Completion

  // ---- one tick ---------------------------------------------------------------

  /** HELLO, or bytes of a card that was agreed on, are still to come or to go. */
  ghost predicate Missing(a: App) {
    || !a.connected || !a.deal.ready
    || (a.deal.willRecv && !a.inc.complete)
    || (a.deal.willSend && !a.out.done)
  }

  /** Before the session is up there is no peer that could leave. */
  ghost predicate Broken(a: App) {
    a.failed || (a.connected && a.peerLeft)
  }

  /** Nothing but the ACK of its own card is awaited, and that no longer if there was trouble or the time is up. */
  ghost predicate Awaiting(a: App, expired: bool) {
    a.deal.willSend && !a.gotPeerAck && !Broken(a) && !expired
  }

  /** The received file is put in its place once, at the first tick that finds it whole. */
  lemma PlacedOnce(a: App, p: Polled, placed: bool, expired: bool)
    ensures var p1 := Poll(a, p, placed, expired).0;
      p1 == if a.connected && a.deal.ready && a.deal.willRecv && a.inc.complete && !p.finalized then Polled(true, placed) else p
  {
  }

  /**
   The screen waits exactly while something is missing and nothing is broken, or while only the ACK is. It ends without success
   exactly when something is missing and something broke, or when all is there and the file could not be put in its place.
   */
  lemma EndsExactly(a: App, p: Polled, placed: bool, expired: bool)
    requires PolledOk(a, p)
    ensures var (p1, v) := Poll(a, p, placed, expired);
      && PolledOk(a, p1)
      && (v == Wait <==> if Missing(a) then !Broken(a) else Awaiting(a, expired))
      && (v == Terminate(false) <==> if Missing(a) then Broken(a) else !p1.recvOk && !Awaiting(a, expired))
      && (v == Terminate(true) <==> !Missing(a) && p1.recvOk && !Awaiting(a, expired))
  {
    PlacedOnce(a, p, placed, expired);
    if !a.connected || !a.deal.ready {
    } else if (a.deal.willRecv && !a.inc.complete) || (a.deal.willSend && !a.out.done) {
    } else {
    }
  }

  // ---- what is taken note of -----------------------------------------------------

  ghost predicate IsTrouble(e: Event) {
    e.WasReset? || e.Failed?
  }

  ghost predicate Trouble(es: seq<Event>) {
    exists e <- es :: IsTrouble(e)
  }

  /** A callback cannot do what it is there for: no stream can be opened, no file created, no byte stored. */
  ghost predicate Thwarted(t: Side, e: Event) {
    match e
    case Connected => !t.a.helloSent && !CanOpen(t.s)
    case Opened(_, o) => o.kind == KIND_CARD && !t.a.cfg.canOpen
    case Data(id, bytes) => KindOf(t.a.inc, id) == KIND_CARD && t.a.inc.fileOpen && |bytes| > t.a.inc.disk
    case _ => false
  }

  /** What an event does to the flags that `poll` looks at; a read of its own card that failed is kept in `stuck`. */
  lemma NotedAtOnce(t: Side, e: Event)
    requires AppOk(t.a)
    ensures var a := React(t, e).a;
      && (a.connected <==> t.a.connected || e.Connected?)
      && (a.peerLeft <==> t.a.peerLeft || e.Disconnected?)
      && (t.a.failed || IsTrouble(e) || Thwarted(t, e) ==> a.failed)
      && (a.failed && !t.a.failed && !IsTrouble(e) && !Thwarted(t, e) ==> a.out.stuck)
      && (a.out.stuck && !t.a.out.stuck ==> a.failed)
      && a.seen == t.a.seen
  {
    hide CanOpen, SendHello, OnFinished, OnOpened, OnData, OnWritable, KindOf;
    match e
    case Finished(id) => FinishedNoted(t, id);
    case Connected => GreetingNoted(t.(a := t.a.(connected := true)));
    case Disconnected =>
    case Failed(_) =>
    case WasReset(_, _) =>
    case Opened(id, o) => OpenedNoted(t.a, id, o);
    case Data(id, bytes) => DataNoted(t.a, id, bytes);
    case Writable(id) => WritableNoted(t, id);
  }

  lemma OpenedNoted(a: App, id: u16, o: Opts)
    ensures var a1 := OnOpened(a, id, o);
      && a1.connected == a.connected && a1.peerLeft == a.peerLeft && a1.seen == a.seen
      && (a1.failed <==> a.failed || (o.kind == KIND_CARD && !a.cfg.canOpen)) && a1.out == a.out
  {
  }

  lemma DataNoted(a: App, id: u16, bytes: seq<byte>)
    ensures var a1 := OnData(a, id, bytes);
      && a1.connected == a.connected && a1.peerLeft == a.peerLeft && a1.seen == a.seen
      && (a1.failed <==> a.failed || (KindOf(a.inc, id) == KIND_CARD && a.inc.fileOpen && |bytes| > a.inc.disk))
      && a1.out == a.out
  {
    hide KindOf;
  }

  lemma WritableNoted(t: Side, id: u16)
    requires AppOk(t.a)
    ensures var a := OnWritable(t, id).a;
      && a.connected == t.a.connected && a.peerLeft == t.a.peerLeft && a.seen == t.a.seen
      && (t.a.failed ==> a.failed) && (a.failed && !t.a.failed ==> a.out.stuck) && (a.out.stuck && !t.a.out.stuck ==> a.failed)
  {
    hide PumpSend;
  }

  lemma GreetingNoted(t: Side)
    ensures var a := SendHello(t).a;
      && a.connected == t.a.connected && a.peerLeft == t.a.peerLeft && a.seen == t.a.seen
      && (a.failed <==> t.a.failed || (!t.a.helloSent && !CanOpen(t.s))) && a.out == t.a.out
  {
    hide HelloBytes, HelloLoop, FinishIfOpen, OpenStream, CanOpen;
  }

  lemma FinishedNoted(t: Side, id: u16)
    requires AppOk(t.a)
    ensures var a := OnFinished(t, id).a;
      && a.connected == t.a.connected && a.peerLeft == t.a.peerLeft && a.seen == t.a.seen
      && (t.a.failed ==> a.failed) && (a.failed && !t.a.failed ==> a.out.stuck) && (a.out.stuck && !t.a.out.stuck ==> a.failed)
  {
    hide PumpSend, StartCard, MaybeSendAck;
    if KindOf(t.a.inc, id) == KIND_HELLO {
      StartIsQuiet(t);
      var t1 := StartCard(t);
      AckNotes(if t1.a.deal.willSend then Pumped(t1) else t1);
    } else if KindOf(t.a.inc, id) == KIND_CARD {
      AckNotes(t.(a := t.a.(inc := t.a.inc.(fileOpen := false, complete := true))));
    }
  }

  lemma AckNotes(t: Side)
    ensures var a := MaybeSendAck(t).a; a == t.a.(ackSent := a.ackSent, ackId := a.ackId)
  {
    hide FinishIfOpen, OpenStream, CanOpen;
  }

  /** The next moment of a side: an event is handled, or its session goes on in whatever way. */
  ghost predicate GoesOn(t: Side, u: Side) {
    || (t.a.seen < |t.s.trace| && AppOk(t.a) && u == Handle(t))
    || (u.a == t.a && t.s.trace <= u.s.trace)
  }

  /** The life of a side, from its start. */
  ghost predicate Lived(ts: seq<Side>) {
    && ts != [] && ts[0].a == NewApp(ts[0].a.cfg)
    && forall i :: 0 < i < |ts| ==> GoesOn(ts[i - 1], ts[i])
  }

  ghost predicate Aware(t: Side) {
    && t.a.seen <= |t.s.trace|
    && (t.a.connected <==> Connected in t.s.trace[..t.a.seen])
    && (t.a.peerLeft <==> Disconnected in t.s.trace[..t.a.seen])
    && (Trouble(t.s.trace[..t.a.seen]) ==> t.a.failed)
  }

  lemma AwareGoesOn(t: Side, u: Side)
    requires Aware(t) && GoesOn(t, u)
    ensures Aware(u)
  {
    hide React, Trouble, NewApp;
    if u.a == t.a && t.s.trace <= u.s.trace {
      assert u.s.trace[..u.a.seen] == t.s.trace[..t.a.seen];
    } else {
      var es, e := t.s.trace[..t.a.seen], t.s.trace[t.a.seen];
      var t1 := t.(a := t.a.(seen := t.a.seen + 1));
      NotedAtOnce(t1, e);
      ReactIsQuiet(t1, e);
      assert u.s.trace[..u.a.seen] == es + [e];
      TroubleInOneMore(es, e);
    }
  }

  lemma TroubleInOneMore(es: seq<Event>, e: Event)
    ensures Trouble(es + [e]) <==> Trouble(es) || IsTrouble(e)
  {
    if Trouble(es) {
      var d :| d in es && IsTrouble(d);
      assert d in es + [e];
    }
    assert e in es + [e];
  }

  // ---- the callbacks' own calls raise nothing ----------------------------------------

  lemma OpenIsQuiet(s: Sess, o: Opts)
    ensures OpenStream(s, o).trace == s.trace
  {
    hide Wr16, Wr64;
    if s.closing || s.error || |s.streams| >= MAX_STREAMS {} else {}
  }

  lemma WriteIsQuiet(s: Sess, id: u16, data: seq<byte>)
    ensures WriteIfOpen(s, id, data).trace == s.trace
  {
    hide Chunks;
    if id !in s.streams {}
    else if !s.streams[id].local || s.streams[id].finishedSent || s.streams[id].reset {}
    else {}
  }

  lemma FinishIsQuiet(s: Sess, id: u16)
    ensures FinishIfOpen(s, id).trace == s.trace
  {
    if id !in s.streams {}
    else if !s.streams[id].local || s.streams[id].finishedSent || s.streams[id].reset {}
    else {}
  }

  lemma {:induction false} HelloIsQuiet(s: Sess, id: u16, rest: seq<byte>, guard: nat)
    ensures HelloLoop(s, id, rest, guard).trace == s.trace
    decreases guard
  {
    hide WriteIfOpen, AcceptedOn;
    if guard > 0 && rest != [] {
      var w := AcceptedOn(s, id, rest);
      WriteIsQuiet(s, id, rest);
      HelloIsQuiet(WriteIfOpen(s, id, rest), id, rest[w..], guard - 1);
    }
  }

  lemma TurnIsQuiet(p: Pump)
    requires PumpOk(p.o)
    ensures PumpTurn(p).p.s.trace == p.s.trace
  {
    hide WriteIfOpen, FinishIfOpen, AcceptedOn, Refilled;
    var id := p.o.card.value;
    if p.o.off == |p.o.buf| {
      RefillProgress(p.o);
      WriteIsQuiet(p.s, id, Refilled(p.o).buf[Refilled(p.o).off..]);
      FinishIsQuiet(p.s, id);
    } else {
      WriteIsQuiet(p.s, id, p.o.buf[p.o.off..]);
    }
  }

  lemma {:induction false} PumpIsQuiet(p: Pump)
    requires PumpOk(p.o)
    ensures PumpSend(p).s.trace == p.s.trace
    decreases ToSend(p.o)
  {
    hide PumpTurn, ToSend;
    TurnIsQuiet(p);
    TurnProgress(p);
    match PumpTurn(p)
    case Stop(_) =>
    case Again(p1) => PumpIsQuiet(p1);
  }

  lemma AckIsQuiet(t: Side)
    ensures MaybeSendAck(t).s.trace == t.s.trace
  {
    hide FinishIfOpen, OpenStream, CanOpen;
    OpenIsQuiet(t.s, Opts(KIND_ACK, 0));
    FinishIsQuiet(OpenStream(t.s, Opts(KIND_ACK, 0)), t.s.nextTxId);
  }

  lemma StartIsQuiet(t: Side)
    requires OwnOk(t.a.cfg) && t.a.out.off <= |t.a.out.buf|
    ensures StartCard(t).s.trace == t.s.trace && (StartCard(t).a.deal.willSend ==> PumpOk(StartCard(t).a.out))
    ensures var a := StartCard(t).a; a == t.a.(deal := a.deal, out := a.out) && a.out.stuck == t.a.out.stuck
  {
    hide OpenStream, CanOpen, Heard;
    if Sends(t.a) {
      OpenIsQuiet(t.s, Opts(KIND_CARD, t.a.cfg.own.value.end % 0x1_0000_0000_0000_0000));
    }
  }

  lemma ParseIsQuiet(t: Side)
    requires OwnOk(t.a.cfg) && t.a.out.off <= |t.a.out.buf|
    ensures ParsePeerHello(t).s.trace == t.s.trace
  {
    hide StartCard, PumpSend, MaybeSendAck;
    var t1 := StartCard(t);
    StartIsQuiet(t);
    if t1.a.deal.willSend {
      PumpIsQuiet(Pump(t1.a.out, t1.s));
      AckIsQuiet(Pumped(t1));
    } else {
      AckIsQuiet(t1);
    }
  }

  lemma GreetIsQuiet(t: Side)
    ensures SendHello(t).s.trace == t.s.trace
  {
    hide HelloBytes, HelloLoop, FinishIfOpen, OpenStream, CanOpen;
    var id, h := t.s.nextTxId, HelloBytes(t.a.cfg);
    var s1 := OpenStream(t.s, Opts(KIND_HELLO, |h|));
    OpenIsQuiet(t.s, Opts(KIND_HELLO, |h|));
    HelloIsQuiet(s1, id, h, 64);
    FinishIsQuiet(HelloLoop(s1, id, h, 64), id);
  }

  lemma ReactIsQuiet(t: Side, e: Event)
    requires AppOk(t.a)
    ensures React(t, e).s.trace == t.s.trace
  {
    hide SendHello, ParsePeerHello, MaybeSendAck, PumpSend;
    match e
    case Connected => GreetIsQuiet(t.(a := t.a.(connected := true)));
    case Finished(id) =>
      if KindOf(t.a.inc, id) == KIND_HELLO {
        ParseIsQuiet(t);
      } else if KindOf(t.a.inc, id) == KIND_CARD {
        AckIsQuiet(t.(a := t.a.(inc := t.a.inc.(fileOpen := false, complete := true))));
      }
    case Writable(id) =>
      if t.a.out.card == Some(id) {
        PumpIsQuiet(Pump(t.a.out, t.s));
      }
    case Disconnected =>
    case Failed(_) =>
    case WasReset(_, _) =>
    case Opened(_, _) =>
    case Data(_, _) =>
  }

  lemma {:induction false} LivesAware(ts: seq<Side>)
    requires Lived(ts)
    ensures Aware(ts[|ts| - 1])
  {
    hide Aware, GoesOn;
    if |ts| == 1 {
      assert Aware(ts[0]) by { StartsAware(ts[0]); }
    } else {
      LivesAware(ts[..|ts| - 1]);
      AwareGoesOn(ts[|ts| - 2], ts[|ts| - 1]);
    }
  }

  lemma StartsAware(t: Side)
    requires t.a == NewApp(t.a.cfg)
    ensures Aware(t)
  {
  }

  /**
   Whatever a side goes through: once it was told of a reset, of an error, or that the peer has left a session that was up, the
   next tick ends its screen, with success if and only if nothing is missing and the file was put in its place. A screen whose
   session never came up ends only without success.
   */
  lemma TroubleEnds(ts: seq<Side>, p: Polled, placed: bool, expired: bool)
    requires Lived(ts) && PolledOk(ts[|ts| - 1].a, p)
    ensures var t := ts[|ts| - 1];
      t.a.seen <= |t.s.trace| &&
      var told, (p1, v) := t.s.trace[..t.a.seen], Poll(t.a, p, placed, expired);
      if Connected !in told then v == (if t.a.failed then Terminate(false) else Wait)
      else if Trouble(told) || Disconnected in told then v == Terminate(!Missing(t.a) && p1.recvOk)
      else v.Terminate? ==> t.a.failed || !Missing(t.a)
  {
    LivesAware(ts);
    hide Lived, Trouble, Poll;
    EndsExactly(ts[|ts| - 1].a, p, placed, expired);
  }
}
