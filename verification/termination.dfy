/** Every run of the exchange is bounded, and every exchange can be carried to its end. */
module Termination {
  import opened Options
  import opened Wire
  import opened Engine
  import opened System
  import opened Guarantees
  import opened Transfer
  import opened Carrying
  import opened Intactness
  import opened Weighing
  import opened Hearing
  import opened Exchange
  import opened Settling
  import opened Bounded
  import opened Agreement
  import opened Completion
  import Callbacks
  import Effects

  // ---- what is left to do -------------------------------------------------------------

  /** The frames the peer has yet to take, the callbacks that run, the event to be handled, and what is to be sent. */
  ghost function Todo(t: Side, b: Sess): nat
    requires b.rcvd <= |t.s.sent| && t.a.seen <= |t.s.trace|
  {
    Weights(t.s.sent[b.rcvd..]) + 3 * |t.s.stack| + (|t.s.trace| - t.a.seen) + AppWork(t.a)
  }

  ghost predicate Counted(x: Side, y: Side) {
    && y.s.rcvd <= |x.s.sent| && x.a.seen <= |x.s.trace|
    && x.s.rcvd <= |y.s.sent| && y.a.seen <= |y.s.trace|
  }

  ghost function Total(x: Side, y: Side): nat
    requires Counted(x, y)
  {
    Todo(x, y.s) + Todo(y, x.s)
  }

  lemma PairCounted(x: Side, y: Side)
    requires PairInv(x, y)
    ensures Counted(x, y)
  {
    AskedParts(x, y.s);
  }

  lemma SentLater(s: Sess, t: Sess, b: Sess, n: nat)
    requires Weighs(s, t, n) && b.rcvd <= |s.sent|
    ensures Weights(t.sent[b.rcvd..]) <= Weights(s.sent[b.rcvd..]) + n
  {
    assert t.sent[b.rcvd..] == s.sent[b.rcvd..] + t.sent[|s.sent|..];
    WeightsAppend(s.sent[b.rcvd..], t.sent[|s.sent|..]);
  }

  lemma OneTaken(sent: seq<Frame>, r: nat)
    requires r < |sent|
    ensures Weights(sent[r..]) == Weight(sent[r]) + Weights(sent[r + 1..])
  {
    assert sent[r..][1..] == sent[r + 1..];
  }

  // ---- each step uses it up -------------------------------------------------------------

  /** How much a step may add: only coming up and closing add anything, and everything else takes something away. */
  ghost function Adding(st: Step): int {
    match st
    case Session(_, act) => if act == Up then 1 else if act == Api(Close) then 2 else -1
    case Callback(_) => -1
  }

  lemma TakingSpends(x: Side, y: Side, f: Frame)
    requires LivePair(x, y) && ActOk(x.s, y.s, Recv(f)) && x.a.seen == |x.s.trace| && Counted(x, y)
    ensures var u := x.(s := Receive(x.s, f)); Counted(u, y) && Total(u, y) + 1 <= Total(x, y)
  {
    hide PairInv, Lively, Accepts, Receive, Weight, AppWork;
    PairLinked(x, y);
    TakingFacts(x, y, f);
    var u := x.(s := Receive(x.s, f));
    var n := if f.kind == FRAME_EOF then 2 else 0;
    Callbacks.ReceiveFrame(x.s, f);
    SentLater(x.s, u.s, y.s, n);
    OneTaken(y.s.sent, x.s.rcvd);
    TraceOnlyGrows(x.s, Recv(f));
  }

  lemma TakingFacts(x: Side, y: Side, f: Frame)
    requires LivePair(x, y) && ActOk(x.s, y.s, Recv(f))
    ensures Weighs(x.s, Receive(x.s, f), if f.kind == FRAME_EOF then 2 else 0)
    ensures Load(Receive(x.s, f)) + (if f.kind == FRAME_EOF then 2 else 0) + 1 <= Load(x.s) + Weight(f)
  {
    hide Asked, Linked, Intact, Accepts, HeardInv, Tidy, Told, Greeted, Acked, Noted, Willing, Pumping;
    AskedParts(x, y.s);
    AskedParts(y, x.s);
    FewStreams(x, y);
    FrameWeighs(x.s, y.s, f);
  }

  lemma TraceOnlyGrows(s: Sess, a: Act)
    requires Enabled(s, a)
    ensures |s.trace| <= |Do(s, a).trace|
  {
    hide Do, Enabled;
    Effects.ActTraceGrows(s, a);
  }

  lemma ReturningSpends(x: Side, y: Side)
    requires PairInv(x, y) && x.s.stack != [] && x.a.seen == |x.s.trace| && Counted(x, y)
    ensures var u := x.(s := Return(x.s)); Counted(u, y) && Total(u, y) + 1 <= Total(x, y)
  {
    hide PairInv, Return, AppWork;
    PairNoPause(x, y);
    ReturnWeighs(x.s);
    SentLater(x.s, Return(x.s), y.s, 2);
    Callbacks.ReturnFrame(x.s);
    TraceOnlyGrows(x.s, Ret);
  }

  lemma PairNoPause(x: Side, y: Side)
    requires PairInv(x, y)
    ensures NoPause(x.s)
  {
    AskedParts(x, y.s);
  }

  lemma UpAdds(x: Side, y: Side)
    requires Counted(x, y)
    ensures var u := x.(s := Connect(x.s)); Counted(u, y) && Total(u, y) <= Total(x, y) + 1
  {
    hide AppWork;
    ConnectWeighs(x.s);
    SentLater(x.s, Connect(x.s), y.s, 0);
  }

  lemma CloseAdds(x: Side, y: Side)
    requires Counted(x, y)
    ensures var u := x.(s := CloseSession(x.s)); Counted(u, y) && Total(u, y) <= Total(x, y) + 2
  {
    hide AppWork;
    CloseWeighs(x.s);
    SentLater(x.s, CloseSession(x.s), y.s, 2);
  }

  lemma HandlingSpends(x: Side, y: Side)
    requires LivePair(x, y) && x.a.seen < |x.s.trace| && AppOk(x.a) && Counted(x, y)
    ensures var u := Handle(x); Counted(u, y) && Total(u, y) + 1 <= Total(x, y)
  {
    hide LivePair, React, AppOk, AppWork, Poised;
    var n := x.a.seen;
    var es, e, t := x.s.trace[..n], x.s.trace[n], x.(a := x.a.(seen := n + 1));
    PoisedNow(x, y, es, e, t);
    EventSpends(t, y.s, es, e);
    EventDone(t, y.s, es, e);
    SameSpends(x, t.a);
    var u := Handle(x);
    ComposedSeen(t, u);
    SentLater(x.s, u.s, y.s, Weights(u.s.sent[|x.s.sent|..]));
  }

  lemma ComposedSeen(t: Side, u: Side)
    requires Composed(t, u)
    ensures u.a.seen == t.a.seen && u.s.closing == t.s.closing && u.s.trace == t.s.trace
  {
  }

  lemma StepSpends(x: Side, y: Side, st: Step)
    requires LivePair(x, y) && SideOk(x, y, st) && Counted(x, y)
    ensures var u := SideDo(x, y, st); Counted(u, y) && Total(u, y) <= Total(x, y) + Adding(st)
  {
    hide LivePair, Counted, Handle, Total, AppOk, Receive, Return, Connect, CloseSession;
    LiveIsPair(x, y);
    match st
    case Session(_, act) =>
      match act {
        case Recv(f) => TakingSpends(x, y, f);
        case Ret => ReturningSpends(x, y);
        case Up => UpAdds(x, y);
        case Api(_) => CloseAdds(x, y);
      }
    case Callback(_) => HandlingSpends(x, y);
  }

  // ---- runs -------------------------------------------------------------------------

  /** How often a side comes up or closes in a run, at twice the price for closing. */
  ghost function Outside(steps: seq<Step>): nat {
    if steps == [] then 0 else (if Adding(steps[0]) > 0 then Adding(steps[0]) else 0) + Outside(steps[1..])
  }

  /** The steps of a run that take a frame, return from a callback or handle an event. */
  ghost function Inside(steps: seq<Step>): nat {
    if steps == [] then 0 else (if Adding(steps[0]) < 0 then 1 else 0) + Inside(steps[1..])
  }

  lemma TotalSymmetric(x: Side, y: Side)
    requires Counted(x, y)
    ensures Counted(y, x) && Total(y, x) == Total(x, y)
  {
  }

  lemma {:induction false} RunSpends(x: Side, y: Side, steps: seq<Step>, x1: Side, y1: Side)
    requires LivePair(x, y) && RunsTo(x, y, steps, x1, y1) && Counted(x, y)
    ensures Counted(x1, y1) && Inside(steps) + Total(x1, y1) <= Total(x, y) + Outside(steps)
    decreases |steps|
  {
    hide LivePair, SideDo, SideOk, Counted, Total;
    if steps != [] {
      var st := steps[0];
      if st.first {
        StepLives(x, y, st);
        StepSpends(x, y, st);
        RunSpends(SideDo(x, y, st), y, steps[1..], x1, y1);
      } else {
        LiveSymmetric(x, y);
        TotalSymmetric(x, y);
        StepLives(y, x, st);
        StepSpends(y, x, st);
        LiveSymmetric(SideDo(y, x, st), x);
        TotalSymmetric(SideDo(y, x, st), x);
        RunSpends(x, SideDo(y, x, st), steps[1..], x1, y1);
      }
    }
  }

  /** Every run is bounded by what there is to send, and by how often the sides come up or close. */
  lemma RunsAreBounded(window: u32, cx: Config, cy: Config, steps: seq<Step>, x: Side, y: Side)
    requires Met(window, cx, cy, steps, x, y)
    ensures Inside(steps) <= AppWork(NewApp(cx)) + AppWork(NewApp(cy)) + Outside(steps)
  {
    hide LivePair, RunsTo, AppWork;
    var role: Role :| RunsTo(Start(role, window, cx), Start(PeerOf(role), window, cy), steps, x, y);
    StartLives(role, window, cx, cy);
    RunSpends(Start(role, window, cx), Start(PeerOf(role), window, cy), steps, x, y);
  }

  // ---- carrying on ------------------------------------------------------------------

  ghost predicate BothOpen(x: Side, y: Side) {
    !x.s.closing && !y.s.closing
  }

  /** This side has something to do. */
  ghost predicate Busy(x: Side, y: Side) {
    x.a.seen < |x.s.trace| || x.s.stack != [] || x.s.rcvd < |y.s.sent|
  }

  /** What it does next: handle the event, return from the callback, or take the next frame. */
  ghost function NextStep(x: Side, y: Side, first: bool): (st: Step)
    requires Busy(x, y)
    ensures Adding(st) < 0 && st.first == first
  {
    if x.a.seen < |x.s.trace| then Callback(first)
    else if x.s.stack != [] then Session(first, Ret)
    else Session(first, Recv(y.s.sent[x.s.rcvd]))
  }

  lemma NextIsOk(x: Side, y: Side, first: bool)
    requires LivePair(x, y) && Busy(x, y) && !x.s.closing
    ensures SideOk(x, y, NextStep(x, y, first)) && SideDo(x, y, NextStep(x, y, first)).s.closing == x.s.closing
  {
    hide Linked, AppOk, Intact, Accepts, HeardInv, Tidy, Told, Greeted, Acked, Noted, Willing, Pumping, Asked, Receive, Return, Handle;
    AskedParts(x, y.s);
    NoError(x, y.s);
    if x.a.seen < |x.s.trace| {
      HandleStaysOpen(x, y);
    } else if x.s.stack != [] {
      ReturnStaysOpen(x.s);
    } else {
      NextIsSized(x.s, y.s);
      FrameStaysOpen(x.s, y.s.sent[x.s.rcvd]);
    }
  }

  lemma HandleStaysOpen(x: Side, y: Side)
    requires LivePair(x, y) && x.a.seen < |x.s.trace| && AppOk(x.a)
    ensures Handle(x).s.closing == x.s.closing && Handle(x).s.trace == x.s.trace && Handle(x).a.seen == x.a.seen + 1
  {
    hide LivePair, React, AppOk, Poised;
    var n := x.a.seen;
    var es, e, t := x.s.trace[..n], x.s.trace[n], x.(a := x.a.(seen := n + 1));
    PoisedNow(x, y, es, e, t);
    EventDone(t, y.s, es, e);
    ComposedSeen(t, Handle(x));
  }

  lemma NextIsSized(s: Sess, b: Sess)
    requires Linked(s, b) && s.rcvd < |b.sent|
    ensures Encodable(b.sent[s.rcvd])
  {
    assert b.sent[s.rcvd] in b.sent;
  }

  lemma ReturnStaysOpen(s: Sess)
    requires s.stack != []
    ensures Return(s).closing == s.closing
  {
    hide DeliverFinished, CreditConsume;
    var p := s.stack[|s.stack| - 1];
    var s1 := s.(stack := s.stack[..|s.stack| - 1]);
    if p.id !in s.streams || s.streams[p.id].reset {
    } else if p.Delivering? {
      CreditStaysOpen(s1, p.id, p.n);
    } else {
      var s2 := Put(s1, p.id, s1.streams[p.id].(held := []));
      CreditStaysOpen(s2, p.id, p.n);
      EndStaysOpen(CreditConsume(s2, p.id, p.n), p.id);
    }
  }

  lemma CreditStaysOpen(s: Sess, k: u16, n: u32)
    requires k in s.streams
    ensures CreditConsume(s, k, n).closing == s.closing && k in CreditConsume(s, k, n).streams
  {
  }

  lemma EndStaysOpen(s: Sess, k: u16)
    requires k in s.streams
    ensures DeliverFinished(s, k).closing == s.closing
  {
  }

  // ---- a card that can be read is never stuck -----------------------------------------

  /** Reads are never short, and the file is as long as what is shared of it. */
  ghost predicate ReadsWell(sh: Share) {
    sh.grants == [] && !sh.error && sh.end <= |sh.pdf|
  }

  ghost predicate Readable(c: Config) {
    c.own.Some? ==> ReadsWell(c.own.value)
  }

  /** Nothing failed to be read so far, and nothing will. */
  ghost predicate Flowing(o: Outgoing) {
    !o.stuck && (o.stream.Some? ==> ReadsWell(o.stream.value))
  }

  lemma ReadIsWhole(sh: Share, cap: nat)
    requires ShareOk(sh) && ReadsWell(sh) && cap > 0
    ensures var (bytes, sh1) := ReadShare(sh, cap);
      ReadsWell(sh1) && (bytes == [] ==> sh1.pos == sh1.end)
  {
  }

  lemma TurnFlows(p: Pump)
    requires PumpOk(p.o) && Flowing(p.o)
    ensures Flowing(PumpTurn(p).p.o)
  {
    hide WriteIfOpen, AcceptedOn, FinishIfOpen, ReadShare;
    if p.o.off == |p.o.buf| {
      ReadIsWhole(p.o.stream.value, CHUNK);
      RefillProgress(p.o);
    }
  }

  lemma {:induction false} PumpFlows(p: Pump)
    requires PumpOk(p.o) && Flowing(p.o)
    ensures Flowing(PumpSend(p).o)
    decreases ToSend(p.o)
  {
    hide PumpTurn, ToSend, Flowing;
    TurnProgress(p);
    TurnFlows(p);
    if PumpTurn(p).Again? {
      PumpFlows(PumpTurn(p).p);
    }
  }

  /** What handling events keeps: the card flows, and the transport stays up. */
  ghost predicate Flows(a: App, a1: App) {
    a1.cfg == a.cfg && (a.connected ==> a1.connected) && (Flowing(a.out) ==> Flowing(a1.out))
  }

  lemma PumpedFlows(t: Side)
    requires PumpOk(t.a.out)
    ensures Flows(t.a, Pumped(t).a)
  {
    hide PumpSend, PumpOk, Flowing;
    if Flowing(t.a.out) {
      PumpFlows(Pump(t.a.out, t.s));
    }
  }

  lemma AckFlows(t: Side)
    ensures Flows(t.a, MaybeSendAck(t).a)
  {
    hide FinishIfOpen, OpenStream;
  }

  lemma StartFlows(t: Side)
    requires Readable(t.a.cfg)
    ensures Flows(t.a, StartCard(t).a)
  {
    hide OpenStream, Transfer.Heard, ReadsWell;
  }

  lemma ParseFlows(t: Side)
    requires OwnOk(t.a.cfg) && t.a.out.off <= |t.a.out.buf| && Readable(t.a.cfg)
    ensures Flows(t.a, ParsePeerHello(t).a)
  {
    var t1 := StartCard(t);
    StartFlows(t);
    hide StartCard, Pumped, MaybeSendAck, Flowing, Readable;
    var t2 := if t1.a.deal.willSend then Pumped(t1) else t1;
    if t1.a.deal.willSend {
      PumpedFlows(t1);
    }
    AckFlows(t2);
  }

  lemma HelloFlows(t: Side)
    ensures Flows(t.a, SendHello(t).a)
  {
    hide FinishIfOpen, HelloLoop, OpenStream, HelloBytes;
  }

  lemma FinishedFlows(t: Side, id: u16)
    requires OwnOk(t.a.cfg) && t.a.out.off <= |t.a.out.buf| && Readable(t.a.cfg)
    ensures Flows(t.a, OnFinished(t, id).a)
  {
    hide ParsePeerHello, MaybeSendAck, Flowing, Readable;
    if KindOf(t.a.inc, id) == KIND_HELLO {
      ParseFlows(t);
    } else if KindOf(t.a.inc, id) == KIND_CARD {
      AckFlows(t.(a := Closed(t.a)));
    } else {}
  }

  lemma HandleFlows(x: Side)
    requires x.a.seen < |x.s.trace| && AppOk(x.a) && Readable(x.a.cfg)
    ensures Flows(x.a, Handle(x).a)
    ensures x.s.trace[x.a.seen] == Connected ==> Handle(x).a.connected
  {
    hide OnFinished, Pumped, SendHello, Flowing, Readable, PumpOk;
    var t, e := x.(a := x.a.(seen := x.a.seen + 1)), x.s.trace[x.a.seen];
    match e {
      case Connected => HelloFlows(t.(a := t.a.(connected := true)));
      case Opened(id, o) => if o.kind == KIND_CARD {} else if o.kind == KIND_ACK {} else {}
      case Data(id, bytes) => if KindOf(t.a.inc, id) == KIND_HELLO {} else if KindOf(t.a.inc, id) == KIND_CARD && t.a.inc.fileOpen {} else {}
      case Finished(id) => FinishedFlows(t, id);
      case Writable(id) => if t.a.out.card == Some(id) { PumpedFlows(t); }
      case _ =>
    }
  }

  lemma StepFlows(x: Side, y: Side, st: Step)
    requires SideOk(x, y, st) && Readable(x.a.cfg)
    ensures Flows(x.a, SideDo(x, y, st).a)
  {
    hide Handle, Flowing, Readable, Do, Lower;
    match st
    case Session(_, _) =>
    case Callback(_) => HandleFlows(x);
  }

  lemma {:induction false} RunFlows(x: Side, y: Side, steps: seq<Step>, x1: Side, y1: Side)
    requires RunsTo(x, y, steps, x1, y1) && Readable(x.a.cfg) && Readable(y.a.cfg)
    ensures Flows(x.a, x1.a) && Flows(y.a, y1.a)
    decreases |steps|
  {
    hide SideDo, SideOk, Flowing, Readable;
    if steps != [] {
      if steps[0].first {
        StepFlows(x, y, steps[0]);
        RunFlows(SideDo(x, y, steps[0]), y, steps[1..], x1, y1);
      } else {
        StepFlows(y, x, steps[0]);
        RunFlows(x, SideDo(y, x, steps[0]), steps[1..], x1, y1);
      }
    }
  }

  // ---- to the end -------------------------------------------------------------------

  lemma RestIsNotBusy(x: Side, y: Side)
    requires Counted(x, y) && !Busy(x, y) && !Busy(y, x)
    ensures AtRest(x, y)
  {
  }

  lemma OneMore(x: Side, y: Side, st: Step, rest: seq<Step>, x1: Side, y1: Side)
    requires if st.first then SideOk(x, y, st) && RunsTo(SideDo(x, y, st), y, rest, x1, y1)
             else SideOk(y, x, st) && RunsTo(x, SideDo(y, x, st), rest, x1, y1)
    ensures RunsTo(x, y, [st] + rest, x1, y1)
  {
    hide SideOk, SideDo;
    assert ([st] + rest)[1..] == rest;
  }

  /** As long as nobody closes, the two sides can go on until nothing is left to do. */
  lemma {:induction false} CanSettle(x: Side, y: Side) returns (steps: seq<Step>, x1: Side, y1: Side)
    requires LivePair(x, y) && Counted(x, y) && BothOpen(x, y)
    ensures RunsTo(x, y, steps, x1, y1) && AtRest(x1, y1)
    decreases Total(x, y)
  {
    hide LivePair, SideOk, SideDo, Busy, AtRest, Counted, Total, NextStep;
    if Busy(x, y) {
      var st := NextStep(x, y, true);
      NextIsOk(x, y, true);
      StepLives(x, y, st);
      StepSpends(x, y, st);
      var rest;
      rest, x1, y1 := CanSettle(SideDo(x, y, st), y);
      steps := [st] + rest;
      OneMore(x, y, st, rest, x1, y1);
    } else if Busy(y, x) {
      var st := NextStep(y, x, false);
      LiveSymmetric(x, y);
      TotalSymmetric(x, y);
      NextIsOk(y, x, false);
      StepLives(y, x, st);
      StepSpends(y, x, st);
      LiveSymmetric(SideDo(y, x, st), x);
      TotalSymmetric(SideDo(y, x, st), x);
      var rest;
      rest, x1, y1 := CanSettle(x, SideDo(y, x, st));
      steps := [st] + rest;
      OneMore(x, y, st, rest, x1, y1);
    } else {
      steps, x1, y1 := [], x, y;
      RestIsNotBusy(x, y);
    }
  }

  /** One side comes up, and its application hears of it. */
  lemma ComesUp(x: Side, y: Side) returns (x1: Side)
    requires LivePair(x, y) && x.a.seen == |x.s.trace| && BothOpen(x, y) && Readable(x.a.cfg)
    ensures forall rest: seq<Step>, x2: Side, y2: Side | RunsTo(x1, y, rest, x2, y2) ::
              RunsTo(x, y, [Session(true, Up)] + ([Callback(true)] + rest), x2, y2)
    ensures LivePair(x1, y) && BothOpen(x1, y) && x1.a.connected && Flows(x.a, x1.a) && x1.s.trace == x.s.trace + [Connected]
  {
    hide LivePair, Handle, Readable, Flowing, AppOk;
    LiveIsPair(x, y);
    PairError(x, y);
    var u := x.(s := Connect(x.s));
    assert SideOk(x, y, Session(true, Up)) && SideDo(x, y, Session(true, Up)) == u;
    StepLives(x, y, Session(true, Up));
    LiveIsPair(u, y);
    CallbackIsReady(u, y);
    x1 := Handle(u);
    StepLives(u, y, Callback(true));
    HandleStaysOpen(u, y);
    HandleFlows(u);
    forall rest: seq<Step>, x2: Side, y2: Side | RunsTo(x1, y, rest, x2, y2)
      ensures RunsTo(x, y, [Session(true, Up)] + ([Callback(true)] + rest), x2, y2)
    {
      OneMore(u, y, Callback(true), rest, x2, y2);
      OneMore(x, y, Session(true, Up), [Callback(true)] + rest, x2, y2);
    }
  }

  lemma PairError(x: Side, y: Side)
    requires PairInv(x, y)
    ensures !x.s.error
  {
    NoError(x, y.s);
  }

  /** The same run with the sides' names exchanged. */
  ghost function Mirror(steps: seq<Step>): (r: seq<Step>)
    ensures |r| == |steps|
  {
    if steps == [] then [] else [steps[0].(first := !steps[0].first)] + Mirror(steps[1..])
  }

  lemma {:induction false} MirrorRuns(x: Side, y: Side, steps: seq<Step>, x1: Side, y1: Side)
    requires RunsTo(x, y, steps, x1, y1)
    ensures RunsTo(y, x, Mirror(steps), y1, x1)
    decreases |steps|
  {
    hide Handle, Do, Lower, AppOk;
    if steps != [] {
      var st := steps[0];
      var mt := st.(first := !st.first);
      assert Mirror(steps)[1..] == Mirror(steps[1..]);
      if st.first {
        MirrorRuns(SideDo(x, y, st), y, steps[1..], x1, y1);
        assert SideOk(x, y, mt) && SideDo(x, y, mt) == SideDo(x, y, st);
      } else {
        MirrorRuns(x, SideDo(y, x, st), steps[1..], x1, y1);
        assert SideOk(y, x, mt) && SideDo(y, x, mt) == SideDo(y, x, st);
      }
    }
  }

  /** A card that can be read whole is never stuck. */
  lemma ReadableNeverStuck(window: u32, cx: Config, cy: Config, steps: seq<Step>, x: Side, y: Side)
    requires Met(window, cx, cy, steps, x, y) && Readable(cx) && Readable(cy)
    ensures !x.a.out.stuck && !y.a.out.stuck
  {
    hide RunsTo;
    var role: Role :| RunsTo(Start(role, window, cx), Start(PeerOf(role), window, cy), steps, x, y);
    RunFlows(Start(role, window, cx), Start(PeerOf(role), window, cy), steps, x, y);
  }

  lemma {:induction false} RunOn(x: Side, y: Side, steps: seq<Step>, x1: Side, y1: Side, more: seq<Step>, x2: Side, y2: Side)
    requires RunsTo(x, y, steps, x1, y1) && RunsTo(x1, y1, more, x2, y2)
    ensures RunsTo(x, y, steps + more, x2, y2)
    decreases |steps|
  {
    hide SideOk, SideDo;
    if steps == [] {
      assert steps + more == more;
    } else {
      assert (steps + more)[1..] == steps[1..] + more;
      if steps[0].first {
        RunOn(SideDo(x, y, steps[0]), y, steps[1..], x1, y1, more, x2, y2);
      } else {
        RunOn(x, SideDo(y, x, steps[0]), steps[1..], x1, y1, more, x2, y2);
      }
    }
  }

  /** Both sides come up, and nothing else has happened yet. */
  lemma BothComeUp(window: u32, cx: Config, cy: Config) returns (steps: seq<Step>, x: Side, y: Side)
    requires window > 0 && OwnOk(cx) && OwnOk(cy) && Readable(cx) && Readable(cy)
    ensures RunsTo(Start(Host, window, cx), Start(Client, window, cy), steps, x, y) && LivePair(x, y) && BothOpen(x, y)
    ensures x.a.connected && y.a.connected && y.s.trace == [Connected]
    ensures x.a.cfg == cx && y.a.cfg == cy
  {
    hide LivePair, RunsTo, Readable, Flowing;
    var x0, y0 := Start(Host, window, cx), Start(Client, window, cy);
    StartLives(Host, window, cx, cy);
    x := ComesUp(x0, y0);
    LiveSymmetric(x, y0);
    y := ComesUp(y0, x);
    LiveSymmetric(y, x);
    assert RunsTo(y, x, [], y, x) by { StaysPut(y, x); }
    var second := [Session(true, Up)] + ([Callback(true)] + []);
    MirrorRuns(y0, x, second, y, x);
    steps := [Session(true, Up)] + ([Callback(true)] + Mirror(second));
  }

  lemma StaysPut(x: Side, y: Side)
    ensures RunsTo(x, y, [], x, y)
  {
  }

  lemma MetFrom(window: u32, cx: Config, cy: Config, steps: seq<Step>, x: Side, y: Side)
    requires window > 0 && OwnOk(cx) && OwnOk(cy)
    requires RunsTo(Start(Host, window, cx), Start(Client, window, cy), steps, x, y)
    ensures Met(window, cx, cy, steps, x, y)
  {
    assert PeerOf(Host) == Client;
  }

  /** A run in which the two come up and do all there is to do. */
  lemma Finish(window: u32, cx: Config, cy: Config) returns (up: seq<Step>, x1: Side, y1: Side, rest: seq<Step>, x: Side, y: Side)
    requires window > 0 && OwnOk(cx) && OwnOk(cy) && Readable(cx) && Readable(cy)
    ensures RunsTo(Start(Host, window, cx), Start(Client, window, cy), up, x1, y1) && LivePair(x1, y1)
    ensures x1.a.connected && y1.s.trace == [Connected] && x1.a.cfg == cx && y1.a.cfg == cy
    ensures RunsTo(x1, y1, rest, x, y)
    ensures Met(window, cx, cy, up + rest, x, y) && AtRest(x, y) && Exchanged(x, y) && Exchanged(y, x)
  {
    hide LivePair, RunsTo, AtRest, Exchanged, Readable, Flowing, Counted;
    up, x1, y1 := BothComeUp(window, cx, cy);
    LiveIsPair(x1, y1);
    PairCounted(x1, y1);
    rest, x, y := CanSettle(x1, y1);
    RunOn(Start(Host, window, cx), Start(Client, window, cy), up, x1, y1, rest, x, y);
    MetFrom(window, cx, cy, up + rest, x, y);
    RunFlows(x1, y1, rest, x, y);
    ReadableNeverStuck(window, cx, cy, up + rest, x, y);
    RestMeansDone(window, cx, cy, up + rest, x, y);
  }

  /** Whatever the two are set up to exchange, there is a run in which they come up, do all there is to do, and are done. */
  lemma CanFinish(window: u32, cx: Config, cy: Config)
    requires window > 0 && OwnOk(cx) && OwnOk(cy) && Readable(cx) && Readable(cy)
    ensures exists steps: seq<Step>, x: Side, y: Side ::
      Met(window, cx, cy, steps, x, y) && AtRest(x, y) && Exchanged(x, y) && Exchanged(y, x)
  {
    hide Met, AtRest, Exchanged;
    var up, x1, y1, rest, x, y := Finish(window, cx, cy);
    var steps := up + rest;
  }

  // ---- runs on which a promise fails --------------------------------------------------

  /** An offer with no card behind it: for every such pair there is a run, to the very end, after which the peer still waits. */
  lemma OfferedInVain(window: u32, cx: Config, cy: Config)
    requires window >= HELLO_HEAD && OwnOk(cx) && OwnOk(cy) && Readable(cy)
    requires cx.offer && cx.own.None? && cy.accept
    ensures exists steps: seq<Step>, x: Side, y: Side ::
      && Met(window, cx, cy, steps, x, y) && AtRest(x, y)
      && y.a.deal.ready && y.a.deal.willRecv && !x.a.deal.willSend && !y.a.inc.complete && !y.a.ackSent && !x.a.gotPeerAck
  {
    hide Met, AtRest, HandedOver;
    var up, x1, y1, rest, x, y := Finish(window, cx, cy);
    var steps := up + rest;
    ExpectedExactly(window, cx, cy, steps, x, y);
    NeverComes(window, cx, cy, steps, x, y, Polled(false, true), false, false);
  }

  /** A card whose file cannot be created: for every such pair there is a run in which it is acknowledged, and nothing is stored. */
  lemma AckedUnstored(window: u32, cx: Config, cy: Config)
    requires window >= HELLO_HEAD && OwnOk(cx) && OwnOk(cy) && Readable(cx) && Readable(cy)
    requires cx.offer && cx.own.Some? && cx.own.value.end > 0 && cy.accept && !cy.canOpen
    ensures exists steps: seq<Step>, x: Side, y: Side ::
      && Met(window, cx, cy, steps, x, y)
      && x.a.deal.willSend && x.a.gotPeerAck && y.a.ackSent && y.a.inc.complete
      && y.a.inc.file == [] && SharedPart(cx) != []
  {
    hide Met, AtRest, HandedOver, Readable;
    var up, x1, y1, rest, x, y := Finish(window, cx, cy);
    var steps := up + rest;
    ExpectedExactly(window, cx, cy, steps, x, y);
    SharedIsThere(cx);
    MetConfigs(window, cx, cy, steps, x, y);
    AckedIsStoredExactly(window, cx, cy, steps, x, y);
  }

  lemma SharedIsThere(c: Config)
    requires Readable(c) && c.own.Some?
    ensures c.own.value.end <= |c.own.value.pdf|
  {
  }

  lemma MetConfigs(window: u32, cx: Config, cy: Config, steps: seq<Step>, x: Side, y: Side)
    requires Met(window, cx, cy, steps, x, y)
    ensures x.a.cfg == cx && y.a.cfg == cy
  {
    MetKeeps(window, cx, cy, steps, x, y);
  }
}
