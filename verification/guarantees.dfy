/** What two joined sessions guarantee over every run. */
module Guarantees {
  import opened Wire
  import opened Engine
  import opened Links
  import opened System
  import opened Steps
  import opened Receiving
  import opened Effects

  // ---- runs ---------------------------------------------------------------

  /** One step of the first session or of the second; either may be the host. */
  datatype Move = Move(first: bool, act: Act)

  /** A received frame is the next one the peer sent: the channels are reliable and FIFO. */
  ghost predicate ActOk(s: Sess, b: Sess, a: Act) {
    Enabled(s, a) && (a.Recv? ==> s.rcvd < |b.sent| && a.frame == b.sent[s.rcvd])
  }

  ghost predicate RunOk(h: Sess, c: Sess, ms: seq<Move>)
    decreases |ms|
  {
    ms == [] ||
    (if ms[0].first then ActOk(h, c, ms[0].act) && RunOk(Do(h, ms[0].act), c, ms[1..])
     else ActOk(c, h, ms[0].act) && RunOk(h, Do(c, ms[0].act), ms[1..]))
  }

  /** Both sessions after the run. */
  ghost function RunEnd(h: Sess, c: Sess, ms: seq<Move>): (Sess, Sess)
    requires RunOk(h, c, ms)
    decreases |ms|
  {
    if ms == [] then (h, c)
    else if ms[0].first then RunEnd(Do(h, ms[0].act), c, ms[1..])
    else RunEnd(h, Do(c, ms[0].act), ms[1..])
  }

  lemma {:induction false} RunMonotone(h: Sess, c: Sess, ms: seq<Move>)
    requires RunOk(h, c, ms)
    ensures Within(RunEnd(h, c, ms).0) ==> Within(h)
    ensures Within(RunEnd(h, c, ms).1) ==> Within(c)
    decreases |ms|
  {
    hide Do, Within, Enabled;
    if ms != [] {
      if ms[0].first {
        ActMonotone(h, ms[0].act);
        RunMonotone(Do(h, ms[0].act), c, ms[1..]);
      } else {
        ActMonotone(c, ms[0].act);
        RunMonotone(h, Do(c, ms[0].act), ms[1..]);
      }
    }
  }

  lemma ActKeeps(s: Sess, b: Sess, a: Act)
    requires Linked(s, b) && ActOk(s, b, a) && Within(Do(s, a))
    ensures Linked(Do(s, a), b)
  {
    hide Linked, Receive, Return, OpenStream, WriteStream, FinishStream, ResetStream, PauseStream, ResumeStream, ReleaseStream, CloseSession;
    match a
    case Api(Open(o)) => OpenKeeps(s, b, o);
    case Api(Write(id, data)) => WriteKeeps(s, b, id, data);
    case Api(Finish(id)) => FinishKeeps(s, b, id);
    case Api(Reset(id, reason)) => ResetKeeps(s, b, id, reason);
    case Api(Pause(id)) => PauseKeeps(s, b, id);
    case Api(Resume(id)) => ResumeKeeps(s, b, id);
    case Api(Release(id)) => ReleaseKeeps(s, b, id);
    case Api(Close) => CloseKeeps(s, b);
    case Recv(f) => ReceiveKeeps(s, b, f);
    case Ret => ReturnKeeps(s, b);
    case Up => ConnectKeeps(s, b);
    case Prepare(cs) => ScriptKeeps(s, b, cs);
    case NextCallback => ScriptKeeps(s, b, s.script[1..]);
  }

  lemma ConnectKeeps(s: Sess, b: Sess)
    requires Linked(s, b)
    ensures Linked(Connect(s), b)
  {
    if Connect(s) != s {
      assert Connect(s).trace == s.trace + [Connected];
    }
    SilentStep(s, Connect(s), b);
  }

  lemma ScriptKeeps(s: Sess, b: Sess, cs: seq<seq<Call>>)
    requires Linked(s, b)
    ensures Linked(s.(script := cs), b)
  {
    SilentStep(s, s.(script := cs), b);
  }

  lemma LinkedSymmetric(a: Sess, b: Sess)
    requires Linked(a, b)
    ensures Linked(b, a)
  {
  }

  /** Every run keeps the two sessions linked, as long as neither runs out of ids or resumes re-entrantly. */
  lemma {:induction false} RunKeeps(h: Sess, c: Sess, ms: seq<Move>)
    requires Linked(h, c) && RunOk(h, c, ms)
    requires Within(RunEnd(h, c, ms).0) && Within(RunEnd(h, c, ms).1)
    ensures Linked(RunEnd(h, c, ms).0, RunEnd(h, c, ms).1)
    decreases |ms|
  {
    hide Linked, Do, Within, Enabled;
    if ms != [] {
      if ms[0].first {
        var h1 := Do(h, ms[0].act);
        RunMonotone(h1, c, ms[1..]);
        ActKeeps(h, c, ms[0].act);
        RunKeeps(h1, c, ms[1..]);
      } else {
        var c1 := Do(c, ms[0].act);
        RunMonotone(h, c1, ms[1..]);
        LinkedSymmetric(h, c);
        ActKeeps(c, h, ms[0].act);
        LinkedSymmetric(c1, h);
        RunKeeps(h, c1, ms[1..]);
      }
    }
  }

  /** A host and a client with one window, freshly created, and where a run of theirs leads. */
  ghost predicate Reached(window: u32, ms: seq<Move>, h: Sess, c: Sess) {
    var h0, c0 := NewSession(Host, window), NewSession(Client, window);
    window > 0 && RunOk(h0, c0, ms) && RunEnd(h0, c0, ms) == (h, c) && Within(h) && Within(c)
  }

  ghost function PeerOf(role: Role): Role {
    if role == Host then Client else Host
  }

  /** Two fresh sessions of different roles, and where a run takes them. */
  ghost predicate Ran(role: Role, window: u32, ms: seq<Move>, s: Sess, b: Sess) {
    var s0, b0 := NewSession(role, window), NewSession(PeerOf(role), window);
    window > 0 && RunOk(s0, b0, ms) && RunEnd(s0, b0, ms) == (s, b) && Within(s) && Within(b)
  }

  lemma ReachedLinked(window: u32, ms: seq<Move>, h: Sess, c: Sess)
    requires Reached(window, ms, h, c)
    ensures Linked(h, c) && Linked(c, h)
  {
    hide Linked;
    LinkedInitially(Host, Client, window);
    RunKeeps(NewSession(Host, window), NewSession(Client, window), ms);
    LinkedSymmetric(h, c);
  }

  // ---- honest peers never fail --------------------------------------------

  lemma NoProtocolError(window: u32, ms: seq<Move>, h: Sess, c: Sess)
    requires Reached(window, ms, h, c)
    ensures !h.error && !c.error
  {
    ReachedLinked(window, ms, h, c);
  }

  // ---- credit conservation ------------------------------------------------

  /** The frames `a` has sent and `b` has not processed, of stream `id`. */
  ghost function InFlight(a: Sess, b: Sess, id: u16): seq<Frame>
    requires b.rcvd <= |a.sent|
  {
    Of(a.sent[b.rcvd..], id)
  }

  ghost predicate Live(s: Sess, id: u16) {
    id in s.streams && !s.streams[id].reset
  }

  /** Bytes handed to a callback of stream `id` that is still running. */
  ghost function InCallback(s: Sess, id: u16): seq<Pend> {
    PendsOf(s.stack, id)
  }

  lemma CreditConserved(a: Sess, b: Sess, id: u16)
    requires Linked(a, b) && Live(a, id) && a.streams[id].local && Live(b, id)
    ensures a.streams[id].sendWindow + |DataIn(InFlight(a, b, id))| + b.streams[id].recvOutstanding
            + Credit(InFlight(b, a, id)) == a.window
    ensures !HasReset(InFlight(b, a, id))
    ensures InCallback(b, id) == [] ==> b.streams[id].recvOutstanding == b.streams[id].creditPending + |b.streams[id].held|
    ensures |InCallback(b, id)| <= 1
    ensures |InCallback(b, id)| == 1 ==> b.streams[id].recvOutstanding == b.streams[id].creditPending + InCallback(b, id)[0].n
  {
    OpenerInv(a, b, id);
  }

  /** No overrun and no wrap, whether or not the other end is still there. */
  lemma WindowNeverExceeded(a: Sess, b: Sess, id: u16)
    requires Linked(a, b) && Own(a.role, id)
    ensures Live(a, id) ==> a.streams[id].sendWindow + Credit(InFlight(b, a, id)) <= a.window
    ensures Live(b, id) ==> |DataIn(InFlight(a, b, id))| + b.streams[id].recvOutstanding <= b.window
    ensures id in b.streams ==> b.streams[id].creditPending <= b.streams[id].recvOutstanding
    ensures Live(a, id) && id !in b.streams && |InFlight(a, b, id)| > 0 && InFlight(a, b, id)[0].kind == FRAME_OPEN ==>
              a.streams[id].sendWindow + |DataIn(InFlight(a, b, id))| == a.window
  {
    OpenerInv(a, b, id);
    var L := LinkOf(a, b, id);
    if L.fwd != [] && L.fwd[0].kind == FRAME_OPEN {
      if L.q != Unopened {
        BadStays(L.fwd[1..]);
      }
    }
  }

  // ---- content, in order ----------------------------------------------------

  /** What the events `es` delivered on stream `id`. */
  ghost function Read(es: seq<Event>, id: u16): seq<byte> {
    Got(EventsOf(es, id))
  }

  lemma ReadOne(es: seq<Event>, e: Event, id: u16)
    ensures Read(es + [e], id) == Read(es, id) + if e.Data? && e.id == id then e.bytes else []
  {
    EventsAppend(es, [e], id);
    EventsOwn([e], id);
    if About(e, id) {
      GotOne(EventsOf(es, id), e);
    } else {
      assert EventsOf(es, id) + [] == EventsOf(es, id);
    }
  }

  ghost function Delivered(s: Sess, id: u16): seq<byte> {
    Read(s.trace, id)
  }

  /** All the bytes `write` accepted for stream `id`. */
  ghost function Written(s: Sess, id: u16): seq<byte> {
    if id in s.wrote then s.wrote[id] else []
  }

  lemma ContentInOrder(a: Sess, b: Sess, id: u16)
    requires Linked(a, b) && Own(a.role, id) && Live(b, id)
    ensures Delivered(b, id) + HeldLeft(b.streams[id], InCallback(b, id)) + DataIn(InFlight(a, b, id)) == Written(a, id)
  {
    OpenerInv(a, b, id);
  }

  lemma {:induction false} InEventsOf(es: seq<Event>, e: Event, id: u16)
    requires e in es && About(e, id)
    ensures e in EventsOf(es, id)
  {
    if es[0] != e {
      InEventsOf(es[1..], e, id);
    }
  }

  /** FINISHED is raised only once everything the opener ever writes was delivered. */
  lemma FinishedMeansComplete(a: Sess, b: Sess, id: u16)
    requires Linked(a, b) && Own(a.role, id) && Finished(id) in b.trace
    ensures Delivered(b, id) == Written(a, id)
    ensures id in a.streams ==> a.streams[id].finishedSent
    ensures EofSeen(Run(Unopened, Of(a.sent[..b.rcvd], id)))
    ensures InFlight(a, b, id) == [] || InFlight(a, b, id)[0].kind == FRAME_RESET
  {
    OpenerInv(a, b, id);
    InEventsOf(b.trace, Finished(id), id);
    var L := LinkOf(a, b, id);
    NoDataAfterEnd(L.q, L.fwd);
    if L.fwd != [] && L.fwd[0].kind != FRAME_RESET {
      BadStays(L.fwd[1..]);
    }
  }

  /** What the reader learns about a stream is what the opener asked for. */
  lemma OpenedAsAsked(a: Sess, b: Sess, id: u16, o: Opts)
    requires Linked(a, b) && Own(a.role, id) && Opened(id, o) in b.trace
    ensures id in a.opts && a.opts[id] == o
  {
    OpenerInv(a, b, id);
    InEventsOf(b.trace, Opened(id, o), id);
  }

  // ---- no credit deadlock ---------------------------------------------------

  /**
   Consumed bytes are granted exactly when half the window, or one byte, is pending: all that is pending goes out in one WINDOW
   frame, and otherwise nothing goes out and nothing is lost.
   */
  lemma CreditGrantedExactly(s: Sess, id: u16, n: u32)
    requires id in s.streams && s.streams[id].creditPending as int + n < 0x1_0000_0000
    ensures var pending, t := s.streams[id].creditPending as int + n, CreditConsume(s, id, n);
      && id in t.streams && t == s.(streams := s.streams[id := t.streams[id]], sent := t.sent)
      && (t.sent != s.sent <==> pending >= if s.window / 2 == 0 then 1 else s.window / 2)
      && (t.sent != s.sent ==>
            t.sent == s.sent + [Frame(FRAME_WINDOW, id, Wr32(pending))] && t.streams[id].creditPending == 0)
      && (t.sent == s.sent ==> t.streams[id].creditPending == pending && t.streams[id].recvOutstanding == s.streams[id].recvOutstanding)
  {
    ConsumedSays(s.window, id, s.streams[id], n);
    hide Consumed, Wr32;
    var fs := Consumed(s.window, id, s.streams[id], n).1;
    if s.streams[id].creditPending as int + n >= if s.window / 2 == 0 then 1 else s.window / 2 {
      assert |s.sent + fs| == |s.sent| + 1;
      return;
    }
    assert s.sent + fs == s.sent;
  }

  lemma ConsumedSays(window: u32, id: u16, st: Stream, n: u32)
    requires st.creditPending as int + n < 0x1_0000_0000
    ensures var pending, (st1, fs) := st.creditPending as int + n, Consumed(window, id, st, n);
      if pending >= if window / 2 == 0 then 1 else window / 2
      then fs == [Frame(FRAME_WINDOW, id, Wr32(pending))] && st1.creditPending == 0
      else fs == [] && st1.creditPending == pending && st1.recvOutstanding == st.recvOutstanding
  {
    hide Wr32;
  }

  /** With nothing in flight and the reader not holding back, the opener can write more than half the window. */
  lemma NoCreditDeadlock(a: Sess, b: Sess, id: u16)
    requires Linked(a, b) && Live(a, id) && a.streams[id].local && Live(b, id)
    requires InFlight(a, b, id) == [] && InFlight(b, a, id) == []
    requires !b.streams[id].paused && InCallback(b, id) == []
    ensures a.streams[id].sendWindow >= a.window - (if a.window / 2 == 0 then 1 else a.window / 2) + 1 > 0
    ensures 2 * a.streams[id].sendWindow > a.window || a.window <= 1
  {
    CreditConserved(a, b, id);
    OpenerInv(a, b, id);
  }

  /** A stalled opener has a way out: bytes to be taken, held back or being consumed, or credit on its way. */
  lemma StallHasACause(a: Sess, b: Sess, id: u16)
    requires Linked(a, b) && Live(a, id) && a.streams[id].local && Live(b, id) && a.streams[id].sendWindow == 0
    ensures DataIn(InFlight(a, b, id)) != [] || InFlight(b, a, id) != []
         || b.streams[id].held != [] || InCallback(b, id) != []
  {
    CreditConserved(a, b, id);
    OpenerInv(a, b, id);
  }

  /** The opener of `id` can still write, and its window is shut. */
  ghost predicate Stalled(s: Sess, id: u16) {
    Live(s, id) && s.streams[id].local && !s.streams[id].finishedSent && s.streams[id].sendWindow == 0
  }

  ghost predicate CanWrite(s: Sess, id: u16) {
    Live(s, id) && s.streams[id].local && !s.streams[id].finishedSent && s.streams[id].sendWindow > 0
  }

  /** Stream `id` is stalled, or over for writing. */
  ghost predicate ShutFor(s: Sess, id: u16) {
    id < Limit(s) && !CanWrite(s, id)
  }

  /** The only step that opens a shut window raises WRITABLE. */
  lemma OnlyWindowReopens(s: Sess, b: Sess, a: Act, id: u16)
    requires SessInv(s) && ActOk(s, b, a) && Within(Do(s, a)) && id < Limit(s)
    ensures s.trace <= Do(s, a).trace
    ensures id < Limit(Do(s, a))
    ensures ShutFor(s, id) ==> ShutFor(Do(s, a), id) || Writable(id) in Do(s, a).trace[|s.trace|..]
  {
    hide Apply, Return, SessInv;
    match a
    case Api(c) => ApplyIsTame(s, c, id);
    case Ret => ReturnIsMild(s, id);
    case Recv(f) =>
      if f.kind == FRAME_WINDOW && f.sid == id {
        WindowWakes(s, f);
      } else {
        hide Receive;
        ReceiveIsMild(s, f, id);
      }
    case _ =>
  }

  lemma WindowWakes(s: Sess, f: Frame)
    requires Encodable(f) && f.kind == FRAME_WINDOW
    ensures Limit(Receive(s, f)) == Limit(s) && s.trace <= Receive(s, f).trace
    ensures !CanWrite(s, f.sid) ==> !CanWrite(Receive(s, f), f.sid) || Writable(f.sid) in Receive(s, f).trace[|s.trace|..]
  {
    hide Grant;
    HandleWindowIsMild(Took(s), f.sid, f.payload, 0);
    if |f.payload| != 4 {}
    else if f.sid !in s.streams || s.streams[f.sid].reset {}
    else if !s.streams[f.sid].local {}
    else { GrantWakes(Took(s), f.sid, Rd32(f.payload)); }
  }

  lemma GrantWakes(s: Sess, id: u16, n: u32)
    requires id in s.streams
    ensures !CanWrite(s, id) ==> !CanWrite(Grant(s, id, n), id) || Grant(s, id, n).trace == s.trace + [Writable(id)]
  {
    hide Add32;
    var st := s.streams[id];
    if !st.finishedSent && st.sendWindow == 0 && Add32(st.sendWindow, n) > 0 {} else {}
  }

  lemma LinkedParts(s: Sess, b: Sess)
    requires Linked(s, b)
    ensures SessInv(s) && SessInv(b) && Joined(s, b)
  {
  }

  /** No lost wakeup: a shut window that has reopened by the end of a run has raised WRITABLE on the way. */
  lemma {:induction false} ReopeningWakesWriter(h: Sess, c: Sess, ms: seq<Move>, id: u16)
    requires Linked(h, c) && RunOk(h, c, ms)
    requires Within(RunEnd(h, c, ms).0) && Within(RunEnd(h, c, ms).1)
    requires ShutFor(h, id)
    ensures h.trace <= RunEnd(h, c, ms).0.trace
    ensures CanWrite(RunEnd(h, c, ms).0, id) ==> Writable(id) in RunEnd(h, c, ms).0.trace[|h.trace|..]
    decreases |ms|
  {
    hide Linked, Do, Within, Enabled, CanWrite, Limit;
    if ms != [] {
      LinkedParts(h, c);
      var e := RunEnd(h, c, ms);
      if ms[0].first {
        var h1 := Do(h, ms[0].act);
        RunMonotone(h1, c, ms[1..]);
        ActKeeps(h, c, ms[0].act);
        OnlyWindowReopens(h, c, ms[0].act, id);
        if ShutFor(h1, id) {
          ReopeningWakesWriter(h1, c, ms[1..], id);
          assert e.0.trace[|h1.trace|..] == e.0.trace[|h.trace|..][|h1.trace| - |h.trace|..];
        } else {
          TraceGrows(h1, c, ms[1..]);
          assert h1.trace[|h.trace|..] <= e.0.trace[|h.trace|..];
        }
      } else {
        var c1 := Do(c, ms[0].act);
        RunMonotone(h, c1, ms[1..]);
        LinkedSymmetric(h, c);
        ActKeeps(c, h, ms[0].act);
        LinkedSymmetric(c1, h);
        ReopeningWakesWriter(h, c1, ms[1..], id);
      }
    }
  }

  lemma {:induction false} TraceGrows(h: Sess, c: Sess, ms: seq<Move>)
    requires RunOk(h, c, ms)
    ensures h.trace <= RunEnd(h, c, ms).0.trace
    decreases |ms|
  {
    hide Do, Enabled;
    if ms != [] {
      if ms[0].first {
        ActTraceGrows(h, ms[0].act);
        TraceGrows(Do(h, ms[0].act), c, ms[1..]);
      } else {
        TraceGrows(h, Do(c, ms[0].act), ms[1..]);
      }
    }
  }

  /** A stalled writer is woken by the time everything has settled, unless the reader holds back or one of them gives up. */
  lemma StalledWriterIsWoken(h: Sess, c: Sess, ms: seq<Move>, id: u16)
    requires Linked(h, c) && RunOk(h, c, ms) && Stalled(h, id)
    requires var (h1, c1) := RunEnd(h, c, ms);
      && Within(h1) && Within(c1)
      && h1.rcvd <= |c1.sent| && c1.rcvd <= |h1.sent|
      && Live(h1, id) && h1.streams[id].local && !h1.streams[id].finishedSent && Live(c1, id)
      && InFlight(h1, c1, id) == [] && InFlight(c1, h1, id) == []
      && !c1.streams[id].paused && InCallback(c1, id) == []
    ensures h.trace <= RunEnd(h, c, ms).0.trace
    ensures Writable(id) in RunEnd(h, c, ms).0.trace[|h.trace|..]
  {
    var (h1, c1) := RunEnd(h, c, ms);
    RunKeeps(h, c, ms);
    NoCreditDeadlock(h1, c1, id);
    OpenerInv(h, c, id);
    ReopeningWakesWriter(h, c, ms, id);
  }

  // ---- where the assumptions matter ------------------------------------------

  /**
   Resuming a live stream keeps its content claim exactly when its held bytes are not already being given
   to a callback: `resume` raises the event before it forgets the bytes, so a callback that pauses and resumes
   its own stream is given them again.
   */
  lemma ResumeKeepsContentExactly(a: Sess, b: Sess, id: u16)
    requires Linked(a, b) && Own(a.role, id) && Live(b, id) && b.streams[id].paused && b.streams[id].held != []
    ensures var t := ResumeStream(b, id);
      && (t.reentered <==> IsResuming(b.stack, id))
      && (Delivered(t, id) + HeldLeft(t.streams[id], InCallback(t, id)) + DataIn(InFlight(a, t, id)) == Written(a, id)
          <==> !IsResuming(b.stack, id))
  {
    hide Links.Inv, Run, LinkOf, Half, SessInv, PendsOf, EventsOf, IsResuming;
    var t := ResumeStream(b, id);
    var held := b.streams[id].held;
    ContentInOrder(a, b, id);
    OnlyOneCallback(a, b, id);
    GivenNow(b, id, held);
    assert HeldLeft(t.streams[id], InCallback(t, id)) == [];
    if IsResuming(b.stack, id) {
      assert HeldLeft(b.streams[id], InCallback(b, id)) == [];
      assert |Delivered(t, id)| == |Delivered(b, id)| + |held|;
    } else {
      assert Delivered(b, id) + held + [] + DataIn(InFlight(a, b, id)) == Delivered(b, id) + held + DataIn(InFlight(a, b, id));
    }
  }

  lemma GivenNow(b: Sess, id: u16, held: seq<byte>)
    requires |InCallback(b, id)| <= 1
    ensures Read(b.trace + [Data(id, held)], id) == Delivered(b, id) + held
    ensures var ps := PendsOf(b.stack + [Resuming(id, |held| % 0x1_0000_0000)], id);
      ps != [] && (IsResuming(b.stack, id) || InCallback(b, id) == [] ==> ps[0].Resuming?)
    ensures IsResuming(b.stack, id) ==> |InCallback(b, id)| == 1 && InCallback(b, id)[0].Resuming?
  {
    var p := Resuming(id, |held| % 0x1_0000_0000);
    PendsIn(b.stack, id);
    PendsAppend(b.stack, p, id);
    ReadOne(b.trace, Data(id, held), id);
    if IsResuming(b.stack, id) {
      var r :| r in b.stack && r.Resuming? && r.id == id;
      assert r in InCallback(b, id);
    }
  }

  lemma OnlyOneCallback(a: Sess, b: Sess, id: u16)
    requires Linked(a, b) && Own(a.role, id) && Live(b, id)
    ensures !b.streams[id].local && !b.reentered
    ensures |InCallback(b, id)| <= 1
    ensures b.streams[id].held != [] && !IsResuming(b.stack, id) ==> InCallback(b, id) == []
  {
    OpenerInv(a, b, id);
    PendsIn(b.stack, id);
    assert |InCallback(b, id)| == 1 ==> InCallback(b, id)[0] in InCallback(b, id);
  }

  /** Past `MAX_OPENS` opens the host's 16-bit counter is back at 0, an id the peer refuses as a protocol error. */
  lemma HostRunsOutOfIds(s: Sess, o: Opts, b: Sess)
    requires SessInv(s) && s.role == Host && !s.closing && |s.streams| < MAX_STREAMS && b.role == Client && !b.error
    ensures var t := OpenStream(s, o);
      var f := t.sent[|s.sent|];
      f.kind == FRAME_OPEN && Encodable(f) && (f.sid == 0 <==> s.opens == MAX_OPENS) && (f.sid == 0 ==> Receive(b, f).error)
  {
    var f := OpenStream(s, o).sent[|s.sent|];
    if f.sid == 0 {
      assert HandleOpen(Took(b), 0, f.payload) == ProtocolError(Took(b), InvalidArg);
    }
  }

  /** The client's counter comes round to its first id one open later, which a peer that still has that stream refuses. */
  lemma ClientRunsOutOfIds(s: Sess, o: Opts, b: Sess)
    requires s.role == Client && s.nextTxId == Limit(s) % 0x1_0000 && 0 < s.opens <= MAX_OPENS + 1
    requires !s.closing && !s.error && |s.streams| < MAX_STREAMS && b.role == Host && !b.error
    ensures var t := OpenStream(s, o);
      var f := t.sent[|s.sent|];
      && f.kind == FRAME_OPEN && Encodable(f)
      && (f.sid == Base(Client) <==> s.opens == MAX_OPENS + 1)
      && (f.sid == Base(Client) && f.sid in b.streams ==> Receive(b, f).error)
  {
    var f := OpenStream(s, o).sent[|s.sent|];
    assert f.payload == Wr16(o.kind) + Wr64(o.hint);
    if f.sid == Base(Client) && f.sid in b.streams {
      assert HandleOpen(Took(b), f.sid, f.payload) == ProtocolError(Took(b), InvalidState);
    }
  }
}
