/** What a session does to an application that never pauses: it keeps what was asked of it, and raises events in order. */
module Carrying {
  import opened Wire
  import opened Engine
  import opened Links
  import opened System
  import opened Receiving
  import opened Guarantees

  /** What a session does by itself: frames arrive, callbacks return, the link comes up, the screen closes it. */
  ghost predicate Lower(a: Act) {
    a.Recv? || a == Ret || a == Up || a == Api(Close)
  }

  /** The exchange never pauses a stream. */
  ghost predicate NoPause(s: Sess) {
    && (forall id <- s.streams :: !s.streams[id].paused)
    && (forall p <- s.stack :: p.Delivering?)
  }

  // ---- what a session step does ---------------------------------------------------

  /** Nothing the application asked for changes, and its own streams keep their writing state. */
  ghost predicate Carries(s: Sess, t: Sess) {
    && t.role == s.role && t.window == s.window && t.opens == s.opens && t.opts == s.opts && t.wrote == s.wrote
    && (s.reentered == t.reentered)
    && (forall id <- s.streams :: s.streams[id].local ==>
          id in t.streams && t.streams[id].local && t.streams[id].finishedSent == s.streams[id].finishedSent)
  }

  lemma CreditCarries(s: Sess, k: u16, n: u32)
    requires k in s.streams && NoPause(s)
    ensures Carries(s, CreditConsume(s, k, n)) && NoPause(CreditConsume(s, k, n))
    ensures CreditConsume(s, k, n).trace == s.trace
  {
  }

  lemma ReturnCarries(s: Sess)
    requires s.stack != [] && NoPause(s)
    ensures Carries(s, Return(s)) && NoPause(Return(s)) && Return(s).trace == s.trace
  {
    hide CreditConsume;
    var p := s.stack[|s.stack| - 1];
    var s1 := s.(stack := s.stack[..|s.stack| - 1]);
    assert p.Delivering?;
    assert NoPause(s1);
    if p.id !in s.streams || s.streams[p.id].reset {} else {
      CreditCarries(s1, p.id, p.n);
    }
  }

  lemma OpenCarries(s: Sess, sid: u16, payload: seq<byte>)
    requires NoPause(s) && sid !in s.streams && |payload| == 10 && sid != 0 && sid % 2 == PeerParity(s.role)
    ensures var t := HandleOpen(s, sid, payload);
      && Carries(s, t) && NoPause(t)
      && (t.trace == s.trace || exists o: Opts :: t.trace == s.trace + [Opened(sid, o)])
  {
    if |s.streams| >= MAX_STREAMS {} else {
      assert HandleOpen(s, sid, payload).trace == s.trace + [Opened(sid, Opts(Rd16(payload[..2]), Rd64(payload[2..])))];
    }
  }

  lemma DataCarries(s: Sess, sid: u16, payload: seq<byte>)
    requires NoPause(s) && sid in s.streams && |payload| < 0x1_0000
    requires var st := s.streams[sid];
      !st.reset && !st.local && !st.finishedRecv && st.recvOutstanding as int + |payload| <= s.window
    ensures var t := HandleData(s, sid, payload);
      Carries(s, t) && NoPause(t) && t.trace == s.trace + [Data(sid, payload)]
  {
    assert !s.streams[sid].paused;
  }

  lemma FinishCarries(s: Sess, sid: u16)
    requires NoPause(s) && sid in s.streams
    ensures Carries(s, DeliverFinished(s, sid)) && NoPause(DeliverFinished(s, sid))
    ensures DeliverFinished(s, sid).trace == s.trace + [Finished(sid)]
  {
  }

  lemma EofCarries(s: Sess, sid: u16)
    requires NoPause(s) && sid in s.streams
    requires var st := s.streams[sid]; !st.reset && !st.local && !st.finishedRecv && st.held == []
    ensures var t := HandleEof(s, sid, 0);
      Carries(s, t) && NoPause(t) && t.trace == s.trace + [Finished(sid)]
  {
    hide DeliverFinished;
    assert !s.streams[sid].paused;
    var s1 := Put(s, sid, s.streams[sid].(finishedRecv := true));
    assert NoPause(s1) && Carries(s, s1);
    FinishCarries(s1, sid);
  }

  lemma ResetCarries(s: Sess, sid: u16, payload: seq<byte>)
    requires NoPause(s) && |payload| == 4
    ensures var t := HandleReset(s, sid, payload);
      Carries(s, t) && NoPause(t) && (t.trace == s.trace || t.trace == s.trace + [WasReset(sid, Rd32(payload))])
  {
    if sid !in s.streams || s.streams[sid].reset {} else {}
  }

  lemma GrantCarries(s: Sess, sid: u16, n: u32)
    requires NoPause(s) && sid in s.streams
    ensures var t := Grant(s, sid, n);
      Carries(s, t) && NoPause(t) && (t.trace == s.trace || t.trace == s.trace + [Writable(sid)])
  {
    hide Add32, Carries, NoPause;
    var st := s.streams[sid];
    var w := Add32(st.sendWindow, n);
    var s1 := Put(s, sid, st.(sendWindow := w));
    WindowChanges(s, sid, w);
    if !st.finishedSent && st.sendWindow == 0 && w > 0 {
      LogCarries(s, s1, Writable(sid));
    } else {
    }
  }

  lemma WindowChanges(s: Sess, sid: u16, w: u32)
    requires NoPause(s) && sid in s.streams
    ensures var s1 := Put(s, sid, s.streams[sid].(sendWindow := w)); Carries(s, s1) && NoPause(s1)
  {
  }

  lemma LogCarries(s: Sess, t: Sess, e: Event)
    requires Carries(s, t) && NoPause(t)
    ensures Carries(s, Log(t, e)) && NoPause(Log(t, e))
  {
  }

  lemma WindowCarries(s: Sess, sid: u16, payload: seq<byte>)
    requires NoPause(s) && |payload| == 4 && (sid in s.streams ==> s.streams[sid].local)
    ensures var t := HandleWindow(s, sid, payload);
      Carries(s, t) && NoPause(t) && (t.trace == s.trace || t.trace == s.trace + [Writable(sid)])
  {
    hide Grant;
    if sid !in s.streams || s.streams[sid].reset {} else {
      GrantCarries(s, sid, Rd32(payload));
    }
  }

  // ---- the event it raises --------------------------------------------------------

  /** What is read comes from a stream of the peer's, and nothing more once the stream's end was reported. */
  ghost predicate Timely(role: Role, es: seq<Event>, e: Event) {
    && (e.Opened? || e.Data? || e.Finished? ==> e.id != 0 && !Own(role, e.id))
    && (e.Data? || e.Finished? ==> !HasFinished(EventsOf(es, e.id)))
  }

  /** At most one event is raised, and it is timely. */
  ghost predicate Raises(role: Role, es: seq<Event>, ds: seq<Event>) {
    ds == es || (|ds| == |es| + 1 && es <= ds && Timely(role, es, ds[|es|]))
  }

  lemma RaisesOne(role: Role, es: seq<Event>, ds: seq<Event>, e: Event)
    requires ds == es + [e] && Timely(role, es, e)
    ensures Raises(role, es, ds)
  {
  }

  lemma DataIsTimely(s: Sess, b: Sess, id: u16, bytes: seq<byte>)
    requires Linked(s, b) && id != 0 && !Own(s.role, id) && id in s.streams && !s.streams[id].finishedRecv
    ensures Timely(s.role, s.trace, Data(id, bytes)) && Timely(s.role, s.trace, Finished(id))
  {
    ReaderInv(s, b, id);
  }

  lemma OthersAreTimely(role: Role, es: seq<Event>, e: Event)
    requires !e.Data? && !e.Finished? && (e.Opened? ==> e.id != 0 && !Own(role, e.id))
    ensures Timely(role, es, e)
  {
  }

  /** The result of a step on one session: all that `LowerStep` promises. */
  ghost predicate Fine(s: Sess, t: Sess) {
    Carries(s, t) && NoPause(t) && Raises(s.role, s.trace, t.trace)
  }

  lemma FineAfterTaking(s: Sess, t: Sess)
    requires Carries(Took(s), t) && NoPause(t) && Raises(s.role, s.trace, t.trace)
    ensures Fine(s, t)
  {
  }

  lemma OpenFrameIsFine(s: Sess, b: Sess, f: Frame)
    requires Incoming(s, b, f) && NoPause(s) && f.sid != 0 && !Own(s.role, f.sid) && f.kind == FRAME_OPEN
    ensures Fine(s, HandleOpen(Took(s), f.sid, f.payload))
  {
    hide Links.Inv, Half, SessInv, LinkOf, Run, Fine, HandleOpen, Raises, Timely, Carries;
    ReaderHead(s, b, f);
    OpenPayload(s.window, f.sid, LinkOf(b, s, f.sid));
    OpenCarries(Took(s), f.sid, f.payload);
    var t := HandleOpen(Took(s), f.sid, f.payload);
    if t.trace == s.trace {
      NothingRaised(s.role, s.trace);
    } else {
      var o: Opts :| t.trace == s.trace + [Opened(f.sid, o)];
      OthersAreTimely(s.role, s.trace, Opened(f.sid, o));
      RaisesOne(s.role, s.trace, t.trace, Opened(f.sid, o));
    }
    FineAfterTaking(s, t);
  }

  lemma NothingRaised(role: Role, es: seq<Event>)
    ensures Raises(role, es, es)
  {
  }

  lemma TookIsFine(s: Sess)
    requires NoPause(s)
    ensures Fine(s, Took(s))
  {
  }

  lemma DataFrameIsFine(s: Sess, b: Sess, f: Frame)
    requires Incoming(s, b, f) && NoPause(s) && f.sid != 0 && !Own(s.role, f.sid) && f.kind == FRAME_DATA && Sized(f)
    ensures Fine(s, HandleData(Took(s), f.sid, f.payload))
  {
    hide Links.Inv, LinkOf, Half, SessInv, Run, Fine, HandleData, Raises, Timely, Carries, NoPause;
    ReaderHead(s, b, f);
    if f.sid !in s.streams || s.streams[f.sid].reset {
      Dropped(s, f);
      TookIsFine(s);
    } else {
      Reader.DataIsWelcome(s.window, f.sid, LinkOf(b, s, f.sid));
      TookNoPause(s);
      DataCarries(Took(s), f.sid, f.payload);
      DataIsTimely(s, b, f.sid, f.payload);
      RaisesOne(s.role, s.trace, HandleData(Took(s), f.sid, f.payload).trace, Data(f.sid, f.payload));
      FineAfterTaking(s, HandleData(Took(s), f.sid, f.payload));
    }
  }

  lemma Dropped(s: Sess, f: Frame)
    requires |f.payload| < 0x1_0000 && (f.sid in s.streams ==> s.streams[f.sid].reset)
    ensures HandleData(Took(s), f.sid, f.payload) == Took(s)
    ensures HandleEof(Took(s), f.sid, 0) == Took(s)
  {
  }

  lemma TookNoPause(s: Sess)
    requires NoPause(s)
    ensures NoPause(Took(s))
  {
  }

  lemma EofFrameIsFine(s: Sess, b: Sess, f: Frame)
    requires Incoming(s, b, f) && NoPause(s) && f.sid != 0 && !Own(s.role, f.sid) && f.kind == FRAME_EOF
    ensures Fine(s, HandleEof(Took(s), f.sid, |f.payload|))
  {
    hide Links.Inv, LinkOf, Half, SessInv, Run, Fine, HandleEof, Raises, Timely, Carries, NoPause;
    ReaderHead(s, b, f);
    EofPayload(s.window, f.sid, LinkOf(b, s, f.sid));
    if f.sid !in s.streams || s.streams[f.sid].reset {
      Dropped(s, f);
      TookIsFine(s);
    } else {
      Reader.ReaderEnds(s.window, f.sid, LinkOf(b, s, f.sid));
      NothingHeld(s, b, f);
      TookNoPause(s);
      EofCarries(Took(s), f.sid);
      DataIsTimely(s, b, f.sid, []);
      RaisesOne(s.role, s.trace, HandleEof(Took(s), f.sid, 0).trace, Finished(f.sid));
      FineAfterTaking(s, HandleEof(Took(s), f.sid, 0));
    }
  }

  lemma NothingHeld(s: Sess, b: Sess, f: Frame)
    requires Incoming(s, b, f) && NoPause(s) && f.sid != 0 && !Own(s.role, f.sid)
    requires f.sid in s.streams && !s.streams[f.sid].reset
    ensures s.streams[f.sid].held == [] && !s.streams[f.sid].paused
  {
    ReaderHead(s, b, f);
  }

  lemma ResetFrameIsFine(s: Sess, f: Frame)
    requires NoPause(s) && |f.payload| == 4
    ensures Fine(s, HandleReset(Took(s), f.sid, f.payload))
  {
    hide Fine, HandleReset, Raises, Timely, Carries, NoPause;
    TookNoPause(s);
    ResetCarries(Took(s), f.sid, f.payload);
    var t := HandleReset(Took(s), f.sid, f.payload);
    NothingRaised(s.role, s.trace);
    if t.trace != s.trace {
      OthersAreTimely(s.role, s.trace, WasReset(f.sid, Rd32(f.payload)));
      RaisesOne(s.role, s.trace, t.trace, WasReset(f.sid, Rd32(f.payload)));
    }
    FineAfterTaking(s, t);
  }

  lemma WindowFrameIsFine(s: Sess, f: Frame)
    requires NoPause(s) && |f.payload| == 4 && (f.sid in s.streams ==> s.streams[f.sid].local)
    ensures Fine(s, HandleWindow(Took(s), f.sid, f.payload))
  {
    hide Fine, HandleWindow, Raises, Timely, Carries, NoPause;
    TookNoPause(s);
    WindowCarries(Took(s), f.sid, f.payload);
    var t := HandleWindow(Took(s), f.sid, f.payload);
    NothingRaised(s.role, s.trace);
    if t.trace != s.trace {
      OthersAreTimely(s.role, s.trace, Writable(f.sid));
      RaisesOne(s.role, s.trace, t.trace, Writable(f.sid));
    }
    FineAfterTaking(s, t);
  }

  lemma GoawayFrameIsFine(s: Sess)
    requires NoPause(s)
    ensures Fine(s, HandleGoaway(Took(s)))
  {
    RaisesOne(s.role, s.trace, HandleGoaway(Took(s)).trace, Disconnected);
  }

  lemma OwnStreams(s: Sess, id: u16)
    requires SessInv(s) && Own(s.role, id)
    ensures id in s.streams ==> s.streams[id].local
  {
  }

  lemma FrameIsFine(s: Sess, b: Sess, f: Frame)
    requires Incoming(s, b, f) && NoPause(s)
    ensures Encodable(f) && Fine(s, Receive(s, f))
  {
    hide Links.Inv, LinkOf, Run, Half, Fine, NoPause, HandleOpen, HandleData, HandleEof, HandleReset, HandleWindow, HandleGoaway;
    assert Sized(f) && (f.sid == 0 <==> f.kind == FRAME_GOAWAY) by { assert f in b.sent; }
    if f.sid == 0 {
      GoawayFrameIsFine(s);
    } else if Own(s.role, f.sid) {
      OpenerHead(s, b, f);
      OwnStreams(s, f.sid);
      if f.kind == FRAME_RESET { ResetFrameIsFine(s, f); } else { WindowFrameIsFine(s, f); }
    } else {
      ReaderHead(s, b, f);
      EofPayload(s.window, f.sid, LinkOf(b, s, f.sid));
      if f.kind == FRAME_OPEN {
        OpenFrameIsFine(s, b, f);
      } else if f.kind == FRAME_DATA {
        DataFrameIsFine(s, b, f);
      } else if f.kind == FRAME_EOF {
        EofFrameIsFine(s, b, f);
      } else {
        ResetFrameIsFine(s, f);
      }
    }
  }

  lemma CloseIsFine(s: Sess)
    requires NoPause(s)
    ensures Fine(s, CloseSession(s))
  {
    if !s.goawaySent && !s.error {} else {}
  }

  lemma ConnectIsFine(s: Sess)
    requires NoPause(s)
    ensures Fine(s, Connect(s))
  {
    if s.closing || s.error {} else {
      RaisesOne(s.role, s.trace, Connect(s).trace, Connected);
    }
  }

  lemma ReturnIsFine(s: Sess)
    requires s.stack != [] && NoPause(s)
    ensures Fine(s, Return(s))
  {
    hide Return, Carries;
    ReturnCarries(s);
  }

  /** Whatever a session does by itself carries the application's streams on and raises at most one event, in order. */
  lemma LowerStep(s: Sess, b: Sess, a: Act)
    requires Linked(s, b) && NoPause(s) && ActOk(s, b, a) && Lower(a)
    ensures Fine(s, Do(s, a)) && Linked(Do(s, a), b)
  {
    hide Linked, Fine, NoPause, Return, CloseSession, Receive, Connect;
    match a {
      case Recv(f) => FrameIsFine(s, b, f);
      case Ret => ReturnIsFine(s);
      case Up => ConnectIsFine(s);
      case Api(_) => CloseIsFine(s);
    }
    FineIsWithin(s, b, Do(s, a));
    ActKeeps(s, b, a);
  }

  lemma FineIsWithin(s: Sess, b: Sess, t: Sess)
    requires Linked(s, b) && Fine(s, t)
    ensures Within(t)
  {
  }
}
