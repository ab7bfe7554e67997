/** Two sessions whose applications neither pause nor reset nor release anything: no stream is lost, and every end is reported. */
module Intactness {
  import opened Wire
  import opened Engine
  import opened Links
  import opened System
  import opened Receiving
  import opened Guarantees
  import opened Carrying
  import Callbacks
  import Reader

  /** No stream was reset or forgotten, and every end that was received was reported. */
  ghost predicate Intact(s: Sess) {
    && (forall id <- s.streams :: !s.streams[id].reset && (s.streams[id].finishedRecv ==> Finished(id) in s.trace))
    && (forall f <- s.sent :: f.kind != FRAME_RESET)
    && (forall id <- s.opts :: id in s.streams)
  }

  /** Every stream of the peer's that `s` has heard of is there. */
  ghost predicate Accepts(s: Sess, b: Sess)
    requires Joined(s, b)
  {
    forall id: u16 | id != 0 && !Own(s.role, id) && LinkOf(b, s, id).q != Unopened :: id in s.streams
  }

  /** Changing one stream, and sending no RESET. */
  lemma PutIntact(s: Sess, t: Sess, k: u16, fs: seq<Frame>)
    requires Intact(s) && s.trace <= t.trace && t.opts == s.opts && k in t.streams && t.streams == s.streams[k := t.streams[k]]
    requires t.sent == s.sent + fs && forall f <- fs :: f.kind != FRAME_RESET
    requires k in s.streams && t.streams[k].finishedRecv && !s.streams[k].finishedRecv ==> Finished(k) in t.trace
    requires if k in s.streams then t.streams[k].reset == s.streams[k].reset else !t.streams[k].reset && !t.streams[k].finishedRecv
    ensures Intact(t) && s.streams.Keys <= t.streams.Keys
  {
    forall id | id in t.streams && t.streams[id].finishedRecv ensures Finished(id) in t.trace {
      if Finished(id) in s.trace {
        var i :| 0 <= i < |s.trace| && s.trace[i] == Finished(id);
        assert t.trace[i] == Finished(id);
      }
    }
  }

  lemma OpenFrameIntact(s: Sess, b: Sess, f: Frame)
    requires Incoming(s, b, f) && f.sid != 0 && !Own(s.role, f.sid) && f.kind == FRAME_OPEN
    requires Intact(s) && |s.streams| < MAX_STREAMS
    ensures var t := HandleOpen(Took(s), f.sid, f.payload);
      Intact(t) && f.sid in t.streams && s.streams.Keys <= t.streams.Keys
  {
    hide Links.Inv, Half, SessInv, LinkOf, Run;
    ReaderHead(s, b, f);
    OpenPayload(s.window, f.sid, LinkOf(b, s, f.sid));
    hide Rd16, Rd64;
    var t := HandleOpen(Took(s), f.sid, f.payload);
    hide Intact;
    PutIntact(s, t, f.sid, []);
  }

  lemma TakenDataIntact(s: Sess, sid: u16, payload: seq<byte>)
    requires Intact(s) && sid in s.streams && |payload| < 0x1_0000 && !s.streams[sid].local && !s.streams[sid].finishedRecv
    requires s.streams[sid].recvOutstanding as int + |payload| <= s.window
    ensures var t := HandleData(Took(s), sid, payload); Intact(t) && s.streams.Keys <= t.streams.Keys
  {
    assert !s.streams[sid].reset;
    hide Intact;
    if s.streams[sid].paused {} else {}
    PutIntact(s, HandleData(Took(s), sid, payload), sid, []);
  }

  lemma DataFrameIntact(s: Sess, b: Sess, f: Frame)
    requires Incoming(s, b, f) && f.sid != 0 && !Own(s.role, f.sid) && f.kind == FRAME_DATA && Sized(f)
    requires Intact(s) && f.sid in s.streams
    ensures var t := HandleData(Took(s), f.sid, f.payload);
      Intact(t) && s.streams.Keys <= t.streams.Keys
  {
    hide Links.Inv, Half, SessInv, LinkOf, Run;
    ReaderHead(s, b, f);
    Reader.DataIsWelcome(s.window, f.sid, LinkOf(b, s, f.sid));
    TakenDataIntact(s, f.sid, f.payload);
  }

  lemma EofFrameIntact(s: Sess, b: Sess, f: Frame)
    requires Incoming(s, b, f) && f.sid != 0 && !Own(s.role, f.sid) && f.kind == FRAME_EOF
    requires Intact(s) && f.sid in s.streams && NoPause(s)
    ensures var t := HandleEof(Took(s), f.sid, |f.payload|);
      Intact(t) && s.streams.Keys <= t.streams.Keys
  {
    hide Links.Inv, Half, SessInv, LinkOf, Run;
    ReaderHead(s, b, f);
    EofPayload(s.window, f.sid, LinkOf(b, s, f.sid));
    Reader.ReaderEnds(s.window, f.sid, LinkOf(b, s, f.sid));
    NothingHeld(s, b, f);
    EndIntact(s, f.sid);
  }

  lemma EndIntact(s: Sess, id: u16)
    requires Intact(s) && id in s.streams
    requires var st := s.streams[id]; !st.local && !st.finishedRecv && !st.paused && st.held == []
    ensures var t := HandleEof(Took(s), id, 0); Intact(t) && s.streams.Keys <= t.streams.Keys
  {
    var t, fs := HandleEof(Took(s), id, 0), CreditFrames(id, s.streams[id]);
    assert t.trace == s.trace + [Finished(id)];
    PutIntact(s, t, id, fs);
  }

  lemma WindowFrameIntact(s: Sess, sid: u16, payload: seq<byte>)
    requires Intact(s) && |payload| == 4 && (sid in s.streams ==> s.streams[sid].local)
    ensures var t := HandleWindow(Took(s), sid, payload); Intact(t) && s.streams.Keys <= t.streams.Keys
  {
    hide Grant, Rd32;
    if sid in s.streams {
      GrantIntact(Took(s), sid, Rd32(payload));
    }
  }

  lemma GrantIntact(s: Sess, sid: u16, n: u32)
    requires Intact(s) && sid in s.streams
    ensures Intact(Grant(s, sid, n)) && s.streams.Keys <= Grant(s, sid, n).streams.Keys
  {
    hide Add32, Intact;
    var st := s.streams[sid];
    var s1 := Put(s, sid, st.(sendWindow := Add32(st.sendWindow, n)));
    PutIntact(s, s1, sid, []);
    LoggedIntact(s1, Writable(sid));
  }

  lemma LoggedIntact(s: Sess, e: Event)
    requires Intact(s)
    ensures Intact(Log(s, e))
  {
  }

  lemma SettledIntact(s: Sess, k: u16, n: u32)
    requires Intact(s) && k in s.streams
    ensures var t := CreditConsume(s, k, n); Intact(t) && s.streams.Keys <= t.streams.Keys
  {
    var fs := Consumed(s.window, k, s.streams[k], n).1;
    PutIntact(s, CreditConsume(s, k, n), k, fs);
  }

  lemma ReturnIntact(s: Sess)
    requires Intact(s) && s.stack != [] && NoPause(s)
    ensures Intact(Return(s)) && s.streams.Keys <= Return(s).streams.Keys
  {
    hide CreditConsume;
    var p := s.stack[|s.stack| - 1];
    assert p.Delivering?;
    var s1 := s.(stack := s.stack[..|s.stack| - 1]);
    assert Intact(s1);
    if p.id in s.streams {
      SettledIntact(s1, p.id, p.n);
    }
  }

  lemma CloseIntact(s: Sess)
    requires Intact(s)
    ensures Intact(CloseSession(s)) && s.streams.Keys <= CloseSession(s).streams.Keys
  {
  }

  /** The frame the peer sent next is of a stream that is there, or opens one. */
  lemma HeadIsKnown(s: Sess, b: Sess, f: Frame)
    requires Incoming(s, b, f) && f.sid != 0 && !Own(s.role, f.sid) && Accepts(s, b)
    ensures f.kind != FRAME_OPEN ==> f.sid in s.streams
  {
    hide Links.Inv, Half, SessInv;
    ReaderHead(s, b, f);
    if f.kind != FRAME_OPEN {
      NotFirst(s.window, f.sid, LinkOf(b, s, f.sid));
    }
  }

  lemma NotFirst(W: u32, id: u16, L: Link)
    requires Links.Inv(W, id, L) && L.fwd != [] && L.fwd[0].kind != FRAME_OPEN
    ensures L.q != Unopened
  {
    Reader.TakenFacts(W, id, L);
  }

  lemma FrameIntact(s: Sess, b: Sess, f: Frame)
    requires Incoming(s, b, f) && Intact(s) && Intact(b) && Accepts(s, b) && NoPause(s) && |s.streams| < MAX_STREAMS
    ensures Encodable(f) && Intact(Receive(s, f)) && s.streams.Keys <= Receive(s, f).streams.Keys
    ensures f.kind == FRAME_OPEN ==> f.sid in Receive(s, f).streams
  {
    hide Links.Inv, LinkOf, Run, Half, Intact, NoPause, HandleOpen, HandleData, HandleEof, HandleReset, HandleWindow;
    assert Sized(f) && (f.sid == 0 <==> f.kind == FRAME_GOAWAY) && f in b.sent by { assert f in b.sent; }
    NoResetSent(b, f);
    if f.sid == 0 {
      GoawayIntact(s);
    } else if Own(s.role, f.sid) {
      OpenerHead(s, b, f);
      OwnStreams(s, f.sid);
      WindowFrameIntact(s, f.sid, f.payload);
    } else {
      ReaderHead(s, b, f);
      EofPayload(s.window, f.sid, LinkOf(b, s, f.sid));
      HeadIsKnown(s, b, f);
      if f.kind == FRAME_OPEN { OpenFrameIntact(s, b, f); }
      else if f.kind == FRAME_DATA { DataFrameIntact(s, b, f); }
      else { EofFrameIntact(s, b, f); }
    }
  }

  lemma NoResetSent(b: Sess, f: Frame)
    requires Intact(b) && f in b.sent
    ensures f.kind != FRAME_RESET
  {
  }

  lemma GoawayIntact(s: Sess)
    requires Intact(s)
    ensures Intact(HandleGoaway(Took(s)))
  {
  }

  lemma ConnectIntact(s: Sess)
    requires Intact(s)
    ensures Intact(Connect(s)) && Connect(s).streams == s.streams
  {
  }

  /** Whatever a session does by itself loses nothing. */
  lemma StepIntact(s: Sess, b: Sess, a: Act)
    requires Linked(s, b) && ActOk(s, b, a) && Lower(a) && NoPause(s)
    requires Intact(s) && Intact(b) && Accepts(s, b) && |s.streams| < MAX_STREAMS
    ensures Intact(Do(s, a)) && s.streams.Keys <= Do(s, a).streams.Keys
    ensures a.Recv? && a.frame.kind == FRAME_OPEN ==> a.frame.sid in Do(s, a).streams
  {
    hide Linked, Accepts, Intact, NoPause, Return, CloseSession, Receive, Connect;
    match a {
      case Recv(f) => FrameIntact(s, b, f);
      case Ret => ReturnIntact(s);
      case Up => ConnectIntact(s);
      case Api(_) => CloseIntact(s);
    }
  }

  /** A step takes on every stream it hears of. */
  lemma StepAccepts(s: Sess, b: Sess, a: Act)
    requires Linked(s, b) && ActOk(s, b, a) && Lower(a) && NoPause(s) && Linked(Do(s, a), b) && Do(s, a).role == s.role
    requires Intact(s) && Intact(b) && Accepts(s, b) && |s.streams| < MAX_STREAMS
    ensures Accepts(Do(s, a), b)
  {
    hide Intact, NoPause, Links.Inv, Half, SessInv, Do, Run;
    var t := Do(s, a);
    StepIntact(s, b, a);
    StepRcvd(s, a);
    forall id: u16 | id != 0 && !Own(s.role, id) && LinkOf(b, t, id).q != Unopened ensures id in t.streams {
      if LinkOf(b, s, id).q == Unopened {
        BecameKnown(s, b, a, id);
      }
    }
  }

  lemma StepRcvd(s: Sess, a: Act)
    requires Enabled(s, a) && Lower(a)
    ensures Do(s, a).rcvd == s.rcvd + if a.Recv? then 1 else 0
    ensures s.sent <= Do(s, a).sent
  {
    hide Receive, Apply, Return;
    match a
    case Recv(f) => Callbacks.ReceiveFrame(s, f);
    case Api(c) => Callbacks.ApplyFrame(s, c);
    case Ret => Callbacks.ReturnFrame(s);
    case Up =>
  }

  lemma BecameKnown(s: Sess, b: Sess, a: Act, id: u16)
    requires Linked(s, b) && ActOk(s, b, a) && Lower(a) && Joined(Do(s, a), b)
    requires Do(s, a).rcvd == s.rcvd + if a.Recv? then 1 else 0
    requires id != 0 && !Own(s.role, id) && LinkOf(b, s, id).q == Unopened && LinkOf(b, Do(s, a), id).q != Unopened
    ensures a.Recv? && a.frame.kind == FRAME_OPEN && a.frame.sid == id
  {
    hide Links.Inv, Half, SessInv, Do, Run, Linked;
    if a.Recv? {
      TakeFrames(b.sent, s.rcvd, id);
      if a.frame.sid == id {
        OnlyOpenIsFirst(s, b, a.frame);
      }
    }
  }

  lemma OnlyOpenIsFirst(s: Sess, b: Sess, f: Frame)
    requires Linked(s, b) && s.rcvd < |b.sent| && f == b.sent[s.rcvd] && s.stack == [] && f.sid != 0 && !Own(s.role, f.sid)
    requires LinkOf(b, s, f.sid).q == Unopened
    ensures f.kind == FRAME_OPEN
  {
    hide Links.Inv, Half, SessInv;
    ReaderHead(s, b, f);
    if f.kind != FRAME_OPEN {
      NotFirst(s.window, f.sid, LinkOf(b, s, f.sid));
    }
  }

  /** Frames the peer adds are not heard yet. */
  lemma AcceptsLater(s: Sess, b: Sess, b1: Sess)
    requires Joined(s, b) && Joined(s, b1) && b.sent <= b1.sent && Accepts(s, b)
    ensures Accepts(s, b1)
  {
    hide Run;
    assert b1.sent[..s.rcvd] == b.sent[..s.rcvd];
    forall id: u16 | id != 0 && !Own(s.role, id) && LinkOf(b1, s, id).q != Unopened ensures id in s.streams {
      assert LinkOf(b1, s, id).q == LinkOf(b, s, id).q;
    }
  }

  // ---- events come while the session is open ----------------------------------------

  lemma OpenStaysOpen(s: Sess, sid: u16, payload: seq<byte>)
    ensures HandleOpen(s, sid, payload).closing == s.closing
  {
    hide Rd16, Rd64;
    if sid == 0 || sid % 2 != PeerParity(s.role) {} else if |payload| != 10 {} else if sid in s.streams {}
    else if |s.streams| >= MAX_STREAMS {} else {}
  }

  lemma DataStaysOpen(s: Sess, sid: u16, payload: seq<byte>)
    requires |payload| < 0x1_0000
    ensures HandleData(s, sid, payload).closing == s.closing
  {
    if sid !in s.streams || s.streams[sid].reset {} else if s.streams[sid].local || s.streams[sid].finishedRecv {}
    else if s.streams[sid].recvOutstanding as int + |payload| > s.window {} else if s.streams[sid].paused {} else {}
  }

  lemma EofStaysOpen(s: Sess, sid: u16, plen: nat)
    ensures HandleEof(s, sid, plen).closing == s.closing
  {
    hide CreditFrames, Flushed;
    if plen != 0 {} else if sid !in s.streams || s.streams[sid].reset {}
    else if s.streams[sid].local || s.streams[sid].finishedRecv {}
    else {}
  }

  lemma GrantStaysOpen(s: Sess, sid: u16, n: u32)
    requires sid in s.streams
    ensures Grant(s, sid, n).closing == s.closing
  {
    hide Add32;
    var st := s.streams[sid];
    if !st.finishedSent && st.sendWindow == 0 && Add32(st.sendWindow, n) > 0 {} else {}
  }

  lemma ControlStaysOpen(s: Sess, sid: u16, payload: seq<byte>)
    ensures HandleReset(s, sid, payload).closing == s.closing && HandleWindow(s, sid, payload).closing == s.closing
  {
    hide Rd32, Grant;
    if |payload| != 4 {}
    else if sid !in s.streams || s.streams[sid].reset {}
    else if !s.streams[sid].local {}
    else { GrantStaysOpen(s, sid, Rd32(payload)); }
  }

  lemma FrameStaysOpen(s: Sess, f: Frame)
    requires Encodable(f)
    ensures Receive(s, f).closing == s.closing
  {
    hide HandleOpen, HandleData, HandleEof, HandleReset, HandleWindow;
    OpenStaysOpen(Took(s), f.sid, f.payload);
    DataStaysOpen(Took(s), f.sid, f.payload);
    EofStaysOpen(Took(s), f.sid, |f.payload|);
    ControlStaysOpen(Took(s), f.sid, f.payload);
  }

  /** Neither a closing session nor one that is being closed raises an event. */
  lemma RaisedWhileOpen(s: Sess, a: Act)
    requires Enabled(s, a) && Lower(a) && NoPause(s) && Do(s, a).trace != s.trace
    ensures !Do(s, a).closing
  {
    hide Receive, Return;
    match a
    case Recv(f) => FrameStaysOpen(s, f);
    case Ret => ReturnCarries(s);
    case Up =>
    case Api(_) =>
  }
}
