/** Processing the peer's next frame keeps `System.Linked`, whatever the frame. */
module Receiving {
  import opened Options
  import opened Wire
  import opened Engine
  import opened Links
  import opened Reader
  import opened System
  import opened Steps

  function Took(s: Sess): Sess {
    s.(rcvd := s.rcvd + 1)
  }

  /** Taking a frame off the channel leaves the links of the other streams alone, */
  lemma TakeOthers(s: Sess, b: Sess, k: u16)
    requires Joined(s, b) && s.rcvd < |b.sent| && b.sent[s.rcvd].sid != k
    ensures LinkOf(b, Took(s), k) == LinkOf(b, s, k) && LinkOf(Took(s), b, k) == LinkOf(s, b, k)
  {
    TakeFrames(b.sent, s.rcvd, k);
  }

  /** and moves it out of the link of its own. */
  lemma TakeOwn(s: Sess, b: Sess)
    requires Joined(s, b) && s.rcvd < |b.sent|
    ensures var f := b.sent[s.rcvd];
      var rd, op := LinkOf(b, s, f.sid), LinkOf(s, b, f.sid);
      && rd.fwd != [] && rd.fwd[0] == f && LinkOf(b, Took(s), f.sid) == Taken(rd)
      && op.bwd != [] && op.bwd[0] == f && LinkOf(Took(s), b, f.sid) == op.(bwd := op.bwd[1..])
  {
    TakeFrames(b.sent, s.rcvd, b.sent[s.rcvd].sid);
  }

  lemma TakeFrames(sent: seq<Frame>, r: nat, k: u16)
    requires r < |sent|
    ensures if sent[r].sid == k
            then Of(sent[r..], k) == [sent[r]] + Of(sent[r + 1..], k)
                 && Run(Unopened, Of(sent[..r + 1], k)) == Next(Run(Unopened, Of(sent[..r], k)), sent[r])
            else Of(sent[r..], k) == Of(sent[r + 1..], k) && Of(sent[..r + 1], k) == Of(sent[..r], k)
  {
    var f := sent[r];
    assert sent[r..][1..] == sent[r + 1..];
    assert sent[..r + 1] == sent[..r] + [f];
    OfAppend(sent[..r], [f], k);
    OfOwn([f], k);
    if f.sid == k {
      RunOne(Unopened, Of(sent[..r], k), f);
    }
  }

  ghost predicate Incoming(s: Sess, b: Sess, f: Frame) {
    Linked(s, b) && s.rcvd < |b.sent| && f == b.sent[s.rcvd] && s.stack == []
  }

  lemma ReaderHead(s: Sess, b: Sess, f: Frame)
    requires Incoming(s, b, f) && f.sid != 0 && !Own(s.role, f.sid)
    ensures var L := LinkOf(b, s, f.sid);
      && Links.Inv(s.window, f.sid, L)
      && L.rx == Lookup(s.streams, f.sid) && L.pend == [] == PendsOf(s.stack, f.sid)
      && L.fwd != [] && L.fwd[0] == f
      && LinkOf(b, Took(s), f.sid) == Taken(L)
  {
    ReaderInv(s, b, f.sid);
    TakeOwn(s, b);
  }

  lemma OpenerHead(s: Sess, b: Sess, f: Frame)
    requires Incoming(s, b, f) && Own(s.role, f.sid)
    ensures var L := LinkOf(s, b, f.sid);
      && Links.Inv(s.window, f.sid, L)
      && L.tx == Lookup(s.streams, f.sid)
      && L.bwd != [] && L.bwd[0] == f && BwdOk(f)
      && LinkOf(Took(s), b, f.sid) == L.(bwd := L.bwd[1..])
      && f.sid < Limit(s)
  {
    OpenerInv(s, b, f.sid);
    TakeOwn(s, b);
    var L := LinkOf(s, b, f.sid);
    assert f in L.bwd;
    if EndPhase(L) == Unopened {
      StillUnopened(L.q, L.fwd);
    }
  }

  /** A frame handled on its own stream keeps the whole if it keeps that stream. */
  lemma TakenStep(s: Sess, t: Sess, b: Sess, f: Frame, fs: seq<Frame>, es: seq<Event>)
    requires Incoming(s, b, f) && Local(Took(s), t, f.sid, fs, es) && SessInv(t) && t.opens == s.opens
    requires HalfAt(t, b, f.sid) && HalfAt(b, t, f.sid)
    ensures Linked(t, b)
  {
    hide Links.Inv, LinkOf, EndPhase, SessInv, Own;
    forall k: u16 ensures HalfAt(t, b, k) && HalfAt(b, t, k) {
      if k != f.sid {
        TakeOthers(s, b, k);
        OtherLinks(Took(s), t, b, f.sid, fs, es, k);
        assert HalfAt(s, b, k) && HalfAt(b, s, k);
      }
    }
  }

  lemma TakenReaderStep(s: Sess, t: Sess, b: Sess, f: Frame, fs: seq<Frame>, es: seq<Event>)
    requires Incoming(s, b, f) && Local(Took(s), t, f.sid, fs, es) && Clean(Took(s), t, f.sid, fs)
    requires f.sid != 0 && !Own(s.role, f.sid)
    requires Links.Inv(s.window, f.sid, LinkOf(b, t, f.sid))
    ensures Linked(t, b)
  {
    hide Links.Inv, SessInv, Local, Run, LinkOf;
    var id := f.sid;
    TakenSess(s, t, f, fs, es);
    var L := LinkOf(b, s, id);
    ReaderInv(s, b, id);
    ReaderHead(s, b, f);
    OwnLink(Took(s), t, b, id, fs, es);
    SamePhase(s.window, id, L);
    TakenStep(s, t, b, f, fs, es);
  }

  lemma TakenSess(s: Sess, t: Sess, f: Frame, fs: seq<Frame>, es: seq<Event>)
    requires SessInv(s) && Local(Took(s), t, f.sid, fs, es) && Clean(Took(s), t, f.sid, fs) && f.sid != 0
    ensures SessInv(t) && t.role == s.role && t.window == s.window && t.opens == s.opens
  {
    StillSess(Took(s), t, f.sid, fs, es);
  }

  lemma SamePhase(W: u32, id: u16, L: Link)
    requires Links.Inv(W, id, L) && L.fwd != []
    ensures EndPhase(Taken(L)) == EndPhase(L)
  {
  }

  lemma TakenOpenerStep(s: Sess, t: Sess, b: Sess, f: Frame, es: seq<Event>)
    requires Incoming(s, b, f) && Local(Took(s), t, f.sid, [], es) && Clean(Took(s), t, f.sid, [])
    requires Own(s.role, f.sid)
    requires Links.Inv(s.window, f.sid, LinkOf(t, b, f.sid))
    ensures Linked(t, b)
  {
    hide Links.Inv, SessInv, Local, Run, LinkOf;
    TakenSess(s, t, f, [], es);
    OpenerInv(s, b, f.sid);
    OpenerHead(s, b, f);
    var L := LinkOf(s, b, f.sid);
    OwnLink(Took(s), t, b, f.sid, [], es);
    assert L.fwd + [] == L.fwd;
    TakenStep(s, t, b, f, [], es);
  }

  // ---- the handlers -------------------------------------------------------

  lemma RecvOpenIsLocal(s: Sess, f: Frame) returns (fs: seq<Frame>, es: seq<Event>)
    requires SessInv(s) && f.sid != 0 && !Own(s.role, f.sid)
    requires |f.payload| == 10 && f.sid !in s.streams
    ensures var t := HandleOpen(Took(s), f.sid, f.payload);
      && Clean(Took(s), t, f.sid, fs) && Local(Took(s), t, f.sid, fs, es) && t.stack == s.stack
      && (if |s.streams| >= MAX_STREAMS
          then fs == [Frame(FRAME_RESET, f.sid, Wr32(ESP_ERR_NO_MEM))] && es == [] && f.sid !in t.streams
          else fs == [] && es == [Opened(f.sid, Opts(Rd16(f.payload[..2]), Rd64(f.payload[2..])))]
               && Lookup(t.streams, f.sid) == Some(NewStream(false, 0)))
  {
    var t := HandleOpen(Took(s), f.sid, f.payload);
    if |s.streams| >= MAX_STREAMS {
      fs, es := [Frame(FRAME_RESET, f.sid, Wr32(ESP_ERR_NO_MEM))], [];
      assert t.trace == s.trace + [];
    } else {
      fs, es := [], [Opened(f.sid, Opts(Rd16(f.payload[..2]), Rd64(f.payload[2..])))];
      assert t.sent == s.sent + [];
    }
  }

  lemma RecvOpenKeeps(s: Sess, b: Sess, f: Frame)
    requires Incoming(s, b, f) && f.sid != 0 && !Own(s.role, f.sid) && f.kind == FRAME_OPEN
    ensures Linked(HandleOpen(Took(s), f.sid, f.payload), b)
  {
    hide Links.Inv, LinkOf, Run, Half, SessInv, Local, Clean, Own, HandleOpen;
    var t := HandleOpen(Took(s), f.sid, f.payload);
    var L := LinkOf(b, s, f.sid);
    ReaderHead(s, b, f);
    OpenPayload(s.window, f.sid, L);
    var fs, es := RecvOpenIsLocal(s, f);
    OwnLink(Took(s), t, b, f.sid, fs, es);
    if |s.streams| >= MAX_STREAMS {
      ReaderRefusesOpen(s.window, f.sid, L, Wr32(ESP_ERR_NO_MEM));
      assert L.evs + [] == L.evs;
    } else {
      ReaderAcceptsOpen(s.window, f.sid, L);
      assert L.bwd + [] == L.bwd;
    }
    TakenReaderStep(s, t, b, f, fs, es);
  }

  lemma OpenPayload(W: u32, id: u16, L: Link)
    requires Links.Inv(W, id, L) && L.fwd != [] && L.fwd[0].kind == FRAME_OPEN
    ensures L.rx.None? && L.opts.Some?
    ensures var p := L.fwd[0].payload; |p| == 10 && Opts(Rd16(p[..2]), Rd64(p[2..])) == L.opts.value
  {
    TakenFacts(W, id, L);
    var o, p := L.opts.value, L.fwd[0].payload;
    assert p[..2] == Wr16(o.kind) && p[2..] == Wr64(o.hint);
    Rd64Wr64(o.hint);
  }

  lemma DropKeeps(s: Sess, b: Sess, f: Frame)
    requires Incoming(s, b, f) && f.sid != 0 && !Own(s.role, f.sid) && f.kind != FRAME_OPEN
    requires f.sid in s.streams ==> s.streams[f.sid].reset
    ensures Linked(Took(s), b)
  {
    hide Links.Inv, LinkOf, Run, Half, HalfAt, PendsOf;
    var L := LinkOf(b, s, f.sid);
    ReaderHead(s, b, f);
    var t := Took(s);
    assert t.sent == s.sent + [] && t.trace == s.trace + [];
    ReaderDrops(s.window, f.sid, L);
    assert L.bwd + [] == L.bwd && L.evs + [] == L.evs;
    TakenReaderStep(s, t, b, f, [], []);
  }

  lemma ChangedIsLocal(s: Sess, t: Sess, id: u16, es: seq<Event>)
    requires SessInv(s) && id in s.streams && id in t.streams && t.streams[id].local == s.streams[id].local
    requires t == Took(s).(streams := s.streams[id := t.streams[id]], trace := s.trace + es) && (forall e <- es :: About(e, id))
    ensures Clean(Took(s), t, id, []) && Local(Took(s), t, id, [], es)
  {
    assert s.sent + [] == s.sent;
  }

  lemma RecvDataIsLocal(s: Sess, f: Frame) returns (es: seq<Event>)
    requires SessInv(s) && f.sid != 0 && !Own(s.role, f.sid) && s.stack == []
    requires |f.payload| <= MAX_FRAME_PAYLOAD && f.sid in s.streams
    requires var st := s.streams[f.sid];
      !st.reset && !st.local && !st.finishedRecv && st.recvOutstanding as int + |f.payload| <= s.window
    ensures var t, st := HandleData(Took(s), f.sid, f.payload), s.streams[f.sid];
      var st1 := st.(recvOutstanding := st.recvOutstanding as int + |f.payload|);
      && Clean(Took(s), t, f.sid, []) && Local(Took(s), t, f.sid, [], es)
      && (if st.paused
          then es == [] && Lookup(t.streams, f.sid) == Some(st1.(held := st.held + f.payload)) && PendsOf(t.stack, f.sid) == []
          else es == [Data(f.sid, f.payload)] && Lookup(t.streams, f.sid) == Some(st1)
               && PendsOf(t.stack, f.sid) == [Delivering(f.sid, |f.payload|)])
  {
    hide Clean, Local, PendsOf;
    var t := HandleData(Took(s), f.sid, f.payload);
    if s.streams[f.sid].paused {
      es := [];
      assert s.trace + es == s.trace;
      ChangedIsLocal(s, t, f.sid, es);
      NoPends(f.sid);
    } else {
      es := [Data(f.sid, f.payload)];
      HandedIsLocal(s, t, f.sid, es, Delivering(f.sid, |f.payload|));
    }
  }

  lemma NoPends(id: u16)
    ensures PendsOf([], id) == []
  {
  }

  /** The data goes to a callback that starts to run. */
  lemma HandedIsLocal(s: Sess, t: Sess, id: u16, es: seq<Event>, p: Pend)
    requires SessInv(s) && s.stack == [] && id != 0 && !Own(s.role, id) && p.id == id
    requires id in s.streams && id in t.streams && t.streams[id].local == s.streams[id].local
    requires t == Took(s).(streams := s.streams[id := t.streams[id]], trace := s.trace + es, stack := [p])
    requires forall e <- es :: About(e, id)
    ensures Clean(Took(s), t, id, []) && Local(Took(s), t, id, [], es) && PendsOf(t.stack, id) == [p]
  {
    assert s.sent + [] == s.sent;
    assert t.stack[1..] == [];
  }

  lemma StillJoined(s: Sess, t: Sess, b: Sess, f: Frame, es: seq<Event>)
    requires Incoming(s, b, f) && Local(Took(s), t, f.sid, [], es)
    ensures Joined(t, b)
  {
    hide Half, SessInv;
  }

  /** DATA on a live stream, in whichever way it is taken: held back or handed over. */
  lemma LiveDataKeeps(s: Sess, b: Sess, f: Frame)
    requires Incoming(s, b, f) && f.sid != 0 && !Own(s.role, f.sid) && f.kind == FRAME_DATA && Sized(f)
    requires f.sid in s.streams && !s.streams[f.sid].reset
    ensures Linked(HandleData(Took(s), f.sid, f.payload), b)
  {
    hide Links.Inv, LinkOf, Run, Half, SessInv, Local, Clean, Own, HandleData, PendsOf;
    var t := HandleData(Took(s), f.sid, f.payload);
    var L := LinkOf(b, s, f.sid);
    ReaderHead(s, b, f);
    DataIsWelcome(s.window, f.sid, L);
    var es := RecvDataIsLocal(s, f);
    OwnLink(Took(s), t, b, f.sid, [], es);
    StillJoined(s, t, b, f, es);
    assert L.bwd + [] == L.bwd && L.evs + [] == L.evs;
    assert Links.Inv(s.window, f.sid, LinkOf(b, t, f.sid)) by {
      if s.streams[f.sid].paused {
        ReaderHolds(s.window, f.sid, L);
      } else {
        ReaderDelivers(s.window, f.sid, L);
      }
    }
    TakenReaderStep(s, t, b, f, [], es);
  }

  lemma RecvDataKeeps(s: Sess, b: Sess, f: Frame)
    requires Incoming(s, b, f) && f.sid != 0 && !Own(s.role, f.sid) && f.kind == FRAME_DATA && Sized(f)
    ensures Linked(HandleData(Took(s), f.sid, f.payload), b)
  {
    hide Linked;
    if f.sid !in s.streams || s.streams[f.sid].reset {
      DropKeeps(s, b, f);
    } else {
      LiveDataKeeps(s, b, f);
    }
  }

  /** EOF is noted first, and reported once nothing is held back. */
  lemma RecvEofKeeps(s: Sess, b: Sess, f: Frame)
    requires Incoming(s, b, f) && f.sid != 0 && !Own(s.role, f.sid) && f.kind == FRAME_EOF
    ensures Linked(HandleEof(Took(s), f.sid, |f.payload|), b)
  {
    hide Links.Inv, LinkOf, Run, Half, HalfAt, PendsOf;
    var L := LinkOf(b, s, f.sid);
    ReaderHead(s, b, f);
    EofPayload(s.window, f.sid, L);
    if f.sid !in s.streams || s.streams[f.sid].reset {
      DropKeeps(s, b, f);
    } else {
      var st := s.streams[f.sid];
      ReaderEnds(s.window, f.sid, L);
      var t := Put(Took(s), f.sid, st.(finishedRecv := true));
      assert t.sent == s.sent + [] && t.trace == s.trace + [];
      OwnLink(Took(s), t, b, f.sid, [], []);
      assert L.bwd + [] == L.bwd && L.evs + [] == L.evs;
      TakenReaderStep(s, t, b, f, [], []);
      if !st.paused && st.held == [] {
        DeliverFinishedKeeps(t, b, f.sid);
      }
    }
  }

  lemma EofPayload(W: u32, id: u16, L: Link)
    requires Links.Inv(W, id, L) && L.fwd != []
    ensures L.fwd[0].kind == FRAME_EOF ==> L.fwd[0].payload == []
    ensures L.fwd[0].kind == FRAME_RESET ==> |L.fwd[0].payload| == 4
    ensures L.fwd[0].kind in {FRAME_OPEN, FRAME_DATA, FRAME_EOF, FRAME_RESET}
  {
    TakenFacts(W, id, L);
  }

  lemma ReaderRecvResetKeeps(s: Sess, b: Sess, f: Frame)
    requires Incoming(s, b, f) && f.sid != 0 && !Own(s.role, f.sid) && f.kind == FRAME_RESET
    ensures Linked(HandleReset(Took(s), f.sid, f.payload), b)
  {
    hide Links.Inv, LinkOf, Run, Half, HalfAt, PendsOf;
    var L := LinkOf(b, s, f.sid);
    ReaderHead(s, b, f);
    EofPayload(s.window, f.sid, L);
    if f.sid !in s.streams || s.streams[f.sid].reset {
      DropKeeps(s, b, f);
    } else {
      var t := HandleReset(Took(s), f.sid, f.payload);
      var es := [WasReset(f.sid, Rd32(f.payload))];
      assert t.sent == s.sent + [];
      OwnLink(Took(s), t, b, f.sid, [], es);
      ReaderGetsReset(s.window, f.sid, L, Rd32(f.payload));
      assert L.bwd + [] == L.bwd;
      TakenReaderStep(s, t, b, f, [], es);
    }
  }

  /** The opener's stream after a RESET or a WINDOW frame of its own. */
  ghost function AfterControl(st: Stream, f: Frame): Stream
    requires |f.payload| == 4
  {
    if f.kind == FRAME_RESET then st.(reset := true) else st.(sendWindow := Add32(st.sendWindow, Rd32(f.payload)))
  }

  lemma GoneIsLocal(s: Sess, f: Frame)
    requires SessInv(s) && f.sid != 0 && (f.sid in s.streams ==> s.streams[f.sid].reset) && |f.payload| == 4
    ensures HandleReset(Took(s), f.sid, f.payload) == HandleWindow(Took(s), f.sid, f.payload) == Took(s)
    ensures Clean(Took(s), Took(s), f.sid, []) && Local(Took(s), Took(s), f.sid, [], [])
  {
    assert s.sent + [] == s.sent && s.trace + [] == s.trace;
  }

  lemma OpenerRecvIsLocal(s: Sess, f: Frame) returns (es: seq<Event>)
    requires SessInv(s) && Own(s.role, f.sid) && |f.payload| == 4
    requires f.kind == FRAME_RESET || f.kind == FRAME_WINDOW
    ensures var t := if f.kind == FRAME_RESET then HandleReset(Took(s), f.sid, f.payload)
                     else HandleWindow(Took(s), f.sid, f.payload);
      && Clean(Took(s), t, f.sid, []) && Local(Took(s), t, f.sid, [], es) && t.opts == s.opts && t.wrote == s.wrote
      && (if f.sid in s.streams && !s.streams[f.sid].reset
          then Lookup(t.streams, f.sid) == Some(AfterControl(s.streams[f.sid], f))
          else t == Took(s))
  {
    hide Add32, Clean, Local;
    if f.sid !in s.streams || s.streams[f.sid].reset {
      GoneIsLocal(s, f);
      return [];
    }
    var st := s.streams[f.sid];
    if f.kind == FRAME_RESET {
      es := [WasReset(f.sid, Rd32(f.payload))];
      ChangedIsLocal(s, HandleReset(Took(s), f.sid, f.payload), f.sid, es);
    } else {
      es := if !st.finishedSent && st.sendWindow == 0 && Add32(st.sendWindow, Rd32(f.payload)) > 0 then [Writable(f.sid)] else [];
      assert es == [] ==> s.trace + es == s.trace;
      ChangedIsLocal(s, HandleWindow(Took(s), f.sid, f.payload), f.sid, es);
    }
  }

  lemma OpenerRecvKeeps(s: Sess, b: Sess, f: Frame)
    requires Incoming(s, b, f) && Own(s.role, f.sid) && (f.kind == FRAME_RESET || f.kind == FRAME_WINDOW)
    ensures f.kind == FRAME_RESET ==> Linked(HandleReset(Took(s), f.sid, f.payload), b)
    ensures f.kind == FRAME_WINDOW ==> Linked(HandleWindow(Took(s), f.sid, f.payload), b)
  {
    hide Links.Inv, LinkOf, Run, Half, SessInv, Local, Clean, Own, HandleReset, HandleWindow;
    var L := LinkOf(s, b, f.sid);
    OpenerInv(s, b, f.sid);
    OpenerHead(s, b, f);
    var t := if f.kind == FRAME_RESET then HandleReset(Took(s), f.sid, f.payload)
             else HandleWindow(Took(s), f.sid, f.payload);
    var es := OpenerRecvIsLocal(s, f);
    OwnLink(Took(s), t, b, f.sid, [], es);
    assert L.fwd + [] == L.fwd;
    if f.kind == FRAME_RESET {
      OpenerGetsReset(s.window, f.sid, L);
    } else {
      OpenerGetsWindow(s.window, f.sid, L);
    }
    TakenOpenerStep(s, t, b, f, es);
  }

  lemma RecvGoawayKeeps(s: Sess, b: Sess, f: Frame)
    requires Incoming(s, b, f) && f.kind == FRAME_GOAWAY
    ensures Linked(HandleGoaway(Took(s)), b)
  {
    hide Links.Inv, Run;
    var t := Took(s);
    assert f.sid == 0;
    assert t.sent == s.sent + [] && t.trace == s.trace + [];
    assert Local(Took(s), t, 0, [], []);
    TakenStep(s, t, b, f, [], []);
    var u := HandleGoaway(t);
    assert u.trace == t.trace + [Disconnected];
    SilentStep(t, u, b);
  }

  lemma ReceiveKeeps(s: Sess, b: Sess, f: Frame)
    requires Incoming(s, b, f)
    ensures Encodable(f)
    ensures Linked(Receive(s, f), b)
  {
    hide Links.Inv, LinkOf, Run, Half, HalfAt, PendsOf;
    assert Sized(f) && (f.sid == 0 <==> f.kind == FRAME_GOAWAY) by { assert f in b.sent; }
    if f.sid == 0 {
      RecvGoawayKeeps(s, b, f);
    } else if Own(s.role, f.sid) {
      OpenerHead(s, b, f);
      OpenerRecvKeeps(s, b, f);
    } else {
      ReaderHead(s, b, f);
      EofPayload(s.window, f.sid, LinkOf(b, s, f.sid));
      if f.kind == FRAME_OPEN {
        RecvOpenKeeps(s, b, f);
      } else if f.kind == FRAME_DATA {
        RecvDataKeeps(s, b, f);
      } else if f.kind == FRAME_EOF {
        RecvEofKeeps(s, b, f);
      } else {
        ReaderRecvResetKeeps(s, b, f);
      }
    }
  }
}
