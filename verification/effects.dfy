/** What no step of a session does: shorten its trace, take back an id, or open a window without a WINDOW frame. */
module Effects {
  import opened Wire
  import opened Engine
  import opened System
  import opened Steps
  import opened Receiving

  /** No step from `s` to `t` opened the window of `id`. */
  ghost predicate Tame(s: Sess, t: Sess, id: u16) {
    && s.trace <= t.trace
    && Limit(s) <= Limit(t)
    && (id in t.streams && t.streams[id].local ==>
          && id in s.streams && s.streams[id].local
          && t.streams[id].sendWindow <= s.streams[id].sendWindow
          && (s.streams[id].reset ==> t.streams[id].reset)
          && (s.streams[id].finishedSent ==> t.streams[id].finishedSent))
  }

  /** A tame step that opens no stream, writes to none and resumes none re-entrantly. */
  ghost predicate Mild(s: Sess, t: Sess, id: u16) {
    Tame(s, t, id) && t.opens == s.opens && t.reentered == s.reentered && t.role == s.role && t.wrote == s.wrote
  }

  lemma DeliverFinishedIsMild(s: Sess, k: u16, id: u16)
    requires k in s.streams
    ensures Mild(s, DeliverFinished(s, k), id)
  {
  }

  lemma ErrorIsMild(s: Sess, code: Code, id: u16)
    ensures Mild(s, ProtocolError(s, code), id)
  {
    if s.error {} else {}
  }

  lemma HandleEofIsMild(s: Sess, sid: u16, plen: nat, id: u16)
    ensures Mild(s, HandleEof(s, sid, plen), id)
  {
    hide DeliverFinished, ProtocolError;
    ErrorIsMild(s, InvalidSize, id);
    ErrorIsMild(s, InvalidState, id);
    if plen != 0 {}
    else if sid !in s.streams || s.streams[sid].reset {}
    else if s.streams[sid].local || s.streams[sid].finishedRecv {}
    else {
      var s1 := Put(s, sid, s.streams[sid].(finishedRecv := true));
      DeliverFinishedIsMild(s1, sid, id);
      if !s.streams[sid].paused && s.streams[sid].held == [] {} else {}
    }
  }

  lemma SameIsMild(s: Sess, id: u16)
    ensures Mild(s, s, id)
  {
  }

  lemma EnqueueIsMild(s: Sess, fs: seq<Frame>, id: u16)
    ensures Mild(s, Enqueue(s, fs), id)
  {
  }

  /** Any change of a stream that leaves its writing side alone is mild. */
  lemma UpdateIsMild(s: Sess, t: Sess, k: u16, id: u16)
    requires t.opens == s.opens && t.reentered == s.reentered && t.role == s.role && t.wrote == s.wrote && s.trace <= t.trace
    requires k in t.streams && t.streams == s.streams[k := t.streams[k]]
    requires t.streams[k].local ==> k in s.streams && s.streams[k].local
    requires k in s.streams && k == id ==>
      && t.streams[k].sendWindow <= s.streams[k].sendWindow
      && (s.streams[k].reset ==> t.streams[k].reset)
      && (s.streams[k].finishedSent ==> t.streams[k].finishedSent)
    ensures Mild(s, t, id)
  {
  }

  lemma HandleDataIsMild(s: Sess, sid: u16, payload: seq<byte>, id: u16)
    requires |payload| < 0x1_0000
    ensures Mild(s, HandleData(s, sid, payload), id)
  {
    hide ProtocolError, Mild;
    ErrorIsMild(s, InvalidState, id);
    ErrorIsMild(s, InvalidSize, id);
    if sid !in s.streams || s.streams[sid].reset { SameIsMild(s, id); }
    else if s.streams[sid].local || s.streams[sid].finishedRecv {}
    else if s.streams[sid].recvOutstanding as int + |payload| > s.window {}
    else if s.streams[sid].paused { UpdateIsMild(s, HandleData(s, sid, payload), sid, id); }
    else { UpdateIsMild(s, HandleData(s, sid, payload), sid, id); }
  }

  lemma HandleOpenIsMild(s: Sess, sid: u16, payload: seq<byte>, id: u16)
    ensures Mild(s, HandleOpen(s, sid, payload), id)
  {
    hide ProtocolError, Mild;
    ErrorIsMild(s, InvalidArg, id);
    ErrorIsMild(s, InvalidSize, id);
    ErrorIsMild(s, InvalidState, id);
    if sid == 0 || sid % 2 != PeerParity(s.role) {}
    else if |payload| != 10 {}
    else if sid in s.streams {}
    else if |s.streams| >= MAX_STREAMS { EnqueueIsMild(s, [Frame(FRAME_RESET, sid, Wr32(ESP_ERR_NO_MEM))], id); }
    else { UpdateIsMild(s, HandleOpen(s, sid, payload), sid, id); }
  }

  lemma HandleResetIsMild(s: Sess, sid: u16, payload: seq<byte>, id: u16)
    ensures Mild(s, HandleReset(s, sid, payload), id)
  {
    hide ProtocolError, Mild;
    ErrorIsMild(s, InvalidSize, id);
    if |payload| != 4 {}
    else if sid !in s.streams || s.streams[sid].reset { SameIsMild(s, id); }
    else { UpdateIsMild(s, HandleReset(s, sid, payload), sid, id); }
  }

  lemma GrantIsMild(s: Sess, k: u16, n: u32, id: u16)
    requires k in s.streams
    ensures id != k ==> Mild(s, Grant(s, k, n), id)
    ensures var t := Grant(s, k, n);
      s.trace <= t.trace && t.opens == s.opens && t.reentered == s.reentered && t.role == s.role && t.wrote == s.wrote
  {
    hide Add32, Mild;
    var st := s.streams[k];
    if id != k { UpdateIsMild(s, Grant(s, k, n), k, id); }
    if !st.finishedSent && st.sendWindow == 0 && Add32(st.sendWindow, n) > 0 {} else {}
  }

  lemma HandleWindowIsMild(s: Sess, sid: u16, payload: seq<byte>, id: u16)
    ensures id != sid ==> Mild(s, HandleWindow(s, sid, payload), id)
    ensures var t := HandleWindow(s, sid, payload);
      s.trace <= t.trace && t.opens == s.opens && t.reentered == s.reentered && t.role == s.role && t.wrote == s.wrote
  {
    hide ProtocolError, Grant;
    ErrorIsMild(s, InvalidSize, id);
    ErrorIsMild(s, InvalidState, id);
    if |payload| != 4 {}
    else if sid !in s.streams || s.streams[sid].reset {}
    else if !s.streams[sid].local {}
    else { GrantIsMild(s, sid, Rd32(payload), id); }
  }

  lemma ReceiveIsMild(s: Sess, f: Frame, id: u16)
    requires Encodable(f)
    ensures !(f.kind == FRAME_WINDOW && f.sid == id) ==> Mild(s, Receive(s, f), id)
    ensures s.trace <= Receive(s, f).trace
    ensures Receive(s, f).opens == s.opens && Receive(s, f).reentered == s.reentered && Receive(s, f).wrote == s.wrote
  {
    hide HandleOpen, HandleData, HandleEof, HandleReset, HandleWindow, ProtocolError;
    var s1 := Took(s);
    if f.kind == FRAME_OPEN { HandleOpenIsMild(s1, f.sid, f.payload, id); }
    else if f.kind == FRAME_DATA { HandleDataIsMild(s1, f.sid, f.payload, id); }
    else if f.kind == FRAME_EOF { HandleEofIsMild(s1, f.sid, |f.payload|, id); }
    else if f.kind == FRAME_RESET { HandleResetIsMild(s1, f.sid, f.payload, id); }
    else if f.kind == FRAME_WINDOW { HandleWindowIsMild(s1, f.sid, f.payload, id); }
    else if f.kind == FRAME_GOAWAY {}
    else { ErrorIsMild(s1, NotSupported, id); }
  }

  lemma CreditConsumeIsMild(s: Sess, k: u16, n: u32, id: u16)
    requires k in s.streams
    ensures Mild(s, CreditConsume(s, k, n), id) && k in CreditConsume(s, k, n).streams
  {
  }

  lemma ReturnIsMild(s: Sess, id: u16)
    requires s.stack != []
    ensures Mild(s, Return(s), id)
  {
    hide CreditConsume, DeliverFinished;
    var p := s.stack[|s.stack| - 1];
    var s1 := s.(stack := s.stack[..|s.stack| - 1]);
    if p.id !in s.streams || s.streams[p.id].reset {}
    else if p.Delivering? {
      CreditConsumeIsMild(s1, p.id, p.n, id);
    } else {
      var s2 := Put(s1, p.id, s1.streams[p.id].(held := []));
      var s3 := CreditConsume(s2, p.id, p.n);
      CreditConsumeIsMild(s2, p.id, p.n, id);
      if s3.streams[p.id].finishedRecv {
        DeliverFinishedIsMild(s3, p.id, id);
      }
    }
  }

  lemma GiveHeldIsTame(s: Sess, k: u16, id: u16)
    requires k in s.streams
    ensures Tame(s, GiveHeld(s, k), id) && GiveHeld(s, k).opens == s.opens
    ensures GiveHeld(s, k).role == s.role && GiveHeld(s, k).wrote == s.wrote && (s.reentered ==> GiveHeld(s, k).reentered)
  {
  }

  lemma ResumeIsTame(s: Sess, k: u16, id: u16)
    requires k in s.streams
    ensures Tame(s, ResumeStream(s, k), id) && ResumeStream(s, k).opens == s.opens
    ensures ResumeStream(s, k).role == s.role && ResumeStream(s, k).wrote == s.wrote && (s.reentered ==> ResumeStream(s, k).reentered)
  {
    hide DeliverFinished, GiveHeld;
    var st := s.streams[k];
    var s1 := Put(s, k, st.(paused := false));
    if st.local || !st.paused {}
    else if |st.held| > 0 { GiveHeldIsTame(s1, k, id); }
    else if st.finishedRecv { DeliverFinishedIsMild(s1, k, id); }
    else {}
  }

  lemma ApplyMonotone(s: Sess, c: Call)
    requires Callable(s, c)
    ensures Within(Apply(s, c)) ==> Within(s)
  {
    hide ResumeStream;
    match c
    case Open(_) => if s.closing || s.error || |s.streams| >= MAX_STREAMS {} else {}
    case Resume(k) => ResumeIsTame(s, k, 0);
    case _ =>
  }

  lemma ActMonotone(s: Sess, a: Act)
    requires Enabled(s, a)
    ensures Within(Do(s, a)) ==> Within(s)
  {
    hide Apply, Receive, Return;
    match a
    case Api(c) => ApplyMonotone(s, c);
    case Recv(f) => ReceiveIsMild(s, f, 0);
    case Ret => ReturnIsMild(s, 0);
    case _ =>
  }

  lemma ReleaseIsTame(s: Sess, k: u16, id: u16)
    requires k in s.streams
    ensures Tame(s, ReleaseStream(s, k), id)
  {
    if OpenState(s.streams[k]) && !s.closing && !s.error {} else {}
  }

  lemma WriteIsTame(s: Sess, k: u16, data: seq<byte>, id: u16)
    requires k in s.streams
    ensures Tame(s, WriteStream(s, k, data), id)
  {
    hide Chunks;
    var st := s.streams[k];
    if !st.local || st.finishedSent || st.reset {} else {}
  }

  lemma OpenIsTame(s: Sess, o: Opts, id: u16)
    requires SessInv(s) && Within(OpenStream(s, o)) && id < Limit(s)
    ensures Tame(s, OpenStream(s, o), id)
  {
    hide SessInv;
    if s.closing || s.error || |s.streams| >= MAX_STREAMS {} else { OpenIsLocal(s, o); }
  }

  lemma ApplyIsTame(s: Sess, c: Call, id: u16)
    requires SessInv(s) && Callable(s, c) && Within(Apply(s, c)) && id < Limit(s)
    ensures Tame(s, Apply(s, c), id)
  {
    hide ResumeStream, SessInv, WriteStream, ReleaseStream, OpenStream;
    match c
    case Open(o) => OpenIsTame(s, o, id);
    case Write(k, data) => WriteIsTame(s, k, data, id);
    case Finish(k) => if !s.streams[k].local || s.streams[k].finishedSent || s.streams[k].reset {} else {}
    case Reset(k, _) => if s.streams[k].reset {} else {}
    case Pause(k) => if s.streams[k].local {} else {}
    case Resume(k) => ResumeIsTame(s, k, id);
    case Release(k) => ReleaseIsTame(s, k, id);
    case Close => if !s.goawaySent && !s.error {} else {}
  }

  lemma TameGrows(s: Sess, t: Sess, id: u16)
    requires Tame(s, t, id)
    ensures s.trace <= t.trace
  {
  }

  lemma ActTraceGrows(s: Sess, a: Act)
    requires Enabled(s, a)
    ensures s.trace <= Do(s, a).trace
  {
    hide Return, Receive, ResumeStream, ReleaseStream, WriteStream, OpenStream, Tame;
    match a
    case Ret => ReturnIsMild(s, 0); TameGrows(s, Return(s), 0);
    case Recv(f) => ReceiveIsMild(s, f, 0);
    case Api(Resume(id)) => ResumeIsTame(s, id, 0); TameGrows(s, ResumeStream(s, id), 0);
    case Api(Release(id)) => ReleaseIsTame(s, id, 0); TameGrows(s, ReleaseStream(s, id), 0);
    case Api(Write(id, data)) => WriteIsTame(s, id, data, 0); TameGrows(s, WriteStream(s, id, data), 0);
    case Api(Open(o)) => OpenTraceGrows(s, o);
    case Api(c) => OthersAreSilent(s, c);
    case _ =>
  }

  lemma OthersAreSilent(s: Sess, c: Call)
    requires Callable(s, c) && (c.Finish? || c.Reset? || c.Pause? || c.Close?)
    ensures Apply(s, c).trace == s.trace
  {
    match c
    case Finish(id) => if !s.streams[id].local || s.streams[id].finishedSent || s.streams[id].reset {} else {}
    case Reset(id, _) => if s.streams[id].reset {} else {}
    case Pause(id) => if s.streams[id].local {} else {}
    case Close => if !s.goawaySent && !s.error {} else {}
  }

  lemma OpenTraceGrows(s: Sess, o: Opts)
    ensures OpenStream(s, o).trace == s.trace
  {
  }
}
