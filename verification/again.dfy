/**
 What an application may be told more than once: the end of a stream, and the bytes a stream held back while it was
 paused. Both go by `resume`, and both are counted here over whole runs.
 */
module Again {
  import opened Wire
  import opened Engine
  import opened Links
  import opened System
  import opened Receiving
  import opened Effects
  import opened Guarantees

  // ---- how often the end was reported ---------------------------------------------

  /** How often the end of stream `id` is reported in `es`. */
  ghost function Ends(es: seq<Event>, id: u16): nat {
    if es == [] then 0 else (if es[0] == Finished(id) then 1 else 0) + Ends(es[1..], id)
  }

  lemma {:induction false} EndsOne(es: seq<Event>, e: Event, id: u16)
    ensures Ends(es + [e], id) == Ends(es, id) + if e == Finished(id) then 1 else 0
  {
    if es == [] {
      assert [e][1..] == [];
      assert es + [e] == [e];
    } else {
      assert (es + [e])[1..] == es[1..] + [e];
      EndsOne(es[1..], e, id);
    }
  }

  lemma {:induction false} EndsSome(es: seq<Event>, id: u16)
    ensures Ends(es, id) > 0 <==> Finished(id) in es
  {
    if es != [] {
      EndsSome(es[1..], id);
    }
  }

  /** The three steps that report the end of stream `id`: its EOF, a resume with nothing held back, and the return of a resume. */
  ghost predicate ReportsEnd(s: Sess, a: Act, id: u16)
    requires Enabled(s, a)
  {
    id in s.streams && !s.streams[id].local &&
    var st := s.streams[id];
    match a
    case Recv(f) =>
      f.kind == FRAME_EOF && f.sid == id && f.payload == [] && !st.reset && !st.finishedRecv && !st.paused && st.held == []
    case Api(c) => c == Resume(id) && st.paused && st.held == [] && st.finishedRecv
    case Ret => var p := s.stack[|s.stack| - 1]; p.Resuming? && p.id == id && !st.reset && st.finishedRecv
    case _ => false
  }

  lemma SameTraceEnds(s: Sess, t: Sess, id: u16)
    requires t.trace == s.trace || exists e :: t.trace == s.trace + [e] && e != Finished(id)
    ensures Ends(t.trace, id) == Ends(s.trace, id)
  {
    if t.trace != s.trace {
      var e :| t.trace == s.trace + [e] && e != Finished(id);
      EndsOne(s.trace, e, id);
    }
  }

  lemma DeliverFinishedEnds(s: Sess, k: u16, id: u16)
    requires k in s.streams
    ensures Ends(DeliverFinished(s, k).trace, id) == Ends(s.trace, id) + if k == id then 1 else 0
  {
    EndsOne(s.trace, Finished(k), id);
  }

  lemma EofEnds(s: Sess, sid: u16, plen: nat, id: u16)
    ensures Ends(HandleEof(s, sid, plen).trace, id) == Ends(s.trace, id) +
      if sid == id && plen == 0 && id in s.streams
         && !s.streams[id].reset && !s.streams[id].local && !s.streams[id].finishedRecv && !s.streams[id].paused && s.streams[id].held == []
      then 1 else 0
  {
    hide DeliverFinished;
    if plen != 0 { SameTraceEnds(s, HandleEof(s, sid, plen), id); }
    else if sid !in s.streams || s.streams[sid].reset {}
    else if s.streams[sid].local || s.streams[sid].finishedRecv { SameTraceEnds(s, HandleEof(s, sid, plen), id); }
    else {
      var s1 := Put(s, sid, s.streams[sid].(finishedRecv := true));
      DeliverFinishedEnds(s1, sid, id);
      if !s.streams[sid].paused && s.streams[sid].held == [] {} else {}
    }
  }

  lemma ErrorEnds(s: Sess, code: Code, id: u16)
    ensures Ends(ProtocolError(s, code).trace, id) == Ends(s.trace, id)
  {
    EndsOne(s.trace, Failed(code), id);
  }

  lemma OpenEnds(s: Sess, sid: u16, payload: seq<byte>, id: u16)
    ensures Ends(HandleOpen(s, sid, payload).trace, id) == Ends(s.trace, id)
  {
    hide Ends, ProtocolError;
    ErrorEnds(s, InvalidArg, id);
    ErrorEnds(s, InvalidSize, id);
    ErrorEnds(s, InvalidState, id);
    if sid == 0 || sid % 2 != PeerParity(s.role) {}
    else if |payload| != 10 {}
    else if sid in s.streams {}
    else if |s.streams| >= MAX_STREAMS {}
    else { EndsOne(s.trace, Opened(sid, Opts(Rd16(payload[..2]), Rd64(payload[2..]))), id); }
  }

  lemma DataEnds(s: Sess, sid: u16, payload: seq<byte>, id: u16)
    requires |payload| < 0x1_0000
    ensures Ends(HandleData(s, sid, payload).trace, id) == Ends(s.trace, id)
  {
    EndsOne(s.trace, Data(sid, payload), id);
    if sid !in s.streams || s.streams[sid].reset {}
    else if s.streams[sid].local || s.streams[sid].finishedRecv { ErrorEnds(s, InvalidState, id); }
    else if s.streams[sid].recvOutstanding as int + |payload| > s.window { ErrorEnds(s, InvalidSize, id); }
    else if s.streams[sid].paused {}
    else {}
  }

  lemma ControlEnds(s: Sess, sid: u16, payload: seq<byte>, id: u16)
    ensures Ends(HandleReset(s, sid, payload).trace, id) == Ends(s.trace, id)
    ensures Ends(HandleWindow(s, sid, payload).trace, id) == Ends(s.trace, id)
  {
    hide Add32, ProtocolError, Ends;
    ErrorEnds(s, InvalidSize, id);
    ErrorEnds(s, InvalidState, id);
    EndsOne(s.trace, Writable(sid), id);
    if |payload| != 4 {}
    else if sid !in s.streams || s.streams[sid].reset {}
    else {
      EndsOne(s.trace, WasReset(sid, Rd32(payload)), id);
      if !s.streams[sid].local {} else {}
    }
  }

  lemma GoawayEnds(s: Sess, id: u16)
    ensures Ends(HandleGoaway(s).trace, id) == Ends(s.trace, id)
  {
    EndsOne(s.trace, Disconnected, id);
  }

  lemma OtherFramesEnd(s: Sess, f: Frame, id: u16)
    requires Encodable(f) && f.kind != FRAME_EOF
    ensures Ends(Receive(s, f).trace, id) == Ends(s.trace, id)
  {
    hide HandleOpen, HandleData, HandleEof, HandleReset, HandleWindow, HandleGoaway, ProtocolError, Ends;
    if f.kind == FRAME_OPEN { OpenEnds(Took(s), f.sid, f.payload, id); }
    else if f.kind == FRAME_DATA { DataEnds(Took(s), f.sid, f.payload, id); }
    else if f.kind == FRAME_RESET { ControlEnds(Took(s), f.sid, f.payload, id); }
    else if f.kind == FRAME_WINDOW { ControlEnds(Took(s), f.sid, f.payload, id); }
    else if f.kind == FRAME_GOAWAY { GoawayEnds(Took(s), id); }
    else { ErrorEnds(Took(s), NotSupported, id); }
  }

  lemma ResumeEnds(s: Sess, k: u16, id: u16)
    requires k in s.streams
    ensures Ends(ResumeStream(s, k).trace, id) == Ends(s.trace, id) +
      if k == id && !s.streams[id].local && s.streams[id].paused && s.streams[id].held == [] && s.streams[id].finishedRecv then 1 else 0
  {
    hide DeliverFinished;
    var s1 := Put(s, k, s.streams[k].(paused := false));
    if s.streams[k].local || !s.streams[k].paused {}
    else if |s.streams[k].held| > 0 {
      SameTraceEnds(s, ResumeStream(s, k), id);
    } else if s.streams[k].finishedRecv {
      DeliverFinishedEnds(s1, k, id);
    } else {}
  }

  lemma ReturnEnds(s: Sess, id: u16)
    requires s.stack != []
    ensures var p := s.stack[|s.stack| - 1];
      Ends(Return(s).trace, id) == Ends(s.trace, id) +
      if p.Resuming? && p.id == id && id in s.streams && !s.streams[id].reset && s.streams[id].finishedRecv then 1 else 0
  {
    hide DeliverFinished, CreditConsume;
    var p := s.stack[|s.stack| - 1];
    var s1 := s.(stack := s.stack[..|s.stack| - 1]);
    if p.id !in s.streams || s.streams[p.id].reset {
    } else if p.Delivering? {
      CreditIsSilent(s1, p.id, p.n);
    } else {
      var s2 := Put(s1, p.id, s1.streams[p.id].(held := []));
      CreditIsSilent(s2, p.id, p.n);
      var s3 := CreditConsume(s2, p.id, p.n);
      if s3.streams[p.id].finishedRecv {
        DeliverFinishedEnds(s3, p.id, id);
      }
    }
  }

  lemma CreditIsSilent(s: Sess, k: u16, n: u32)
    requires k in s.streams
    ensures var t := CreditConsume(s, k, n);
      t.trace == s.trace && k in t.streams && t.streams[k].finishedRecv == s.streams[k].finishedRecv
  {
  }

  /** A step reports the end of a stream once or not at all, and says when. */
  lemma StepEnds(s: Sess, a: Act, id: u16)
    requires Enabled(s, a) && SessInv(s)
    ensures Ends(Do(s, a).trace, id) == Ends(s.trace, id) + if ReportsEnd(s, a, id) then 1 else 0
  {
    hide Receive, Return, ResumeStream, OpenStream, WriteStream, FinishStream, ResetStream, PauseStream, ReleaseStream, CloseSession;
    match a {
      case Recv(f) =>
        if f.kind == FRAME_EOF {
          EofReceived(s, f, id);
        } else {
          OtherFramesEnd(s, f, id);
        }
      case Ret =>
        ReturnEnds(s, id);
        var p := s.stack[|s.stack| - 1];
        assert p in s.stack;
      case Api(Resume(k)) => ResumeEnds(s, k, id);
      case Api(c) => CallIsSilent(s, c);
      case Up => SameTraceEnds(s, Connect(s), id);
      case _ =>
    }
  }

  lemma EofReceived(s: Sess, f: Frame, id: u16)
    requires Encodable(f) && f.kind == FRAME_EOF && Enabled(s, Recv(f))
    ensures Ends(Receive(s, f).trace, id) == Ends(s.trace, id) + if ReportsEnd(s, Recv(f), id) then 1 else 0
  {
    hide HandleEof;
    EofEnds(Took(s), f.sid, |f.payload|, id);
  }

  lemma CallIsSilent(s: Sess, c: Call)
    requires Callable(s, c) && !c.Resume?
    ensures Apply(s, c).trace == s.trace
  {
    match c
    case Open(o) => OpenTraceGrows(s, o);
    case Write(id, data) => if !s.streams[id].local || s.streams[id].finishedSent || s.streams[id].reset {} else {}
    case Release(id) => if OpenState(s.streams[id]) && !s.closing && !s.error {} else {}
    case _ => OthersAreSilent(s, c);
  }

  /** After its end was reported, a stream's end is reported again exactly by resuming it while it is paused. */
  lemma FinishedAgainExactly(s: Sess, b: Sess, a: Act, id: u16)
    requires Linked(s, b) && ActOk(s, b, a) && Finished(id) in s.trace && id != 0 && !Own(s.role, id)
    ensures Ends(Do(s, a).trace, id) ==
      Ends(s.trace, id) + if a == Api(Resume(id)) && id in s.streams && s.streams[id].paused then 1 else 0
  {
    hide Do, Links.Inv, Half, LinkOf, PendsOf;
    StepEnds(s, a, id);
    ReaderInv(s, b, id);
    InEventsOf(s.trace, Finished(id), id);
    EndedStream(s, b, id);
    if a == Ret && Live(s, id) {
      NotResuming(s, b, id);
    }
  }

  lemma EndedStream(s: Sess, b: Sess, id: u16)
    requires Linked(s, b) && Finished(id) in EventsOf(s.trace, id) && id != 0 && !Own(s.role, id)
    ensures id in s.streams ==> !s.streams[id].local && s.streams[id].finishedRecv && s.streams[id].held == []
  {
    hide Run, FramesInv, CreditInv;
    ReaderInv(s, b, id);
  }

  lemma NotResuming(s: Sess, b: Sess, id: u16)
    requires Linked(s, b) && Live(s, id) && id != 0 && !Own(s.role, id) && s.streams[id].held == [] && s.stack != []
    ensures var p := s.stack[|s.stack| - 1]; !(p.Resuming? && p.id == id)
  {
    hide Run, FramesInv, CreditInv, ContentInv;
    ReaderInv(s, b, id);
    PendsIn(s.stack, id);
    var p := s.stack[|s.stack| - 1];
    assert p in s.stack;
  }

  /** How often the end was reported once more. */
  ghost function EndsAgain(es: seq<Event>, id: u16): nat {
    if Ends(es, id) == 0 then 0 else Ends(es, id) - 1
  }

  /** The steps of a run that resume stream `id` while it is paused after its end was reported. */
  ghost function Repeats(h: Sess, c: Sess, ms: seq<Move>, id: u16): nat
    requires RunOk(h, c, ms)
    decreases |ms|
  {
    if ms == [] then 0
    else if ms[0].first then
      (if ms[0].act == Api(Resume(id)) && id in h.streams && h.streams[id].paused && Finished(id) in h.trace then 1 else 0)
      + Repeats(Do(h, ms[0].act), c, ms[1..], id)
    else Repeats(h, Do(c, ms[0].act), ms[1..], id)
  }

  /** Over a run, the end of a stream is reported once and then once for every such resume. */
  lemma {:induction false} FinishedCounts(h: Sess, c: Sess, ms: seq<Move>, id: u16)
    requires Linked(h, c) && RunOk(h, c, ms) && id != 0 && !Own(h.role, id)
    requires Within(RunEnd(h, c, ms).0) && Within(RunEnd(h, c, ms).1)
    ensures EndsAgain(RunEnd(h, c, ms).0.trace, id) == EndsAgain(h.trace, id) + Repeats(h, c, ms, id)
    decreases |ms|
  {
    hide Linked, Do, Within, Enabled, Ends, Own;
    if ms != [] {
      if ms[0].first {
        var h1 := Do(h, ms[0].act);
        RunMonotone(h1, c, ms[1..]);
        ActKeeps(h, c, ms[0].act);
        SameRole(h, c, h1);
        OneStepCounts(h, c, ms[0].act, id);
        FinishedCounts(h1, c, ms[1..], id);
      } else {
        var c1 := Do(c, ms[0].act);
        RunMonotone(h, c1, ms[1..]);
        LinkedSymmetric(h, c);
        ActKeeps(c, h, ms[0].act);
        LinkedSymmetric(c1, h);
        FinishedCounts(h, c1, ms[1..], id);
      }
    }
  }

  lemma SameRole(h: Sess, c: Sess, h1: Sess)
    requires Linked(h, c) && Linked(h1, c)
    ensures h1.role == h.role
  {
  }

  lemma OneStepCounts(s: Sess, b: Sess, a: Act, id: u16)
    requires Linked(s, b) && ActOk(s, b, a) && id != 0 && !Own(s.role, id)
    ensures EndsAgain(Do(s, a).trace, id) == EndsAgain(s.trace, id) +
      if a == Api(Resume(id)) && id in s.streams && s.streams[id].paused && Finished(id) in s.trace then 1 else 0
  {
    hide Do, Linked, Ends, Own, ReportsEnd;
    EndsSome(s.trace, id);
    if Finished(id) in s.trace {
      FinishedAgainExactly(s, b, a, id);
    } else {
      LinkedParts(s, b);
      StepEnds(s, a, id);
    }
  }

  // ---- a stream that is never paused ------------------------------------------------

  ghost predicate Unpaused(s: Sess, id: u16) {
    id in s.streams ==> !s.streams[id].paused
  }

  lemma FrameStaysUnpaused(s: Sess, f: Frame, id: u16)
    requires Encodable(f) && Unpaused(s, id)
    ensures Unpaused(Receive(s, f), id)
  {
    hide HandleOpen, HandleData, HandleEof, HandleReset, HandleWindow;
    if f.kind == FRAME_OPEN { OpenStaysUnpaused(Took(s), f.sid, f.payload, id); }
    else if f.kind == FRAME_DATA { DataStaysUnpaused(Took(s), f.sid, f.payload, id); }
    else if f.kind == FRAME_EOF { EofStaysUnpaused(Took(s), f.sid, |f.payload|, id); }
    else if f.kind == FRAME_RESET { ResetStaysUnpaused(Took(s), f.sid, f.payload, id); }
    else if f.kind == FRAME_WINDOW { WindowStaysUnpaused(Took(s), f.sid, f.payload, id); }
    else {}
  }

  /** Whatever else a step does, it pauses nothing if it puts back a stream that is not paused, or was. */
  lemma PutStaysUnpaused(s: Sess, t: Sess, k: u16, id: u16)
    requires Unpaused(s, id)
    requires t.streams == s.streams ||
      (k in t.streams && t.streams == s.streams[k := t.streams[k]] && (t.streams[k].paused ==> k in s.streams && s.streams[k].paused))
    ensures Unpaused(t, id)
  {
  }

  lemma ErrorStaysUnpaused(s: Sess, code: Code, id: u16)
    requires Unpaused(s, id)
    ensures Unpaused(ProtocolError(s, code), id)
  {
  }

  lemma OpenStaysUnpaused(s: Sess, sid: u16, payload: seq<byte>, id: u16)
    requires Unpaused(s, id)
    ensures Unpaused(HandleOpen(s, sid, payload), id)
  {
    hide Unpaused, Rd16, Rd64, Wr32, ProtocolError;
    if sid == 0 || sid % 2 != PeerParity(s.role) { ErrorStaysUnpaused(s, InvalidArg, id); }
    else if |payload| != 10 { ErrorStaysUnpaused(s, InvalidSize, id); }
    else if sid in s.streams { ErrorStaysUnpaused(s, InvalidState, id); }
    else if |s.streams| >= MAX_STREAMS { PutStaysUnpaused(s, HandleOpen(s, sid, payload), sid, id); }
    else { PutStaysUnpaused(s, HandleOpen(s, sid, payload), sid, id); }
  }

  lemma DataStaysUnpaused(s: Sess, sid: u16, payload: seq<byte>, id: u16)
    requires |payload| < 0x1_0000 && Unpaused(s, id)
    ensures Unpaused(HandleData(s, sid, payload), id)
  {
    hide Unpaused;
    if sid !in s.streams || s.streams[sid].reset {}
    else if s.streams[sid].local || s.streams[sid].finishedRecv {}
    else if s.streams[sid].recvOutstanding as int + |payload| > s.window {}
    else if s.streams[sid].paused {}
    else {}
    PutStaysUnpaused(s, HandleData(s, sid, payload), sid, id);
  }

  lemma ResetStaysUnpaused(s: Sess, sid: u16, payload: seq<byte>, id: u16)
    requires Unpaused(s, id)
    ensures Unpaused(HandleReset(s, sid, payload), id)
  {
    hide Rd32;
    if |payload| != 4 {} else if sid !in s.streams || s.streams[sid].reset {} else {}
  }

  lemma WindowStaysUnpaused(s: Sess, sid: u16, payload: seq<byte>, id: u16)
    requires Unpaused(s, id)
    ensures Unpaused(HandleWindow(s, sid, payload), id)
  {
    hide Grant, Rd32;
    if |payload| != 4 {}
    else if sid !in s.streams || s.streams[sid].reset {}
    else if !s.streams[sid].local {}
    else { GrantStaysUnpaused(s, sid, Rd32(payload), id); }
  }

  lemma GrantStaysUnpaused(s: Sess, sid: u16, n: u32, id: u16)
    requires sid in s.streams && Unpaused(s, id)
    ensures Unpaused(Grant(s, sid, n), id)
  {
    hide Add32;
    var st := s.streams[sid];
    if !st.finishedSent && st.sendWindow == 0 && Add32(st.sendWindow, n) > 0 {} else {}
  }

  lemma EofStaysUnpaused(s: Sess, sid: u16, plen: nat, id: u16)
    requires Unpaused(s, id)
    ensures Unpaused(HandleEof(s, sid, plen), id)
  {
    hide CreditFrames, Flushed;
    if plen != 0 {} else if sid !in s.streams || s.streams[sid].reset {}
    else if s.streams[sid].local || s.streams[sid].finishedRecv {}
    else if !s.streams[sid].paused && s.streams[sid].held == [] {
      EndStaysUnpaused(Put(s, sid, s.streams[sid].(finishedRecv := true)), sid, id);
    } else {}
  }

  lemma EndStaysUnpaused(s: Sess, k: u16, id: u16)
    requires k in s.streams && Unpaused(s, id)
    ensures Unpaused(DeliverFinished(s, k), id)
  {
  }

  lemma ReturnStaysUnpaused(s: Sess, id: u16)
    requires s.stack != [] && Unpaused(s, id)
    ensures Unpaused(Return(s), id)
  {
    hide DeliverFinished, CreditConsume;
    var p := s.stack[|s.stack| - 1];
    var s1 := s.(stack := s.stack[..|s.stack| - 1]);
    if p.id !in s.streams || s.streams[p.id].reset {
    } else if p.Delivering? {
      CreditStaysUnpaused(s1, p.id, p.n, id);
    } else {
      var s2 := Put(s1, p.id, s1.streams[p.id].(held := []));
      CreditStaysUnpaused(s2, p.id, p.n, id);
      EndStaysUnpaused(CreditConsume(s2, p.id, p.n), p.id, id);
    }
  }

  lemma CreditStaysUnpaused(s: Sess, k: u16, n: u32, id: u16)
    requires k in s.streams && Unpaused(s, id)
    ensures k in CreditConsume(s, k, n).streams && Unpaused(CreditConsume(s, k, n), id)
  {
  }

  lemma CallStaysUnpaused(s: Sess, c: Call, id: u16)
    requires Callable(s, c) && Unpaused(s, id) && c != Pause(id)
    ensures Unpaused(Apply(s, c), id)
  {
    hide Chunks, DeliverFinished;
    match c
    case Open(o) =>
    case Write(k, data) =>
    case Finish(k) =>
    case Reset(k, _) =>
    case Pause(k) =>
    case Resume(k) =>
      var s1 := Put(s, k, s.streams[k].(paused := false));
      EndStaysUnpaused(s1, k, id);
    case Release(k) =>
    case Close =>
  }

  lemma StaysUnpaused(s: Sess, a: Act, id: u16)
    requires Enabled(s, a) && Unpaused(s, id) && a != Api(Pause(id))
    ensures Unpaused(Do(s, a), id)
  {
    hide Receive, Return, Apply;
    match a
    case Recv(f) => FrameStaysUnpaused(s, f, id);
    case Ret => ReturnStaysUnpaused(s, id);
    case Api(c) => CallStaysUnpaused(s, c, id);
    case _ =>
  }

  lemma {:induction false} NoPauseNoRepeat(h: Sess, c: Sess, ms: seq<Move>, id: u16)
    requires RunOk(h, c, ms) && Unpaused(h, id) && Move(true, Api(Pause(id))) !in ms
    ensures Repeats(h, c, ms, id) == 0
    decreases |ms|
  {
    hide Do, Enabled;
    if ms != [] {
      assert ms[0] in ms && forall m <- ms[1..] :: m in ms;
      if ms[0].first {
        assert ms[0] == Move(true, ms[0].act);
        StaysUnpaused(h, ms[0].act, id);
        NoPauseNoRepeat(Do(h, ms[0].act), c, ms[1..], id);
      } else {
        NoPauseNoRepeat(h, Do(c, ms[0].act), ms[1..], id);
      }
    }
  }

  /** From the start: the end is reported at most once exactly when it is never resumed while paused past its end, so surely if never paused. */
  lemma FinishedOnceExactly(role: Role, window: u32, ms: seq<Move>, s: Sess, b: Sess, id: u16)
    requires Ran(role, window, ms, s, b) && id != 0 && !Own(role, id)
    ensures var s0, b0 := NewSession(role, window), NewSession(PeerOf(role), window);
      && (Ends(s.trace, id) <= 1 <==> Repeats(s0, b0, ms, id) == 0)
      && (Move(true, Api(Pause(id))) !in ms ==> Ends(s.trace, id) <= 1)
  {
    hide Linked, Do, Enabled, RunOk, RunEnd, Own;
    var s0, b0 := NewSession(role, window), NewSession(PeerOf(role), window);
    LinkedInitially(role, PeerOf(role), window);
    FinishedCounts(s0, b0, ms, id);
    if Move(true, Api(Pause(id))) !in ms {
      NoPauseNoRepeat(s0, b0, ms, id);
    }
  }

  /** The session after stream `id` was paused and resumed `n` times. */
  ghost function Cycled(s: Sess, id: u16, n: nat): Sess
    requires id in s.streams
    ensures id in Cycled(s, id, n).streams
  {
    if n == 0 then s else ResumeStream(PauseStream(Cycled(s, id, n - 1), id), id)
  }

  /** Wherever the end of a stream was reported and the stream is still there, pausing and resuming it reports the end once more, any number of times. */
  lemma {:induction false} EveryCycleRepeats(s: Sess, b: Sess, id: u16, n: nat)
    requires Linked(s, b) && id in s.streams && Finished(id) in s.trace && id != 0 && !Own(s.role, id)
    ensures Linked(Cycled(s, id, n), b) && Finished(id) in Cycled(s, id, n).trace && Cycled(s, id, n).role == s.role
    ensures Ends(Cycled(s, id, n).trace, id) == Ends(s.trace, id) + n
  {
    hide Linked, Own, Ends, PauseStream, ResumeStream;
    if n > 0 {
      EveryCycleRepeats(s, b, id, n - 1);
      OneCycleRepeats(Cycled(s, id, n - 1), b, id);
    }
  }

  lemma OneCycleRepeats(s: Sess, b: Sess, id: u16)
    requires Linked(s, b) && id in s.streams && Finished(id) in s.trace && id != 0 && !Own(s.role, id)
    ensures var t := ResumeStream(PauseStream(s, id), id);
      Linked(t, b) && Finished(id) in t.trace && t.role == s.role && Ends(t.trace, id) == Ends(s.trace, id) + 1
  {
    hide Linked, Own, Ends, ResumeStream;
    EndedReader(s, b, id);
    var p := PauseStream(s, id);
    assert Do(s, Api(Pause(id))) == p;
    EndsSome(s.trace, id);
    ActKeeps(s, b, Api(Pause(id)));
    EndedReader(p, b, id);
    var t := ResumeStream(p, id);
    assert Do(p, Api(Resume(id))) == t;
    FinishedAgainExactly(p, b, Api(Resume(id)), id);
    NothingToGive(p, id);
    EndsSome(t.trace, id);
    ActKeeps(p, b, Api(Resume(id)));
  }

  lemma EndedReader(s: Sess, b: Sess, id: u16)
    requires Linked(s, b) && Finished(id) in s.trace && id in s.streams && id != 0 && !Own(s.role, id)
    ensures Within(s) && !s.streams[id].local && s.streams[id].finishedRecv && s.streams[id].held == []
  {
    hide Links.Inv, Half;
    InEventsOf(s.trace, Finished(id), id);
    EndedStream(s, b, id);
  }

  lemma NothingToGive(s: Sess, id: u16)
    requires Within(s) && id in s.streams && s.streams[id].held == []
    ensures Within(ResumeStream(s, id)) && ResumeStream(s, id).role == s.role
  {
  }
}
