/**
 Whole calls and whole frames, callbacks included. The application is a script: the calls its next callback makes,
 then those of the one after, and so on; a callback that calls `resume` may be entered again before it returns.
 Every such big step is a sequence of the small steps of `Engine`.
 */
module Callbacks {
  import opened Wire
  import opened Engine

  function Size(script: seq<seq<Call>>): nat {
    if script == [] then 0 else 1 + |script[0]| + Size(script[1..])
  }

  // ---- what the small steps do to the script and the stack --------------------

  /** Frames once sent stay sent, a failed or closing session stays so, and no frame was taken. */
  ghost predicate Appends(s: Sess, t: Sess) {
    t.rcvd == s.rcvd && s.sent <= t.sent && (s.error ==> t.error) && (s.closing ==> t.closing)
  }

  ghost predicate SameControl(s: Sess, t: Sess) {
    t.script == s.script && t.stack == s.stack
  }

  ghost predicate OneDeeper(s: Sess, t: Sess) {
    t.script == s.script && |t.stack| == |s.stack| + 1 && t.stack[..|s.stack|] == s.stack
  }

  lemma DeliverFinishedFrame(s: Sess, id: u16)
    requires id in s.streams
    ensures SameControl(s, DeliverFinished(s, id)) && Appends(s, DeliverFinished(s, id))
  {
  }

  lemma ErrorFrame(s: Sess, code: Code)
    ensures SameControl(s, ProtocolError(s, code)) && Appends(s, ProtocolError(s, code))
    ensures ProtocolError(s, code).error
  {
    if s.error {} else {}
  }

  lemma ResumeFrame(s: Sess, id: u16)
    requires id in s.streams
    ensures SameControl(s, ResumeStream(s, id)) || OneDeeper(s, ResumeStream(s, id))
    ensures Appends(s, ResumeStream(s, id))
  {
    hide DeliverFinished;
    var st := s.streams[id];
    var s1 := Put(s, id, st.(paused := false));
    if st.local || !st.paused {}
    else if |st.held| > 0 {
      assert OneDeeper(s, GiveHeld(s1, id));
    }
    else if st.finishedRecv { DeliverFinishedFrame(s1, id); }
    else {}
  }

  lemma ApplyFrame(s: Sess, c: Call)
    requires Callable(s, c)
    ensures SameControl(s, Apply(s, c)) || (c.Resume? && OneDeeper(s, Apply(s, c)))
    ensures Appends(s, Apply(s, c))
  {
    hide ResumeStream, Chunks, OneDeeper;
    match c
    case Open(_) => if s.closing || s.error || |s.streams| >= MAX_STREAMS {} else {}
    case Write(id, _) => if !s.streams[id].local || s.streams[id].finishedSent || s.streams[id].reset {} else {}
    case Finish(id) => if !s.streams[id].local || s.streams[id].finishedSent || s.streams[id].reset {} else {}
    case Reset(id, _) => if s.streams[id].reset {} else {}
    case Pause(id) => if s.streams[id].local {} else {}
    case Resume(id) => ResumeFrame(s, id);
    case Release(_) =>
    case Close => if !s.goawaySent && !s.error {} else {}
  }

  lemma CreditFrame(s: Sess, id: u16, n: u32)
    requires id in s.streams
    ensures SameControl(s, CreditConsume(s, id, n)) && id in CreditConsume(s, id, n).streams
    ensures Appends(s, CreditConsume(s, id, n))
  {
  }

  lemma ReturnFrame(s: Sess)
    requires s.stack != []
    ensures Return(s).script == s.script && Return(s).stack == s.stack[..|s.stack| - 1]
    ensures Appends(s, Return(s))
  {
    hide CreditConsume, DeliverFinished;
    var p := s.stack[|s.stack| - 1];
    var s1 := s.(stack := s.stack[..|s.stack| - 1]);
    if p.id !in s.streams || s.streams[p.id].reset {}
    else if p.Delivering? { CreditFrame(s1, p.id, p.n); }
    else {
      var s2 := Put(s1, p.id, s1.streams[p.id].(held := []));
      CreditFrame(s2, p.id, p.n);
      var s3 := CreditConsume(s2, p.id, p.n);
      if s3.streams[p.id].finishedRecv { DeliverFinishedFrame(s3, p.id); }
    }
  }

  lemma HandleDataFrame(s: Sess, sid: u16, payload: seq<byte>)
    requires |payload| < 0x1_0000
    ensures SameControl(s, HandleData(s, sid, payload)) || OneDeeper(s, HandleData(s, sid, payload))
    ensures Appends(s, HandleData(s, sid, payload))
  {
    hide ProtocolError;
    ErrorFrame(s, InvalidState);
    ErrorFrame(s, InvalidSize);
    if sid !in s.streams || s.streams[sid].reset {}
    else if s.streams[sid].local || s.streams[sid].finishedRecv {}
    else if s.streams[sid].recvOutstanding as int + |payload| > s.window {}
    else if s.streams[sid].paused {}
    else { assert OneDeeper(s, HandleData(s, sid, payload)); }
  }

  lemma HandleEofFrame(s: Sess, sid: u16, plen: nat)
    ensures SameControl(s, HandleEof(s, sid, plen))
    ensures Appends(s, HandleEof(s, sid, plen))
  {
    hide ProtocolError, DeliverFinished;
    ErrorFrame(s, InvalidState);
    ErrorFrame(s, InvalidSize);
    if plen != 0 {}
    else if sid !in s.streams || s.streams[sid].reset {}
    else if s.streams[sid].local || s.streams[sid].finishedRecv {}
    else {
      var s1 := Put(s, sid, s.streams[sid].(finishedRecv := true));
      DeliverFinishedFrame(s1, sid);
      if !s.streams[sid].paused && s.streams[sid].held == [] {} else {}
    }
  }

  lemma GrantFrame(s: Sess, id: u16, n: u32)
    requires id in s.streams
    ensures SameControl(s, Grant(s, id, n))
    ensures Appends(s, Grant(s, id, n))
  {
    hide Add32;
    var st := s.streams[id];
    if !st.finishedSent && st.sendWindow == 0 && Add32(st.sendWindow, n) > 0 {} else {}
  }

  lemma HandleOpenFrame(s: Sess, sid: u16, payload: seq<byte>)
    ensures SameControl(s, HandleOpen(s, sid, payload)) && Appends(s, HandleOpen(s, sid, payload))
  {
    hide ProtocolError, Rd16, Rd64, Wr32;
    ErrorFrame(s, InvalidArg);
    ErrorFrame(s, InvalidState);
    ErrorFrame(s, InvalidSize);
    if sid == 0 || sid % 2 != PeerParity(s.role) {}
    else if |payload| != 10 {}
    else if sid in s.streams {}
    else if |s.streams| >= MAX_STREAMS {}
    else {}
  }

  lemma HandleResetFrame(s: Sess, sid: u16, payload: seq<byte>)
    ensures SameControl(s, HandleReset(s, sid, payload)) && Appends(s, HandleReset(s, sid, payload))
  {
    hide ProtocolError;
    ErrorFrame(s, InvalidSize);
    if |payload| != 4 {}
    else if sid !in s.streams || s.streams[sid].reset {}
    else {}
  }

  lemma HandleWindowFrame(s: Sess, sid: u16, payload: seq<byte>)
    ensures SameControl(s, HandleWindow(s, sid, payload)) && Appends(s, HandleWindow(s, sid, payload))
  {
    hide ProtocolError, Grant;
    ErrorFrame(s, InvalidState);
    ErrorFrame(s, InvalidSize);
    if |payload| != 4 {}
    else if sid !in s.streams || s.streams[sid].reset {}
    else { GrantFrame(s, sid, Rd32(payload)); }
  }

  lemma ReceiveFrame(s: Sess, f: Frame)
    requires Encodable(f)
    ensures SameControl(s, Receive(s, f)) || OneDeeper(s, Receive(s, f))
    ensures Receive(s, f).rcvd == s.rcvd + 1 && s.sent <= Receive(s, f).sent
  {
    hide HandleOpen, HandleData, HandleEof, HandleReset, HandleWindow, ProtocolError, OneDeeper;
    var s1 := s.(rcvd := s.rcvd + 1);
    if f.kind == FRAME_OPEN { HandleOpenFrame(s1, f.sid, f.payload); }
    else if f.kind == FRAME_DATA { HandleDataFrame(s1, f.sid, f.payload); DeeperFrom(s, s1, HandleData(s1, f.sid, f.payload)); }
    else if f.kind == FRAME_EOF { HandleEofFrame(s1, f.sid, |f.payload|); }
    else if f.kind == FRAME_RESET { HandleResetFrame(s1, f.sid, f.payload); }
    else if f.kind == FRAME_WINDOW { HandleWindowFrame(s1, f.sid, f.payload); }
    else if f.kind == FRAME_GOAWAY {}
    else { ErrorFrame(s1, NotSupported); }
  }

  lemma DeeperFrom(s: Sess, s1: Sess, t: Sess)
    requires SameControl(s, s1)
    ensures OneDeeper(s1, t) ==> OneDeeper(s, t)
  {
  }

  // ---- big steps ------------------------------------------------------------

  /** The callback of the event just raised. */
  function RunCallback(s: Sess): (t: Sess)
    ensures t.stack == s.stack && Size(t.script) <= Size(s.script)
    decreases Size(s.script), 1
  {
    if s.script == [] then s else RunCalls(s.(script := s.script[1..]), s.script[0])
  }

  /** The calls of one callback, or of the application itself; a call on a released stream does not happen. */
  function RunCalls(s: Sess, cs: seq<Call>): (t: Sess)
    ensures t.stack == s.stack && Size(t.script) <= Size(s.script)
    decreases Size(s.script) + |cs|, 0
  {
    if cs == [] then s
    else if Callable(s, cs[0]) then RunCalls(Perform(s, cs[0]), cs[1..])
    else RunCalls(s, cs[1..])
  }

  function Perform(s: Sess, c: Call): (t: Sess)
    requires Callable(s, c)
    ensures t.stack == s.stack && Size(t.script) <= Size(s.script)
    decreases Size(s.script), 3
  {
    ApplyFrame(s, c);
    Dispatch(s, Apply(s, c))
  }

  /** The small step from `s` to `t` is followed by the callback of its event, and that by the rest of the handler. */
  function Dispatch(s: Sess, t: Sess): (u: Sess)
    requires SameControl(s, t) || OneDeeper(s, t)
    ensures u.stack == s.stack && Size(u.script) <= Size(s.script)
    decreases Size(s.script), 2
  {
    if |t.stack| > |s.stack| then
      var u := RunCallback(t);
      ReturnFrame(u);
      var v := Return(u);
      if |v.trace| > |u.trace| then RunCallback(v) else v
    else if |t.trace| > |s.trace| then RunCallback(t)
    else t
  }

  /** process_frame. */
  function Process(s: Sess, f: Frame): (t: Sess)
    requires Encodable(f)
    ensures t.stack == s.stack && Size(t.script) <= Size(s.script)
  {
    ReceiveFrame(s, f);
    Dispatch(s, Receive(s, f))
  }

  /** Only `resume` raises events, so the other calls are their small steps. */
  lemma QuietCall(s: Sess, c: Call)
    requires Callable(s, c) && !c.Resume?
    ensures Perform(s, c) == Apply(s, c)
  {
    hide Chunks;
    ApplyFrame(s, c);
    assert Apply(s, c).trace == s.trace by {
      match c
      case Open(_) => if s.closing || s.error || |s.streams| >= MAX_STREAMS {} else {}
      case Write(id, _) => if !s.streams[id].local || s.streams[id].finishedSent || s.streams[id].reset {} else {}
      case Finish(id) => if !s.streams[id].local || s.streams[id].finishedSent || s.streams[id].reset {} else {}
      case Reset(id, _) => if s.streams[id].reset {} else {}
      case Pause(id) => if s.streams[id].local {} else {}
      case Release(_) =>
      case Close => if !s.goawaySent && !s.error {} else {}
    }
  }

  // ---- big steps are runs of small steps -----------------------------------------

  /** Steps of one session, none of which takes a frame. */
  ghost predicate ActsOk(s: Sess, acts: seq<Act>)
    decreases |acts|
  {
    acts == [] || (!acts[0].Recv? && Enabled(s, acts[0]) && ActsOk(Do(s, acts[0]), acts[1..]))
  }

  ghost function ActsEnd(s: Sess, acts: seq<Act>): Sess
    requires ActsOk(s, acts)
    decreases |acts|
  {
    if acts == [] then s else ActsEnd(Do(s, acts[0]), acts[1..])
  }

  ghost predicate Leads(s: Sess, acts: seq<Act>, t: Sess) {
    ActsOk(s, acts) && ActsEnd(s, acts) == t
  }

  lemma {:induction false} Joins(s: Sess, xs: seq<Act>, t: Sess, ys: seq<Act>, u: Sess)
    requires Leads(s, xs, t) && Leads(t, ys, u)
    ensures Leads(s, xs + ys, u)
    decreases |xs|
  {
    hide Do, Enabled;
    if xs == [] {
      assert xs + ys == ys;
    } else {
      assert (xs + ys)[1..] == xs[1..] + ys;
      Joins(Do(s, xs[0]), xs[1..], t, ys, u);
    }
  }

  lemma One(s: Sess, a: Act)
    requires Enabled(s, a) && !a.Recv?
    ensures Leads(s, [a], Do(s, a))
  {
    hide Do, Enabled;
    assert [a][1..] == [];
    assert ActsOk(Do(s, a), [a][1..]) && ActsEnd(Do(s, a), [a][1..]) == Do(s, a);
  }

  lemma {:induction false} CallbackPath(s: Sess) returns (acts: seq<Act>)
    ensures Leads(s, acts, RunCallback(s))
    decreases Size(s.script), 1
  {
    hide Leads;
    if s.script == [] {
      acts := [];
      Nothing(s);
    } else {
      var s1 := s.(script := s.script[1..]);
      var rest := CallsPath(s1, s.script[0]);
      One(s, NextCallback);
      Joins(s, [NextCallback], s1, rest, RunCallback(s));
      acts := [NextCallback] + rest;
    }
  }

  lemma Nothing(s: Sess)
    ensures Leads(s, [], s)
  {
  }

  lemma {:induction false} CallsPath(s: Sess, cs: seq<Call>) returns (acts: seq<Act>)
    ensures Leads(s, acts, RunCalls(s, cs))
    decreases Size(s.script) + |cs|, 0
  {
    hide Leads, Apply, Perform;
    if cs == [] {
      acts := [];
      Nothing(s);
    } else if Callable(s, cs[0]) {
      var t := Perform(s, cs[0]);
      var first := PerformPath(s, cs[0]);
      var rest := CallsPath(t, cs[1..]);
      Joins(s, first, t, rest, RunCalls(s, cs));
      acts := first + rest;
    } else {
      acts := CallsPath(s, cs[1..]);
    }
  }

  lemma {:induction false} PerformPath(s: Sess, c: Call) returns (acts: seq<Act>)
    requires Callable(s, c)
    ensures Leads(s, acts, Perform(s, c))
    decreases Size(s.script), 3
  {
    hide Leads, Apply;
    ApplyFrame(s, c);
    One(s, Api(c));
    var rest := DispatchPath(s, Apply(s, c));
    Joins(s, [Api(c)], Apply(s, c), rest, Perform(s, c));
    acts := [Api(c)] + rest;
  }

  lemma {:induction false} DispatchPath(s: Sess, t: Sess) returns (acts: seq<Act>)
    requires SameControl(s, t) || OneDeeper(s, t)
    ensures Leads(t, acts, Dispatch(s, t))
    decreases Size(s.script), 2
  {
    hide Leads, Return;
    if |t.stack| > |s.stack| {
      var u := RunCallback(t);
      ReturnFrame(u);
      var v := Return(u);
      var first := CallbackPath(t);
      One(u, Ret);
      Joins(t, first, u, [Ret], v);
      acts := first + [Ret];
      if |v.trace| > |u.trace| {
        var rest := CallbackPath(v);
        Joins(t, acts, v, rest, RunCallback(v));
        acts := acts + rest;
      }
    } else if |t.trace| > |s.trace| {
      acts := CallbackPath(t);
    } else {
      acts := [];
      Nothing(t);
    }
  }

  lemma ActAppends(s: Sess, a: Act)
    requires Enabled(s, a) && !a.Recv?
    ensures Appends(s, Do(s, a))
  {
    hide Apply, Return;
    match a
    case Api(c) => ApplyFrame(s, c);
    case Ret => ReturnFrame(s);
    case _ =>
  }

  lemma {:induction false} ActsAppend(s: Sess, acts: seq<Act>)
    requires ActsOk(s, acts)
    ensures Appends(s, ActsEnd(s, acts))
    decreases |acts|
  {
    hide Do, Enabled;
    if acts != [] {
      ActAppends(s, acts[0]);
      ActsAppend(Do(s, acts[0]), acts[1..]);
    }
  }

  /** Callbacks take no frame and mend no error. */
  lemma DispatchAppends(s: Sess, t: Sess)
    requires SameControl(s, t) || OneDeeper(s, t)
    ensures Appends(t, Dispatch(s, t))
  {
    var acts := DispatchPath(s, t);
    ActsAppend(t, acts);
  }

  /** Processing a frame counts it, whatever the callbacks do. */
  lemma ProcessCounts(s: Sess, f: Frame)
    requires Encodable(f)
    ensures Process(s, f).rcvd == s.rcvd + 1 && s.sent <= Process(s, f).sent
  {
    hide Receive;
    ReceiveFrame(s, f);
    DispatchAppends(s, Receive(s, f));
  }
}
