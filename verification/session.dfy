/**
 A session as the source has it: an object whose fields the handlers and the stream calls update in place, and an
 input buffer of fixed size in front of it. Each method is tied to the state machine of `Engine` and `Callbacks`.
 */
module Sessions {
  import opened Wire
  import opened Engine
  import opened Callbacks
  import opened Outbound

  datatype Status = Ok | ErrState | ErrNoMem

  class Session {
    const role: Role
    const window: u32
    const out: OutQueue
    var nextTxId: u16
    var streams: map<u16, Stream>
    var error: bool
    var goawayReceived: bool
    var goawaySent: bool
    var closing: bool
    /** The events raised, and what the callbacks of the next ones will call. */
    var trace: seq<Event>
    var script: seq<seq<Call>>
    ghost var sent: seq<Frame>
    ghost var rcvd: nat
    ghost var opens: nat
    ghost var opts: map<u16, Opts>
    ghost var wrote: map<u16, seq<byte>>
    ghost var stack: seq<Pend>
    ghost var reentered: bool

    ghost function State(): Sess
      reads this
    {
      Sess(role, window, nextTxId, streams, error, goawayReceived, goawaySent, closing, sent, rcvd, trace,
           opens, opts, wrote, stack, reentered, script)
    }

    /** The bytes enqueued are the encoding of the frames sent. */
    ghost predicate Valid()
      reads `sent, out, out.buf
    {
      out.Valid() && (forall f <- sent :: Encodable(f)) && out.enqueued == EncodeAll(sent)
    }

    twostate predicate Kept()
      reads `sent, out, out.buf
    {
      Valid() && (out.buf == old(out.buf) || fresh(out.buf))
    }

    constructor (role: Role, window: u32, grants: seq<nat>)
      ensures Valid() && fresh(out) && fresh(out.buf) && State() == NewSession(role, window)
    {
      this.role := role;
      this.window := window;
      out := new OutQueue(grants);
      nextTxId := if role == Host then 2 else 1;
      streams := map[];
      error, goawayReceived, goawaySent, closing := false, false, false, false;
      trace, script := [], [];
      sent, rcvd, opens, opts, wrote, stack, reentered := [], 0, 0, map[], map[], [], false;
    }

    method EnqueueFrame(f: Frame)
      requires Valid() && Encodable(f)
      modifies this, out, out.buf
      ensures Kept() && State() == Enqueue(old(State()), [f])
    {
      out.Enqueue(f);
      EncodeAllAppend(sent, [f]);
      assert [f][1..] == [];
      assert EncodeAll([f]) == Encode(f);
      sent := sent + [f];
    }

    // ---- events -----------------------------------------------------------

    method Emit(e: Event)
      requires Valid()
      modifies this, out, out.buf
      ensures Kept() && State() == RunCallback(Log(old(State()), e))
      decreases Size(script), 2
    {
      trace := trace + [e];
      assert State() == Log(old(State()), e);
      CallBack();
    }

    method CallBack()
      requires Valid()
      modifies this, out, out.buf
      ensures Kept() && State() == RunCallback(old(State()))
      decreases Size(script), 1
    {
      if script != [] {
        var cs := script[0];
        script := script[1..];
        assert State() == old(State()).(script := old(State()).script[1..]);
        MakeCalls(cs);
      }
    }

    /** The application's own code: one call after the other. */
    method MakeCalls(cs: seq<Call>)
      requires Valid()
      modifies this, out, out.buf
      ensures Kept() && State() == RunCalls(old(State()), cs)
      decreases Size(script) + |cs|, 0
    {
      hide Perform, Callable;
      var i := 0;
      assert cs[0..] == cs;
      while i < |cs|
        invariant i <= |cs| && Kept()
        invariant RunCalls(State(), cs[i..]) == RunCalls(old(State()), cs)
        invariant Size(script) <= old(Size(script))
      {
        assert cs[i..][0] == cs[i] && cs[i..][1..] == cs[i + 1..];
        var ok := IsCallable(cs[i]);
        if ok {
          MakeCall(cs[i]);
        }
        i := i + 1;
      }
      assert cs[i..] == [];
    }

    method IsCallable(c: Call) returns (ok: bool)
      ensures ok == Callable(State(), c)
    {
      match c
      case Open(_) => ok := true;
      case Close => ok := true;
      case Write(id, _) => ok := id in streams;
      case Finish(id) => ok := id in streams;
      case Reset(id, _) => ok := id in streams;
      case Pause(id) => ok := id in streams;
      case Resume(id) => ok := id in streams;
      case Release(id) => ok := id in streams;
    }

    method MakeCall(c: Call)
      requires Valid() && Callable(State(), c)
      modifies this, out, out.buf
      ensures Kept() && State() == Perform(old(State()), c)
      decreases Size(script), 6
    {
      hide Apply, Perform;
      ghost var s := State();
      if !c.Resume? {
        QuietCall(s, c);
      }
      match c
      case Open(o) => var st, id := StreamOpen(o);
      case Write(id, data) => var st, n := StreamWrite(id, data);
      case Finish(id) => var st := StreamFinish(id);
      case Reset(id, reason) => StreamReset(id, reason);
      case Pause(id) => var st := StreamPause(id);
      case Resume(id) => var st := StreamResume(id);
      case Release(id) => StreamRelease(id);
      case Close => CloseSession();
    }

    // ---- stream calls -------------------------------------------------------

    method StreamOpen(o: Opts) returns (r: Status, id: u16)
      requires Valid()
      modifies this, out, out.buf
      ensures Kept() && State() == Apply(old(State()), Open(o))
      ensures r == if old(closing || error) then ErrState else if old(|streams|) >= MAX_STREAMS then ErrNoMem else Ok
      ensures r == Ok ==> id == old(nextTxId)
    {
      id := nextTxId;
      if closing || error {
        return ErrState, id;
      }
      if |streams| >= MAX_STREAMS {
        return ErrNoMem, id;
      }
      AddStream(o);
      EnqueueFrame(Frame(FRAME_OPEN, id, Wr16(o.kind) + Wr64(o.hint)));
      r := Ok;
    }

    /** The new stream takes the next id. */
    method AddStream(o: Opts)
      requires Valid()
      modifies `streams, `nextTxId, `opens, `opts, `wrote
      ensures Valid()
      ensures var s, id := old(State()), old(nextTxId);
        State() == Put(s.(nextTxId := (id as int + 2) % 0x1_0000, opens := s.opens + 1, opts := s.opts[id := o],
                          wrote := s.wrote[id := []]), id, NewStream(true, window))
    {
      hide Valid;
      var id := nextTxId;
      streams := streams[id := NewStream(true, window)];
      nextTxId := (nextTxId as int + 2) % 0x1_0000;
      opens, opts, wrote := opens + 1, opts[id := o], wrote[id := []];
    }

    method StreamWrite(id: u16, data: seq<byte>) returns (r: Status, written: nat)
      requires Valid() && id in streams
      modifies this, out, out.buf
      ensures Kept() && State() == Apply(old(State()), Write(id, data))
      ensures written == Accepted(old(streams[id]), data)
      ensures r == if !old(streams[id]).local || old(streams[id]).finishedSent || old(streams[id]).reset then ErrState else Ok
    {
      hide Chunks;
      var st := streams[id];
      if !st.local || st.finishedSent || st.reset {
        return ErrState, 0;
      }
      var accept := if |data| < st.sendWindow then |data| else st.sendWindow;
      SendChunks(id, data[..accept]);
      streams := streams[id := st.(sendWindow := st.sendWindow - accept)];
      wrote := wrote[id := (if id in wrote then wrote[id] else []) + data[..accept]];
      r, written := Ok, accept;
    }

    method SendChunks(id: u16, data: seq<byte>)
      requires Valid()
      modifies this, out, out.buf
      ensures Kept() && State() == Enqueue(old(State()), Chunks(id, data))
    {
      hide Chunks;
      ghost var done := [];
      var off := 0;
      assert data[0..] == data && sent + [] == sent;
      while off < |data|
        invariant off <= |data| && Kept()
        invariant Chunks(id, data) == done + Chunks(id, data[off..])
        invariant State() == Enqueue(old(State()), done)
      {
        var chunk := if |data| - off > MAX_CHUNK then MAX_CHUNK else |data| - off;
        ChunksHead(id, data[off..], chunk);
        assert data[off..][..chunk] == data[off..off + chunk] && data[off..][chunk..] == data[off + chunk..];
        EnqueueFrame(Frame(FRAME_DATA, id, data[off..off + chunk]));
        done := done + [Frame(FRAME_DATA, id, data[off..off + chunk])];
        off := off + chunk;
      }
      ChunksHead(id, data[off..], 0);
    }

    method StreamFinish(id: u16) returns (r: Status)
      requires Valid() && id in streams
      modifies this, out, out.buf
      ensures Kept() && State() == Apply(old(State()), Finish(id))
      ensures r == if !old(streams[id]).local || old(streams[id]).finishedSent || old(streams[id]).reset then ErrState else Ok
    {
      var st := streams[id];
      if !st.local || st.finishedSent || st.reset {
        return ErrState;
      }
      EnqueueFrame(Frame(FRAME_EOF, id, []));
      streams := streams[id := st.(finishedSent := true)];
      r := Ok;
    }

    method StreamReset(id: u16, reason: u32)
      requires Valid() && id in streams
      modifies this, out, out.buf
      ensures Kept() && State() == Apply(old(State()), Reset(id, reason))
    {
      if streams[id].reset {
        return;
      }
      EnqueueFrame(Frame(FRAME_RESET, id, Wr32(reason)));
      streams := streams[id := streams[id].(reset := true)];
    }

    method StreamPause(id: u16) returns (r: Status)
      requires Valid() && id in streams
      modifies this, out, out.buf
      ensures Kept() && State() == Apply(old(State()), Pause(id))
      ensures r == if old(streams[id]).local then ErrState else Ok
    {
      if streams[id].local {
        return ErrState;
      }
      streams := streams[id := streams[id].(paused := true)];
      r := Ok;
    }

    method StreamRelease(id: u16)
      requires Valid() && id in streams
      modifies this, out, out.buf
      ensures Kept() && State() == Apply(old(State()), Release(id))
    {
      var st := streams[id];
      var openState := !st.reset && (if st.local then !st.finishedSent else !st.finishedRecv);
      if openState && !closing && !error {
        EnqueueFrame(Frame(FRAME_RESET, id, Wr32(ESP_OK)));
      } else {
        assert sent == sent + [];
      }
      streams := streams - {id};
    }

    /** dokan_close, up to the teardown. */
    method CloseSession()
      requires Valid()
      modifies this, out, out.buf
      ensures Kept() && State() == Apply(old(State()), Close)
    {
      if !goawaySent && !error {
        EnqueueFrame(Frame(FRAME_GOAWAY, 0, Wr32(ESP_OK)));
        goawaySent := true;
      }
      closing := true;
    }

    method StreamResume(id: u16) returns (r: Status)
      requires Valid() && id in streams
      modifies this, out, out.buf
      ensures Kept() && State() == Perform(old(State()), Resume(id))
      ensures r == if old(streams[id]).local then ErrState else Ok
      decreases Size(script), 5
    {
      hide Perform, RunCallback, Engine.CreditConsume, Engine.DeliverFinished, Valid;
      ghost var s := State();
      PerformResume(s, id);
      var st := streams[id];
      if st.local {
        return ErrState;
      }
      r := Ok;
      if !st.paused {
        return;
      }
      streams := streams[id := st.(paused := false)];
      if |st.held| > 0 {
        ResumeHeld(id);
        return;
      }
      if streams[id].finishedRecv {
        DeliverFinished(id);
        return;
      }
    }

    /** The held bytes are given and consumed, and the end reported if it has come. */
    method ResumeHeld(id: u16)
      requires Valid() && id in streams && |streams[id].held| > 0
      modifies this, out, out.buf
      ensures Kept() && State() == HeldResumed(old(State()), id)
      decreases Size(script), 4, 1
    {
      hide RunCallback, Resettled, Valid;
      var n: u32 := |streams[id].held| % 0x1_0000_0000;
      GiveHeldBytes(id);
      if id !in streams || streams[id].reset {
        return;
      }
      SettleHeld(id, n);
    }

    method SettleHeld(id: u16, n: u32)
      requires Valid() && id in streams
      modifies this, out, out.buf
      ensures Kept() && State() == Resettled(old(State()), id, n)
      decreases Size(script), 4, 0
    {
      hide RunCallback, Engine.CreditConsume, Engine.DeliverFinished, Valid;
      streams := streams[id := streams[id].(held := [])];
      CreditConsume(id, n);
      if streams[id].finishedRecv && streams[id].held == [] {
        DeliverFinished(id);
        return;
      }
    }

    /** The event for the held bytes, with its callback; the stream still holds them meanwhile. */
    method GiveHeldBytes(id: u16)
      requires Valid() && id in streams
      modifies this, out, out.buf
      ensures Kept() && State() == RunCallback(GiveHeld(old(State()), id)).(stack := old(stack))
      decreases Size(script), 3
    {
      hide RunCallback;
      ghost var s := State();
      var held := streams[id].held;
      Push(Resuming(id, |held| % 0x1_0000_0000), IsResuming(stack, id));
      assert Log(State(), Data(id, held)) == GiveHeld(s, id);
      Emit(Data(id, held));
      Pop();
    }

    /** A delivery starts, on a stream that is already being resumed or not; */
    ghost method Push(p: Pend, again: bool)
      requires Valid()
      modifies `stack, `reentered
      ensures Valid()
      ensures var s := old(State()); State() == s.(stack := s.stack + [p], reentered := s.reentered || again)
    {
      hide Valid;
      stack, reentered := stack + [p], reentered || again;
    }

    /** and ends. */
    ghost method Pop()
      requires Valid() && stack != []
      modifies `stack
      ensures Valid()
      ensures var s := old(State()); State() == s.(stack := s.stack[..|s.stack| - 1])
    {
      hide Valid;
      stack := stack[..|stack| - 1];
    }

    // ---- receive flow control -------------------------------------------------

    method FlushCredit(id: u16)
      requires Valid() && id in streams
      modifies this, out, out.buf
      ensures Kept() && State() == Engine.FlushCredit(old(State()), id)
    {
      var st := streams[id];
      if st.creditPending == 0 {
        assert sent == sent + [];
        FlushOfNothing(State(), id);
        return;
      }
      EnqueueFrame(Frame(FRAME_WINDOW, id, Wr32(st.creditPending)));
      streams := streams[id := st.(recvOutstanding := Sub32(st.recvOutstanding, st.creditPending), creditPending := 0)];
    }

    method CreditConsume(id: u16, n: u32)
      requires Valid() && id in streams
      modifies this, out, out.buf
      ensures Kept() && State() == Engine.CreditConsume(old(State()), id, n)
      ensures id in streams && streams[id].held == old(streams[id]).held && script == old(script)
      ensures var pending := old(streams[id].creditPending) as int + n;
        pending < 0x1_0000_0000 ==>
          if pending >= if window / 2 == 0 then 1 else window / 2
          then sent == old(sent) + [Frame(FRAME_WINDOW, id, Wr32(pending))] && streams[id].creditPending == 0
          else sent == old(sent) && streams[id].creditPending == pending
    {
      hide Valid, Wr32;
      streams := streams[id := streams[id].(creditPending := Add32(streams[id].creditPending, n))];
      var threshold := window / 2;
      if threshold == 0 {
        threshold := 1;
      }
      if streams[id].creditPending >= threshold {
        FlushCredit(id);
        return;
      }
      assert sent == sent + [];
    }

    method DeliverFinished(id: u16)
      requires Valid() && id in streams
      modifies this, out, out.buf
      ensures Kept() && State() == RunCallback(Engine.DeliverFinished(old(State()), id))
      decreases Size(script), 3
    {
      FlushCredit(id);
      Emit(Finished(id));
    }

    // ---- inbound frames -------------------------------------------------------

    method ProtocolError(code: Code)
      requires Valid()
      modifies this, out, out.buf
      ensures Kept() && State() == Dispatch(old(State()), Engine.ProtocolError(old(State()), code))
    {
      if error {
        return;
      }
      error := true;
      Emit(Failed(code));
    }

    method HandleOpen(sid: u16, payload: seq<byte>)
      requires Valid()
      modifies this, out, out.buf
      ensures SameControl(old(State()), Engine.HandleOpen(old(State()), sid, payload))
      ensures Kept() && State() == Dispatch(old(State()), Engine.HandleOpen(old(State()), sid, payload))
    {
      hide RunCallback, Engine.ProtocolError, Valid;
      HandleOpenFrame(State(), sid, payload);
      var want := if role == Host then 1 else 0;
      if sid == 0 || sid % 2 != want {
        ProtocolError(InvalidArg);
        return;
      }
      if |payload| != 10 {
        ProtocolError(InvalidSize);
        return;
      }
      if sid in streams {
        ProtocolError(InvalidState);
        return;
      }
      if |streams| >= MAX_STREAMS {
        EnqueueFrame(Frame(FRAME_RESET, sid, Wr32(ESP_ERR_NO_MEM)));
        return;
      }
      AcceptStream(sid, Opts(Rd16(payload[..2]), Rd64(payload[2..])));
    }

    method AcceptStream(sid: u16, o: Opts)
      requires Valid()
      modifies this, out, out.buf
      ensures Kept() && State() == RunCallback(Log(Put(old(State()), sid, NewStream(false, 0)), Opened(sid, o)))
    {
      hide RunCallback, Valid;
      streams := streams[sid := NewStream(false, 0)];
      Emit(Opened(sid, o));
    }

    method HandleData(sid: u16, payload: seq<byte>)
      requires Valid() && |payload| < 0x1_0000
      modifies this, out, out.buf
      ensures SameControl(old(State()), Engine.HandleData(old(State()), sid, payload))
           || OneDeeper(old(State()), Engine.HandleData(old(State()), sid, payload))
      ensures Kept() && State() == Dispatch(old(State()), Engine.HandleData(old(State()), sid, payload))
    {
      hide RunCallback, Engine.ProtocolError, Delivered, Dispatch, Valid;
      ghost var s := State();
      HandleDataFrame(s, sid, payload);
      if sid !in streams || streams[sid].reset {
        DispatchSame(s);
        return;
      }
      var st := streams[sid];
      if st.local || st.finishedRecv {
        ProtocolError(InvalidState);
        return;
      }
      if st.recvOutstanding as int + |payload| > window {
        ProtocolError(InvalidSize);
        return;
      }
      TakeData(sid, payload);
    }

    /** Welcome data is held back or handed over. */
    method TakeData(sid: u16, payload: seq<byte>)
      requires Valid() && |payload| < 0x1_0000 && sid in streams
      requires var st := streams[sid];
        !st.reset && !st.local && !st.finishedRecv && st.recvOutstanding as int + |payload| <= window
      modifies this, out, out.buf
      ensures SameControl(old(State()), Engine.HandleData(old(State()), sid, payload))
           || OneDeeper(old(State()), Engine.HandleData(old(State()), sid, payload))
      ensures Kept() && State() == Dispatch(old(State()), Engine.HandleData(old(State()), sid, payload))
    {
      hide RunCallback, Delivered, Dispatch, Valid;
      ghost var s := State();
      var st := streams[sid];
      var st1 := st.(recvOutstanding := st.recvOutstanding as int + |payload|);
      if st.paused {
        streams := streams[sid := st1.(held := st.held + payload)];
        DispatchQuiet(s, State());
        return;
      }
      streams := streams[sid := st1];
      DataReturns(s, sid, payload);
      DeliverAndCredit(sid, payload);
    }

    /** The event, and the credit for its bytes if the stream is still there. */
    method DeliverAndCredit(sid: u16, payload: seq<byte>)
      requires Valid() && |payload| < 0x1_0000
      modifies this, out, out.buf
      ensures Kept() && State() == Delivered(old(State()), sid, payload)
    {
      hide RunCallback, Engine.CreditConsume, Valid;
      DeliverNow(sid, payload);
      if sid !in streams || streams[sid].reset {
        return;
      }
      CreditConsume(sid, |payload|);
    }

    /** The event for fresh bytes, with its callback. */
    method DeliverNow(sid: u16, payload: seq<byte>)
      requires Valid() && |payload| < 0x1_0000
      modifies this, out, out.buf
      ensures Kept() && State() == RunCallback(Delivery(old(State()), sid, payload)).(stack := old(stack))
    {
      hide RunCallback;
      Push(Delivering(sid, |payload|), false);
      assert Log(State(), Data(sid, payload)) == Delivery(old(State()), sid, payload);
      Emit(Data(sid, payload));
      Pop();
    }

    method HandleEof(sid: u16, plen: nat)
      requires Valid()
      modifies this, out, out.buf
      ensures SameControl(old(State()), Engine.HandleEof(old(State()), sid, plen))
      ensures Kept() && State() == Dispatch(old(State()), Engine.HandleEof(old(State()), sid, plen))
    {
      hide RunCallback, Engine.ProtocolError, Engine.DeliverFinished, Dispatch, Valid;
      ghost var s := State();
      HandleEofFrame(s, sid, plen);
      if plen != 0 {
        ProtocolError(InvalidSize);
        return;
      }
      if sid !in streams || streams[sid].reset {
        DispatchSame(s);
        return;
      }
      if streams[sid].local || streams[sid].finishedRecv {
        ProtocolError(InvalidState);
        return;
      }
      streams := streams[sid := streams[sid].(finishedRecv := true)];
      if !streams[sid].paused && streams[sid].held == [] {
        DispatchFinished(s, State(), sid);
        DeliverFinished(sid);
      } else {
        DispatchQuiet(s, State());
      }
    }

    method HandleReset(sid: u16, payload: seq<byte>)
      requires Valid()
      modifies this, out, out.buf
      ensures SameControl(old(State()), Engine.HandleReset(old(State()), sid, payload))
      ensures Kept() && State() == Dispatch(old(State()), Engine.HandleReset(old(State()), sid, payload))
    {
      hide RunCallback, Engine.ProtocolError, Valid;
      HandleResetFrame(State(), sid, payload);
      if |payload| != 4 {
        ProtocolError(InvalidSize);
        return;
      }
      if sid !in streams || streams[sid].reset {
        return;
      }
      streams := streams[sid := streams[sid].(reset := true)];
      Emit(WasReset(sid, Rd32(payload)));
    }

    method HandleWindow(sid: u16, payload: seq<byte>)
      requires Valid()
      modifies this, out, out.buf
      ensures SameControl(old(State()), Engine.HandleWindow(old(State()), sid, payload))
      ensures Kept() && State() == Dispatch(old(State()), Engine.HandleWindow(old(State()), sid, payload))
    {
      hide RunCallback, Engine.ProtocolError, Rd32, Add32, Valid;
      HandleWindowFrame(State(), sid, payload);
      if |payload| != 4 {
        ProtocolError(InvalidSize);
        return;
      }
      if sid !in streams || streams[sid].reset {
        return;
      }
      var st := streams[sid];
      if !st.local {
        ProtocolError(InvalidState);
        return;
      }
      var before := st.sendWindow;
      streams := streams[sid := st.(sendWindow := Add32(st.sendWindow, Rd32(payload)))];
      if !st.finishedSent && before == 0 && streams[sid].sendWindow > 0 {
        Emit(Writable(sid));
      }
    }

    method ProcessFrame(f: Frame)
      requires Valid() && Encodable(f)
      modifies this, out, out.buf
      ensures Kept() && State() == Process(old(State()), f)
    {
      hide Dispatch, Handled, Process, SameControl, OneDeeper, Valid;
      ProcessIsDispatch(State(), f);
      rcvd := rcvd + 1;
      HandleFrame(f);
    }

    method HandleFrame(f: Frame)
      requires Valid() && Encodable(f)
      modifies this, out, out.buf
      ensures SameControl(old(State()), Handled(old(State()), f)) || OneDeeper(old(State()), Handled(old(State()), f))
      ensures Kept() && State() == Dispatch(old(State()), Handled(old(State()), f))
    {
      hide Dispatch, Engine.HandleOpen, Engine.HandleData, Engine.HandleEof, SameControl, OneDeeper, Valid;
      if f.kind == FRAME_OPEN {
        HandleOpen(f.sid, f.payload);
        return;
      } else if f.kind == FRAME_DATA {
        HandleData(f.sid, f.payload);
        return;
      } else if f.kind == FRAME_EOF {
        HandleEof(f.sid, |f.payload|);
        return;
      }
      HandleControl(f);
    }

    method HandleControl(f: Frame)
      requires Valid() && Encodable(f)
      modifies this, out, out.buf
      ensures SameControl(old(State()), HandledControl(old(State()), f))
      ensures Kept() && State() == Dispatch(old(State()), HandledControl(old(State()), f))
    {
      hide Dispatch, Engine.HandleReset, Engine.HandleWindow, Engine.ProtocolError, Valid;
      if f.kind == FRAME_RESET {
        HandleReset(f.sid, f.payload);
        return;
      } else if f.kind == FRAME_WINDOW {
        HandleWindow(f.sid, f.payload);
        return;
      } else if f.kind == FRAME_GOAWAY {
        HandleGoaway();
        return;
      }
      ErrorFrame(State(), NotSupported);
      ProtocolError(NotSupported);
    }

    method HandleGoaway()
      requires Valid()
      modifies this, out, out.buf
      ensures SameControl(old(State()), Engine.HandleGoaway(old(State())))
      ensures Kept() && State() == Dispatch(old(State()), Engine.HandleGoaway(old(State())))
    {
      hide Dispatch;
      ghost var s := State();
      goawayReceived := true;
      DispatchEvent(s, State(), Disconnected);
      Emit(Disconnected);
    }
  }

  /** What the handler of a frame does, up to the callback of its event. */
  function Handled(s: Sess, f: Frame): Sess
    requires Encodable(f)
  {
    if f.kind == FRAME_OPEN then Engine.HandleOpen(s, f.sid, f.payload)
    else if f.kind == FRAME_DATA then Engine.HandleData(s, f.sid, f.payload)
    else if f.kind == FRAME_EOF then Engine.HandleEof(s, f.sid, |f.payload|)
    else HandledControl(s, f)
  }

  function HandledControl(s: Sess, f: Frame): Sess {
    if f.kind == FRAME_RESET then Engine.HandleReset(s, f.sid, f.payload)
    else if f.kind == FRAME_WINDOW then Engine.HandleWindow(s, f.sid, f.payload)
    else if f.kind == FRAME_GOAWAY then Engine.HandleGoaway(s)
    else Engine.ProtocolError(s, NotSupported)
  }

  /** Processing a frame is dispatching its handler, once the frame is counted. */
  lemma ProcessIsDispatch(s: Sess, f: Frame)
    requires Encodable(f)
    ensures var s1 := s.(rcvd := s.rcvd + 1);
      (SameControl(s1, Handled(s1, f)) || OneDeeper(s1, Handled(s1, f))) && Process(s, f) == Dispatch(s1, Handled(s1, f))
  {
    hide Dispatch, Handled, Receive, OneDeeper, RunCallback, RunCalls;
    var s1 := s.(rcvd := s.rcvd + 1);
    HandledIsReceive(s, f);
    ReceiveFrame(s, f);
    DeeperFrom(s1, s, Receive(s, f));
    DispatchFrom(s, s1, Receive(s, f));
  }

  lemma HandledIsReceive(s: Sess, f: Frame)
    requires Encodable(f)
    ensures Receive(s, f) == Handled(s.(rcvd := s.rcvd + 1), f)
  {
    hide Engine.HandleOpen, Engine.HandleData, Engine.HandleEof, Engine.HandleReset, Engine.HandleWindow, Engine.HandleGoaway, Engine.ProtocolError;
  }

  // ---- facts about the specification ------------------------------------------

  lemma ChunksHead(id: u16, data: seq<byte>, n: nat)
    requires n == if |data| > MAX_CHUNK then MAX_CHUNK else |data|
    ensures data == [] ==> Chunks(id, data) == []
    ensures data != [] ==> Chunks(id, data) == [Frame(FRAME_DATA, id, data[..n])] + Chunks(id, data[n..])
  {
  }

  lemma FlushOfNothing(s: Sess, id: u16)
    requires id in s.streams && s.streams[id].creditPending == 0
    ensures Engine.FlushCredit(s, id) == s
  {
    assert s.streams[id := s.streams[id]] == s.streams;
    assert s.sent + [] == s.sent;
  }

  /** The session as the callback for its held bytes returns, the delivery taken off the stack. */
  ghost function AfterHeld(s: Sess, id: u16): Sess
    requires id in s.streams
  {
    RunCallback(GiveHeld(s, id)).(stack := s.stack)
  }

  /** And once those bytes are consumed, and the end reported if it has come. */
  ghost function HeldResumed(s: Sess, id: u16): Sess
    requires id in s.streams
  {
    var u := AfterHeld(s, id);
    if id !in u.streams || u.streams[id].reset then u
    else Resettled(u, id, |s.streams[id].held| % 0x1_0000_0000)
  }

  ghost function Resettled(u: Sess, id: u16, n: u32): Sess
    requires id in u.streams
  {
    var v := Engine.CreditConsume(Put(u, id, u.streams[id].(held := [])), id, n);
    if id in v.streams && v.streams[id].finishedRecv && v.streams[id].held == []
    then RunCallback(Engine.DeliverFinished(v, id)) else v
  }

  lemma ConsumeKeepsStream(s: Sess, id: u16, n: u32)
    requires id in s.streams
    ensures var t := Engine.CreditConsume(s, id, n);
      && t.trace == s.trace && t.script == s.script && id in t.streams
      && t.streams[id].held == s.streams[id].held && t.streams[id].finishedRecv == s.streams[id].finishedRecv
  {
  }

  lemma FinishedIsLogged(s: Sess, id: u16)
    requires id in s.streams
    ensures |Engine.DeliverFinished(s, id).trace| == |s.trace| + 1
  {
  }

  /** What `resume` amounts to, branch by branch. */
  lemma PerformResume(s: Sess, id: u16)
    requires id in s.streams
    ensures var st := s.streams[id];
      var s1 := Put(s, id, st.(paused := false));
      Perform(s, Resume(id)) ==
        if st.local || !st.paused then s
        else if st.held == [] then (if st.finishedRecv then RunCallback(Engine.DeliverFinished(s1, id)) else s1)
        else HeldResumed(s1, id)
  {
    hide RunCallback, Engine.DeliverFinished, Engine.CreditConsume, GiveHeld, HeldResumed;
    var st := s.streams[id];
    var s1 := Put(s, id, st.(paused := false));
    ApplyFrame(s, Resume(id));
    if st.local || !st.paused {
    } else if st.held == [] {
      if st.finishedRecv {
        FinishedIsLogged(s1, id);
        DeliverFinishedFrame(s1, id);
      }
    } else {
      HeldReturns(s, id);
    }
  }

  lemma HeldReturns(s: Sess, id: u16)
    requires id in s.streams && !s.streams[id].local && s.streams[id].paused && s.streams[id].held != []
    ensures Perform(s, Resume(id)) == HeldResumed(Put(s, id, s.streams[id].(paused := false)), id)
  {
    hide RunCallback, Engine.DeliverFinished, Engine.CreditConsume;
    var n: u32 := |s.streams[id].held| % 0x1_0000_0000;
    var s1 := Put(s, id, s.streams[id].(paused := false));
    var t := GiveHeld(s1, id);
    var u := RunCallback(t);
    assert u.stack == s.stack + [Resuming(id, n)];
    assert u.stack[..|u.stack| - 1] == s.stack;
    var w := AfterHeld(s1, id);
    assert Return(u) == Returned(w, Resuming(id, n));
    if id in w.streams && !w.streams[id].reset {
      var x := Put(w, id, w.streams[id].(held := []));
      ConsumeKeepsStream(x, id, n);
      FinishedIsLogged(Engine.CreditConsume(x, id, n), id);
    }
  }

  // ---- dispatching, case by case ------------------------------------------------

  lemma DispatchSame(s: Sess)
    ensures Dispatch(s, s) == s
  {
  }

  lemma DispatchQuiet(s: Sess, t: Sess)
    requires SameControl(s, t) && t.trace == s.trace
    ensures Dispatch(s, t) == t
  {
  }

  lemma DispatchEvent(s: Sess, t: Sess, e: Event)
    requires SameControl(s, t) && t.trace == s.trace
    ensures Dispatch(s, Log(t, e)) == RunCallback(Log(t, e))
  {
  }

  lemma DispatchFinished(s: Sess, t: Sess, id: u16)
    requires SameControl(s, t) && t.trace == s.trace && id in t.streams
    ensures SameControl(s, Engine.DeliverFinished(t, id))
    ensures Dispatch(s, Engine.DeliverFinished(t, id)) == RunCallback(Engine.DeliverFinished(t, id))
  {
    FinishedIsLogged(t, id);
    DeliverFinishedFrame(t, id);
  }

  /** Dispatching looks only at the stack and the trace of the state before. */
  lemma DispatchFrom(s: Sess, s1: Sess, t: Sess)
    requires SameControl(s, s1) && s1.trace == s.trace && (SameControl(s, t) || OneDeeper(s, t))
    ensures SameControl(s1, t) || OneDeeper(s1, t)
    ensures Dispatch(s1, t) == Dispatch(s, t)
  {
  }

  ghost function Delivery(s: Sess, sid: u16, payload: seq<byte>): Sess
    requires |payload| < 0x1_0000
  {
    s.(trace := s.trace + [Data(sid, payload)], stack := s.stack + [Delivering(sid, |payload|)])
  }

  ghost function Delivered(s: Sess, sid: u16, payload: seq<byte>): Sess
    requires |payload| < 0x1_0000
  {
    var u := RunCallback(Delivery(s, sid, payload)).(stack := s.stack);
    if sid !in u.streams || u.streams[sid].reset then u else Engine.CreditConsume(u, sid, |payload|)
  }

  lemma DataReturns(s: Sess, sid: u16, payload: seq<byte>)
    requires |payload| < 0x1_0000 && sid in s.streams
    requires var st := s.streams[sid];
      !st.reset && !st.local && !st.finishedRecv && !st.paused && st.recvOutstanding as int + |payload| <= s.window
    ensures OneDeeper(s, Engine.HandleData(s, sid, payload))
    ensures var s1 := Put(s, sid, s.streams[sid].(recvOutstanding := s.streams[sid].recvOutstanding as int + |payload|));
      Dispatch(s, Engine.HandleData(s, sid, payload)) == Delivered(s1, sid, payload)
  {
    hide RunCallback, Delivered, Dispatch, Engine.HandleData, OneDeeper;
    var s1 := Put(s, sid, s.streams[sid].(recvOutstanding := s.streams[sid].recvOutstanding as int + |payload|));
    DataIsDelivery(s, sid, payload);
    DeliveryReturns(s, s1, sid, payload);
  }

  lemma DataIsDelivery(s: Sess, sid: u16, payload: seq<byte>)
    requires |payload| < 0x1_0000 && sid in s.streams
    requires var st := s.streams[sid];
      !st.reset && !st.local && !st.finishedRecv && !st.paused && st.recvOutstanding as int + |payload| <= s.window
    ensures Engine.HandleData(s, sid, payload) ==
      Delivery(Put(s, sid, s.streams[sid].(recvOutstanding := s.streams[sid].recvOutstanding as int + |payload|)), sid, payload)
  {
  }

  lemma DeliveryReturns(s: Sess, s1: Sess, sid: u16, payload: seq<byte>)
    requires |payload| < 0x1_0000 && s1.script == s.script && s1.stack == s.stack && s1.trace == s.trace
    ensures OneDeeper(s, Delivery(s1, sid, payload))
    ensures Dispatch(s, Delivery(s1, sid, payload)) == Delivered(s1, sid, payload)
  {
    hide RunCallback, Engine.CreditConsume;
    var t := Delivery(s1, sid, payload);
    assert OneDeeper(s, t);
    var u := RunCallback(t);
    assert u.stack == s.stack + [Delivering(sid, |payload|)];
    assert u.stack[..|u.stack| - 1] == s.stack;
    var w := u.(stack := s.stack);
    assert Return(u) == Returned(w, Delivering(sid, |payload|));
    if sid in w.streams && !w.streams[sid].reset {
      ConsumeKeepsStream(w, sid, |payload|);
    }
  }
}
