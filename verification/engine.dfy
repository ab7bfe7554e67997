/**
 The data-plane engine of one session as a state machine on values.

 A session's events are dispatched inline: the callback may call the stream API before the handler that
 raised the event goes on. So a handler that still has work to do after its event is split in two steps,
 with `stack` holding what the C call stack would hold in between: the deliveries whose callback is running.
 */
module Engine {
  import opened Wire

  const MAX_CHUNK: nat := 4096
  const MAX_STREAMS: nat := 16
  const ESP_OK: u32 := 0
  const ESP_ERR_NO_MEM: u32 := 0x101

  datatype Role = Host | Client

  datatype Code = InvalidArg | InvalidSize | InvalidState | NotSupported

  datatype Stream = Stream(
    local: bool,
    reset: bool,
    sendWindow: u32,
    finishedSent: bool,
    paused: bool,
    finishedRecv: bool,
    recvOutstanding: u32,
    creditPending: u32,
    held: seq<byte>)

  datatype Opts = Opts(kind: u16, hint: u64)

  datatype Event =
    | Connected
    | Disconnected
    | Failed(code: Code)
    | Opened(id: u16, opts: Opts)
    | Data(id: u16, bytes: seq<byte>)
    | Finished(id: u16)
    | Writable(id: u16)
    | WasReset(id: u16, reason: u32)

  /** A delivery whose STREAM_DATA callback is running, and the byte count it will consume on return. */
  datatype Pend = Delivering(id: u16, n: u32) | Resuming(id: u16, n: u32)

  datatype Call =
    | Open(opts: Opts)
    | Write(id: u16, data: seq<byte>)
    | Finish(id: u16)
    | Reset(id: u16, reason: u32)
    | Pause(id: u16)
    | Resume(id: u16)
    | Release(id: u16)
    | Close

  /**
   One session. `sent` is every frame enqueued so far and `rcvd` how many of the peer's frames were processed;
   `opens`, `opts` and `wrote` record what was asked of the open and write calls, `reentered` whether a callback
   resumed the very stream whose held data it was being given, `script` what the next callbacks will call.
   */
  datatype Sess = Sess(
    role: Role,
    window: u32,
    nextTxId: u16,
    streams: map<u16, Stream>,
    error: bool,
    goawayReceived: bool,
    goawaySent: bool,
    closing: bool,
    sent: seq<Frame>,
    rcvd: nat,
    trace: seq<Event>,
    opens: nat,
    opts: map<u16, Opts>,
    wrote: map<u16, seq<byte>>,
    stack: seq<Pend>,
    reentered: bool,
    script: seq<seq<Call>>)

  function Base(role: Role): u16 {
    if role == Host then 2 else 1
  }

  function NewSession(role: Role, window: u32): Sess {
    Sess(role, window, Base(role), map[], false, false, false, false, [], 0, [], 0, map[], map[], [], false, [])
  }

  // ---- 32-bit arithmetic --------------------------------------------------

  function Add32(a: u32, b: u32): u32 {
    (a as int + b) % 0x1_0000_0000
  }

  function Sub32(a: u32, b: u32): u32 {
    (a as int - b) % 0x1_0000_0000
  }

  // ---- streams ------------------------------------------------------------

  function NewStream(local: bool, sendWindow: u32): Stream {
    Stream(local, false, sendWindow, false, false, false, 0, 0, [])
  }

  function Threshold(window: u32): u32 {
    if window / 2 == 0 then 1 else window / 2
  }

  function Flushed(st: Stream): Stream {
    st.(recvOutstanding := Sub32(st.recvOutstanding, st.creditPending), creditPending := 0)
  }

  function CreditFrames(id: u16, st: Stream): seq<Frame> {
    if st.creditPending == 0 then [] else [Frame(FRAME_WINDOW, id, Wr32(st.creditPending))]
  }

  /** credit_consume: what becomes of the stream, and the WINDOW frame it sends if any. */
  function Consumed(window: u32, id: u16, st: Stream, n: u32): (Stream, seq<Frame>) {
    var st1 := st.(creditPending := Add32(st.creditPending, n));
    if st1.creditPending >= Threshold(window) then (Flushed(st1), CreditFrames(id, st1)) else (st1, [])
  }

  /** The DATA frames `write` cuts the accepted bytes into. */
  function Chunks(id: u16, data: seq<byte>): seq<Frame> {
    if data == [] then []
    else
      var n := if |data| > MAX_CHUNK then MAX_CHUNK else |data|;
      [Frame(FRAME_DATA, id, data[..n])] + Chunks(id, data[n..])
  }

  // ---- session updates ----------------------------------------------------

  function Enqueue(s: Sess, fs: seq<Frame>): Sess {
    s.(sent := s.sent + fs)
  }

  function Log(s: Sess, e: Event): Sess {
    s.(trace := s.trace + [e])
  }

  function Put(s: Sess, id: u16, st: Stream): Sess {
    s.(streams := s.streams[id := st])
  }

  function ProtocolError(s: Sess, code: Code): Sess {
    if s.error then s else Log(s.(error := true), Failed(code))
  }

  function FlushCredit(s: Sess, id: u16): Sess
    requires id in s.streams
  {
    var st := s.streams[id];
    Enqueue(Put(s, id, Flushed(st)), CreditFrames(id, st))
  }

  function CreditConsume(s: Sess, id: u16, n: u32): Sess
    requires id in s.streams
  {
    var (st, fs) := Consumed(s.window, id, s.streams[id], n);
    Enqueue(Put(s, id, st), fs)
  }

  function DeliverFinished(s: Sess, id: u16): Sess
    requires id in s.streams
  {
    Log(FlushCredit(s, id), Finished(id))
  }

  // ---- inbound frames -----------------------------------------------------

  function PeerParity(role: Role): u16 {
    if role == Host then 1 else 0
  }

  function HandleOpen(s: Sess, sid: u16, payload: seq<byte>): Sess {
    if sid == 0 || sid % 2 != PeerParity(s.role) then ProtocolError(s, InvalidArg)
    else if |payload| != 10 then ProtocolError(s, InvalidSize)
    else if sid in s.streams then ProtocolError(s, InvalidState)
    else if |s.streams| >= MAX_STREAMS then Enqueue(s, [Frame(FRAME_RESET, sid, Wr32(ESP_ERR_NO_MEM))])
    else Log(Put(s, sid, NewStream(false, 0)), Opened(sid, Opts(Rd16(payload[..2]), Rd64(payload[2..]))))
  }

  /** Up to the STREAM_DATA callback; `Return` does the rest. */
  function HandleData(s: Sess, sid: u16, payload: seq<byte>): Sess
    requires |payload| < 0x1_0000
  {
    if sid !in s.streams || s.streams[sid].reset then s
    else
      var st := s.streams[sid];
      if st.local || st.finishedRecv then ProtocolError(s, InvalidState)
      else if st.recvOutstanding as int + |payload| > s.window then ProtocolError(s, InvalidSize)
      else
        var st1 := st.(recvOutstanding := st.recvOutstanding as int + |payload|);
        if st.paused then Put(s, sid, st1.(held := st.held + payload))
        else
          var s1 := Log(Put(s, sid, st1), Data(sid, payload));
          s1.(stack := s1.stack + [Delivering(sid, |payload|)])
  }

  function HandleEof(s: Sess, sid: u16, plen: nat): Sess {
    if plen != 0 then ProtocolError(s, InvalidSize)
    else if sid !in s.streams || s.streams[sid].reset then s
    else
      var st := s.streams[sid];
      if st.local || st.finishedRecv then ProtocolError(s, InvalidState)
      else
        var s1 := Put(s, sid, st.(finishedRecv := true));
        if !st.paused && st.held == [] then DeliverFinished(s1, sid) else s1
  }

  function HandleReset(s: Sess, sid: u16, payload: seq<byte>): Sess {
    if |payload| != 4 then ProtocolError(s, InvalidSize)
    else if sid !in s.streams || s.streams[sid].reset then s
    else Log(Put(s, sid, s.streams[sid].(reset := true)), WasReset(sid, Rd32(payload)))
  }

  function HandleWindow(s: Sess, sid: u16, payload: seq<byte>): Sess {
    if |payload| != 4 then ProtocolError(s, InvalidSize)
    else if sid !in s.streams || s.streams[sid].reset then s
    else
      var st := s.streams[sid];
      if !st.local then ProtocolError(s, InvalidState) else Grant(s, sid, Rd32(payload))
  }

  function Grant(s: Sess, sid: u16, credit: u32): Sess
    requires sid in s.streams
  {
    var st := s.streams[sid];
    var st1 := st.(sendWindow := Add32(st.sendWindow, credit));
    var s1 := Put(s, sid, st1);
    if !st.finishedSent && st.sendWindow == 0 && st1.sendWindow > 0 then Log(s1, Writable(sid)) else s1
  }

  function HandleGoaway(s: Sess): Sess {
    Log(s.(goawayReceived := true), Disconnected)
  }

  /** process_frame, up to the callback of its event. */
  function Receive(s: Sess, f: Frame): Sess
    requires Encodable(f)
  {
    var s1 := s.(rcvd := s.rcvd + 1);
    if f.kind == FRAME_OPEN then HandleOpen(s1, f.sid, f.payload)
    else if f.kind == FRAME_DATA then HandleData(s1, f.sid, f.payload)
    else if f.kind == FRAME_EOF then HandleEof(s1, f.sid, |f.payload|)
    else if f.kind == FRAME_RESET then HandleReset(s1, f.sid, f.payload)
    else if f.kind == FRAME_WINDOW then HandleWindow(s1, f.sid, f.payload)
    else if f.kind == FRAME_GOAWAY then HandleGoaway(s1)
    else ProtocolError(s1, NotSupported)
  }

  // ---- stream operations --------------------------------------------------

  function OpenStream(s: Sess, o: Opts): Sess {
    if s.closing || s.error || |s.streams| >= MAX_STREAMS then s
    else
      var id := s.nextTxId;
      var s1 := s.(nextTxId := (id as int + 2) % 0x1_0000, opens := s.opens + 1,
                   opts := s.opts[id := o], wrote := s.wrote[id := []]);
      Enqueue(Put(s1, id, NewStream(true, s.window)), [Frame(FRAME_OPEN, id, Wr16(o.kind) + Wr64(o.hint))])
  }

  /** How many bytes `write` accepts: as many as fit the send window. */
  function Accepted(st: Stream, data: seq<byte>): u32 {
    if !st.local || st.finishedSent || st.reset then 0
    else if |data| < st.sendWindow then |data| else st.sendWindow
  }

  function WriteStream(s: Sess, id: u16, data: seq<byte>): Sess
    requires id in s.streams
  {
    var st := s.streams[id];
    if !st.local || st.finishedSent || st.reset then s
    else
      var n := Accepted(st, data);
      var s1 := Put(s, id, st.(sendWindow := st.sendWindow - n));
      var before := if id in s.wrote then s.wrote[id] else [];
      Enqueue(s1.(wrote := s.wrote[id := before + data[..n]]), Chunks(id, data[..n]))
  }

  function FinishStream(s: Sess, id: u16): Sess
    requires id in s.streams
  {
    var st := s.streams[id];
    if !st.local || st.finishedSent || st.reset then s
    else Enqueue(Put(s, id, st.(finishedSent := true)), [Frame(FRAME_EOF, id, [])])
  }

  function ResetStream(s: Sess, id: u16, reason: u32): Sess
    requires id in s.streams
  {
    var st := s.streams[id];
    if st.reset then s
    else Enqueue(Put(s, id, st.(reset := true)), [Frame(FRAME_RESET, id, Wr32(reason))])
  }

  function PauseStream(s: Sess, id: u16): Sess
    requires id in s.streams
  {
    var st := s.streams[id];
    if st.local then s else Put(s, id, st.(paused := true))
  }

  predicate IsResuming(stack: seq<Pend>, id: u16) {
    exists p <- stack :: p.Resuming? && p.id == id
  }

  /** The held bytes go to the STREAM_DATA callback. */
  function GiveHeld(s: Sess, id: u16): Sess
    requires id in s.streams
  {
    var held := s.streams[id].held;
    s.(trace := s.trace + [Data(id, held)],
       stack := s.stack + [Resuming(id, |held| % 0x1_0000_0000)],
       reentered := s.reentered || IsResuming(s.stack, id))
  }

  /** Up to the STREAM_DATA callback for the held bytes, if there are any; `Return` does the rest. */
  function ResumeStream(s: Sess, id: u16): Sess
    requires id in s.streams
  {
    var st := s.streams[id];
    if st.local || !st.paused then s
    else
      var s1 := Put(s, id, st.(paused := false));
      if |st.held| > 0 then GiveHeld(s1, id)
      else if st.finishedRecv then DeliverFinished(s1, id)
      else s1
  }

  predicate OpenState(st: Stream) {
    !st.reset && (if st.local then !st.finishedSent else !st.finishedRecv)
  }

  function ReleaseStream(s: Sess, id: u16): Sess
    requires id in s.streams
  {
    var fs := if OpenState(s.streams[id]) && !s.closing && !s.error
              then [Frame(FRAME_RESET, id, Wr32(ESP_OK))] else [];
    Enqueue(s.(streams := s.streams - {id}), fs)
  }

  function CloseSession(s: Sess): Sess {
    var s1 := if !s.goawaySent && !s.error
              then Enqueue(s.(goawaySent := true), [Frame(FRAME_GOAWAY, 0, Wr32(ESP_OK))]) else s;
    s1.(closing := true)
  }

  /** A stream pointer is good until its release. */
  predicate Callable(s: Sess, c: Call) {
    match c
    case Open(_) => true
    case Close => true
    case _ => c.id in s.streams
  }

  function Apply(s: Sess, c: Call): Sess
    requires Callable(s, c)
  {
    match c
    case Open(o) => OpenStream(s, o)
    case Write(id, data) => WriteStream(s, id, data)
    case Finish(id) => FinishStream(s, id)
    case Reset(id, reason) => ResetStream(s, id, reason)
    case Pause(id) => PauseStream(s, id)
    case Resume(id) => ResumeStream(s, id)
    case Release(id) => ReleaseStream(s, id)
    case Close => CloseSession(s)
  }

  // ---- returning from a STREAM_DATA callback -------------------------------

  function Returned(s: Sess, p: Pend): Sess {
    if p.id !in s.streams || s.streams[p.id].reset then s
    else if p.Delivering? then CreditConsume(s, p.id, p.n)
    else
      var s1 := CreditConsume(Put(s, p.id, s.streams[p.id].(held := [])), p.id, p.n);
      if s1.streams[p.id].finishedRecv then DeliverFinished(s1, p.id) else s1
  }

  function Return(s: Sess): Sess
    requires s.stack != []
  {
    Returned(s.(stack := s.stack[..|s.stack| - 1]), s.stack[|s.stack| - 1])
  }

  /** host_on_connected: the transport is up. */
  function Connect(s: Sess): Sess {
    if s.closing || s.error then s else Log(s, Connected)
  }

  // ---- steps --------------------------------------------------------------

  datatype Act =
    | Api(call: Call)
    | Recv(frame: Frame)
    | Ret
    | Up
    | Prepare(script: seq<seq<Call>>)
    | NextCallback

  /** Frames are fed only outside callbacks, and neither a failed nor a closing session looks at them. */
  predicate Enabled(s: Sess, a: Act) {
    match a
    case Api(c) => Callable(s, c)
    case Recv(f) => Encodable(f) && s.stack == [] && !s.error && !s.closing
    case Ret => s.stack != []
    case Up => true
    case Prepare(_) => true
    case NextCallback => s.script != []
  }

  function Do(s: Sess, a: Act): Sess
    requires Enabled(s, a)
  {
    match a
    case Api(c) => Apply(s, c)
    case Recv(f) => Receive(s, f)
    case Ret => Return(s)
    case Up => Connect(s)
    case Prepare(cs) => s.(script := cs)
    case NextCallback => s.(script := s.script[1..])
  }
}
