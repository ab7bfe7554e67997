/**
 The card exchange on one side: what the application does in the callbacks of its session. HELLO says what each side
 offers and wants, CARD carries the share PDF, and ACK says that the peer's card has been received in full.
 */
module Transfer {
  import opened Options
  import opened Wire
  import opened Engine

  const KIND_HELLO: u16 := 1
  const KIND_CARD: u16 := 2
  const KIND_ACK: u16 := 3
  const HELLO_VERSION: u16 := 1
  const HELLO_HEAD: nat := 6
  const NAME_MAX: nat := 200
  const HELLO_RX_MAX: nat := 256
  const CHUNK: nat := 4096

  // ---- the share PDF, read once and forward -----------------------------------

  /** `pdf` is what the source file holds, `end` how much of it is shared, `grants` how much successive reads yield at most. */
  datatype Share = Share(pdf: seq<byte>, end: nat, pos: nat, error: bool, grants: seq<nat>)

  ghost predicate ShareOk(sh: Share) {
    sh.pos <= sh.end && sh.pos <= |sh.pdf|
  }

  function Remaining(sh: Share): nat
    requires sh.pos <= sh.end
  {
    sh.end - sh.pos
  }

  /** What the file gives when asked for `want` bytes at the position: no more than there are, and no more than granted. */
  function Yield(sh: Share, want: nat): (got: nat)
    requires sh.pos <= |sh.pdf|
    ensures got <= want && sh.pos + got <= |sh.pdf|
  {
    var there := if want <= |sh.pdf| - sh.pos then want else |sh.pdf| - sh.pos;
    if sh.grants != [] && sh.grants[0] < there then sh.grants[0] else there
  }

  /** SharePdfStream::read: a short read latches the error. */
  function ReadShare(sh: Share, cap: nat): (seq<byte>, Share)
    requires sh.pos <= sh.end && sh.pos <= |sh.pdf|
  {
    var want := if Remaining(sh) < cap then Remaining(sh) else cap;
    if sh.error || want == 0 then ([], sh)
    else
      var got := Yield(sh, want);
      (sh.pdf[sh.pos..sh.pos + got],
       sh.(pos := sh.pos + got, error := got != want, grants := if sh.grants == [] then [] else sh.grants[1..]))
  }

  /**
   A read gives the next bytes of what is shared, moves on by as many, and fails exactly if they are fewer than fit and remain;
   after a failure, or at the end, it gives nothing.
   */
  lemma ReadSays(sh: Share, cap: nat)
    requires ShareOk(sh)
    ensures var (bytes, sh1) := ReadShare(sh, cap);
      var asked := if sh.end - sh.pos < cap then sh.end - sh.pos else cap;
      && |bytes| <= asked && sh.pos + |bytes| <= |sh.pdf| && bytes == sh.pdf[sh.pos..sh.pos + |bytes|]
      && ShareOk(sh1) && sh1.pos == sh.pos + |bytes| && sh1.pdf == sh.pdf && sh1.end == sh.end
      && (sh.error ==> bytes == [])
      && (sh1.error <==> sh.error || |bytes| < asked)
      && (!sh.error && sh.grants == [] ==> |bytes| == if asked <= |sh.pdf| - sh.pos then asked else |sh.pdf| - sh.pos)
  {
  }

  // ---- one side's state -------------------------------------------------------

  /**
   What the exchange starts from: `own` is the card to send, if there is a readable one, `canOpen` that the temporary file
   can be created, and `room` how many bytes it can grow to.
   */
  datatype Config = Config(offer: bool, accept: bool, name: seq<byte>, own: Option<Share>, canOpen: bool, room: nat)

  /** The sending side: the stream of the card, its source, the refillable buffer. `stuck` is a read that failed. */
  datatype Outgoing = Outgoing(card: Option<u16>, stream: Option<Share>, buf: seq<byte>, off: nat, done: bool, stuck: bool)

  /** The receiving side: the kind of each of the peer's streams, its HELLO, the temporary file and the room on its disk. */
  datatype Incoming = Incoming(kinds: map<u16, u16>, hello: seq<byte>, fileOpen: bool, file: seq<byte>, disk: nat, complete: bool)

  /** What was agreed: `ready` once the peer's HELLO was read. */
  datatype Agreed = Agreed(ready: bool, peerOffer: bool, peerAccept: bool, willSend: bool, willRecv: bool)

  /** `helloId` and `ackId` record the streams opened for HELLO and ACK, `seen` how many events have been handled. */
  datatype App = App(
    cfg: Config,
    deal: Agreed,
    out: Outgoing,
    inc: Incoming,
    connected: bool,
    helloSent: bool,
    helloId: Option<u16>,
    ackSent: bool,
    ackId: Option<u16>,
    gotPeerAck: bool,
    peerLeft: bool,
    failed: bool,
    seen: nat)

  function NewApp(cfg: Config): App {
    App(cfg, Agreed(false, false, false, false, false), Outgoing(None, None, [], 0, false, false),
        Incoming(map[], [], false, [], cfg.room, false), false, false, None, false, None, false, false, false, 0)
  }

  /** The application and its session. */
  datatype Side = Side(a: App, s: Sess)

  // ---- stream calls ---------------------------------------------------------

  /** dokan_stream_open gives a stream. */
  predicate CanOpen(s: Sess) {
    !s.closing && !s.error && |s.streams| < MAX_STREAMS
  }

  function FinishIfOpen(s: Sess, id: u16): Sess {
    if id in s.streams then FinishStream(s, id) else s
  }

  function WriteIfOpen(s: Sess, id: u16, data: seq<byte>): Sess {
    if id in s.streams then WriteStream(s, id, data) else s
  }

  function AcceptedOn(s: Sess, id: u16, data: seq<byte>): (n: nat)
    ensures n <= |data|
  {
    if id in s.streams then Accepted(s.streams[id], data) else 0
  }

  // ---- HELLO --------------------------------------------------------------

  function HelloBytes(c: Config): (h: seq<byte>)
    ensures HELLO_HEAD <= |h| <= HELLO_HEAD + NAME_MAX
    ensures (h[2] != 0 <==> c.offer) && (h[3] != 0 <==> c.accept)
  {
    var n := if |c.name| % 0x1_0000 > NAME_MAX then NAME_MAX else |c.name| % 0x1_0000;
    [HELLO_VERSION % 0x100, HELLO_VERSION / 0x100, if c.offer then 1 else 0, if c.accept then 1 else 0, n % 0x100, n / 0x100]
    + c.name[..n]
  }

  /** What a HELLO says: its version, its two flags as 0 or 1, and the name, whole if it has at most 200 bytes. */
  lemma HelloSays(c: Config)
    ensures var h, n := HelloBytes(c), |HelloBytes(c)| - 6;
      && h[0] + 0x100 * h[1] == 1
      && h[2] == (if c.offer then 1 else 0) && h[3] == (if c.accept then 1 else 0)
      && h[4] + 0x100 * h[5] == n
      && n == (if |c.name| % 0x1_0000 <= 200 then |c.name| % 0x1_0000 else 200) && h[6..] == c.name[..n]
  {
  }

  /** The loop of sendHello, with `guard` turns left: goes on until everything is written or nothing is accepted. */
  function HelloLoop(s: Sess, id: u16, rest: seq<byte>, guard: nat): Sess
    decreases guard
  {
    if guard == 0 || rest == [] then s
    else
      var w := AcceptedOn(s, id, rest);
      var s1 := WriteIfOpen(s, id, rest);
      if w == 0 then s1 else HelloLoop(s1, id, rest[w..], guard - 1)
  }

  function SendHello(t: Side): Side {
    if t.a.helloSent then t
    else if !CanOpen(t.s) then t.(a := t.a.(helloSent := true, failed := true))
    else
      var id, h := t.s.nextTxId, HelloBytes(t.a.cfg);
      var s1 := OpenStream(t.s, Opts(KIND_HELLO, |h|));
      Side(t.a.(helloSent := true, helloId := Some(id)), FinishIfOpen(HelloLoop(s1, id, h, 64), id))
  }

  // ---- sending the card -------------------------------------------------------

  /** The sender and the session it writes to. */
  datatype Pump = Pump(o: Outgoing, s: Sess)

  /** One turn of the loop of pumpSend stops it or lets it go on. */
  datatype Turn = Stop(p: Pump) | Again(p: Pump)

  ghost predicate PumpOk(o: Outgoing) {
    o.card.Some? && o.stream.Some? && ShareOk(o.stream.value) && o.off <= |o.buf|
  }

  function Refilled(o: Outgoing): Outgoing
    requires o.stream.Some? && o.stream.value.pos <= o.stream.value.end && o.stream.value.pos <= |o.stream.value.pdf|
  {
    var (bytes, sh) := ReadShare(o.stream.value, CHUNK);
    o.(stream := Some(sh), buf := bytes, off := 0)
  }

  function WriteTurn(p: Pump): Turn
    requires p.o.card.Some? && p.o.off <= |p.o.buf|
  {
    var id, rest := p.o.card.value, p.o.buf[p.o.off..];
    var w := AcceptedOn(p.s, id, rest);
    var p1 := Pump(p.o.(off := p.o.off + w), WriteIfOpen(p.s, id, rest));
    if w == 0 then Stop(p1) else Again(p1)
  }

  function PumpTurn(p: Pump): Turn
    requires PumpOk(p.o)
  {
    if p.o.off == |p.o.buf| then
      var o1 := Refilled(p.o);
      if o1.buf == [] then
        if Remaining(o1.stream.value) > 0 || o1.stream.value.error then Stop(p.(o := o1.(stuck := true)))
        else Stop(Pump(o1.(done := true), FinishIfOpen(p.s, p.o.card.value)))
      else WriteTurn(p.(o := o1))
    else WriteTurn(p)
  }

  /** Bytes still to be read or written. */
  ghost function ToSend(o: Outgoing): nat
    requires PumpOk(o)
  {
    Remaining(o.stream.value) + |o.buf| - o.off
  }

  lemma RefillProgress(o: Outgoing)
    requires PumpOk(o) && o.off == |o.buf|
    ensures PumpOk(Refilled(o)) && ToSend(Refilled(o)) == ToSend(o)
    ensures Refilled(o).card == o.card
  {
  }

  lemma WriteProgress(p: Pump)
    requires PumpOk(p.o)
    ensures PumpOk(WriteTurn(p).p.o)
    ensures WriteTurn(p).Again? ==> ToSend(WriteTurn(p).p.o) < ToSend(p.o)
  {
    hide WriteIfOpen, AcceptedOn;
  }

  lemma TurnProgress(p: Pump)
    requires PumpOk(p.o)
    ensures PumpOk(PumpTurn(p).p.o)
    ensures PumpTurn(p).Again? ==> ToSend(PumpTurn(p).p.o) < ToSend(p.o)
  {
    hide FinishIfOpen, Refilled, WriteTurn, ToSend;
    if p.o.off == |p.o.buf| {
      RefillProgress(p.o);
      if Refilled(p.o).buf != [] {
        WriteProgress(p.(o := Refilled(p.o)));
      }
    } else {
      WriteProgress(p);
    }
  }

  /** pumpSend: turn after turn until the window is full, the card is sent, or reading it fails. */
  function PumpSend(p: Pump): (r: Pump)
    requires PumpOk(p.o)
    ensures PumpOk(r.o)
    decreases ToSend(p.o)
  {
    TurnProgress(p);
    match PumpTurn(p)
    case Stop(p1) => p1
    case Again(p1) => PumpSend(p1)
  }

  function Pumped(t: Side): Side
    requires PumpOk(t.a.out)
  {
    var p := PumpSend(Pump(t.a.out, t.s));
    Side(t.a.(out := p.o, failed := t.a.failed || p.o.stuck), p.s)
  }

  // ---- acknowledging ----------------------------------------------------------

  function MaybeSendAck(t: Side): Side {
    if t.a.ackSent || !t.a.deal.ready then t
    else if t.a.deal.willRecv && !t.a.inc.complete then t
    else if CanOpen(t.s) then
      var id := t.s.nextTxId;
      Side(t.a.(ackSent := true, ackId := Some(id)), FinishIfOpen(OpenStream(t.s, Opts(KIND_ACK, 0)), id))
    else t.(a := t.a.(ackSent := true))
  }

  // ---- the peer's HELLO ---------------------------------------------------------

  predicate Heard(hello: seq<byte>, at: nat)
    requires at < HELLO_HEAD
  {
    |hello| >= HELLO_HEAD && hello[at] != 0
  }

  /** A card goes out if it is offered here, wanted there, and there is one. */
  predicate Sends(a: App) {
    a.cfg.offer && Heard(a.inc.hello, 3) && a.cfg.own.Some?
  }

  ghost predicate OwnOk(c: Config) {
    c.own.Some? ==> ShareOk(c.own.value) && c.own.value.pos == 0 && !c.own.value.error
  }

  /** The decision which way the cards go, and the CARD stream if it can be opened. */
  function StartCard(t: Side): Side {
    var a := t.a;
    var opens := Sends(a) && CanOpen(t.s);
    var deal := Agreed(true, Heard(a.inc.hello, 2), Heard(a.inc.hello, 3), opens, Heard(a.inc.hello, 2) && a.cfg.accept);
    var out := if opens then a.out.(stream := a.cfg.own, card := Some(t.s.nextTxId))
               else if Sends(a) then a.out.(stream := a.cfg.own) else a.out;
    Side(a.(deal := deal, out := out),
         if opens then OpenStream(t.s, Opts(KIND_CARD, a.cfg.own.value.end % 0x1_0000_0000_0000_0000)) else t.s)
  }

  function ParsePeerHello(t: Side): Side
    requires OwnOk(t.a.cfg) && t.a.out.off <= |t.a.out.buf|
  {
    var t1 := StartCard(t);
    MaybeSendAck(if t1.a.deal.willSend then Pumped(t1) else t1)
  }

  /** A card goes out on a stream of kind 2 whose hint is its size, an ACK is a stream of kind 3 that ends at once. */
  lemma CardAndAckAnnounced(t: Side)
    requires CanOpen(t.s) && OwnOk(t.a.cfg) && t.a.out.off <= |t.a.out.buf|
    ensures Sends(t.a) && t.a.cfg.own.value.end < 0x1_0000_0000_0000_0000 ==>
      StartCard(t).s.sent == t.s.sent + [Frame(1, t.s.nextTxId, Wr16(2) + Wr64(t.a.cfg.own.value.end))]
    ensures !t.a.ackSent && t.a.deal.ready && (t.a.deal.willRecv ==> t.a.inc.complete) ==>
      MaybeSendAck(t).s.sent == t.s.sent + [Frame(1, t.s.nextTxId, Wr16(3) + Wr64(0))] + [Frame(3, t.s.nextTxId, [])]
  {
    hide Wr16, Wr64, Heard;
  }

  // ---- the callbacks ----------------------------------------------------------

  function OnOpened(a: App, id: u16, o: Opts): App {
    var kinds := a.inc.kinds[id := o.kind];
    if o.kind == KIND_CARD then
      a.(inc := a.inc.(kinds := kinds, fileOpen := a.cfg.canOpen, file := []), failed := a.failed || !a.cfg.canOpen)
    else if o.kind == KIND_ACK then a.(inc := a.inc.(kinds := kinds), gotPeerAck := true)
    else a.(inc := a.inc.(kinds := kinds))
  }

  function KindOf(i: Incoming, id: u16): u16 {
    if id in i.kinds then i.kinds[id] else 0
  }

  function HelloRoom(i: Incoming): nat {
    if |i.hello| < HELLO_RX_MAX then HELLO_RX_MAX - |i.hello| else 0
  }

  function OnData(a: App, id: u16, bytes: seq<byte>): App {
    if KindOf(a.inc, id) == KIND_HELLO then
      var n := if |bytes| <= HelloRoom(a.inc) then |bytes| else HelloRoom(a.inc);
      a.(inc := a.inc.(hello := a.inc.hello + bytes[..n]))
    else if KindOf(a.inc, id) == KIND_CARD && a.inc.fileOpen then
      var w := if |bytes| <= a.inc.disk then |bytes| else a.inc.disk;
      a.(inc := a.inc.(file := a.inc.file + bytes[..w], disk := a.inc.disk - w), failed := a.failed || w != |bytes|)
    else a
  }

  function OnFinished(t: Side, id: u16): Side
    requires OwnOk(t.a.cfg) && t.a.out.off <= |t.a.out.buf|
  {
    if KindOf(t.a.inc, id) == KIND_HELLO then ParsePeerHello(t)
    else if KindOf(t.a.inc, id) == KIND_CARD then
      MaybeSendAck(t.(a := t.a.(inc := t.a.inc.(fileOpen := false, complete := true))))
    else t
  }

  function OnWritable(t: Side, id: u16): Side
    requires t.a.out.card.Some? ==> PumpOk(t.a.out)
  {
    if t.a.out.card == Some(id) then Pumped(t) else t
  }

  ghost predicate AppOk(a: App) {
    OwnOk(a.cfg) && a.out.off <= |a.out.buf| && (a.out.card.Some? ==> PumpOk(a.out))
  }

  /** The callback for event `e`. */
  function React(t: Side, e: Event): Side
    requires AppOk(t.a)
  {
    match e
    case Connected => SendHello(t.(a := t.a.(connected := true)))
    case Disconnected => t.(a := t.a.(peerLeft := true))
    case Failed(_) => t.(a := t.a.(failed := true))
    case WasReset(_, _) => t.(a := t.a.(failed := true))
    case Opened(id, o) => t.(a := OnOpened(t.a, id, o))
    case Data(id, bytes) => t.(a := OnData(t.a, id, bytes))
    case Finished(id) => OnFinished(t, id)
    case Writable(id) => OnWritable(t, id)
  }

  /** The next event is handled. */
  function Handle(t: Side): Side
    requires t.a.seen < |t.s.trace| && AppOk(t.a)
  {
    React(t.(a := t.a.(seen := t.a.seen + 1)), t.s.trace[t.a.seen])
  }

  // ---- closing ----------------------------------------------------------------

  /** What `poll` keeps between ticks: whether the received file was put in its place, and with what success. */
  datatype Polled = Polled(finalized: bool, recvOk: bool)

  datatype Verdict = Wait | Terminate(ok: bool)

  /** The file is finalized once, as soon as it is complete; `placed` is how that went. */
  function Finalized(a: App, p: Polled, placed: bool): Polled {
    if a.deal.willRecv && a.inc.complete && !p.finalized then Polled(true, placed) else p
  }

  predicate PeerHasOurCard(a: App) {
    !a.deal.willSend || a.gotPeerAck
  }

  /** One tick of `poll`; `expired` is that the time to wait for the ACK has passed. */
  function Poll(a: App, p: Polled, placed: bool, expired: bool): (Polled, Verdict) {
    if !a.connected then (p, if a.failed then Terminate(false) else Wait)
    else if !a.deal.ready then (p, if a.failed || a.peerLeft then Terminate(false) else Wait)
    else
      var p1 := Finalized(a, p, placed);
      if (!a.deal.willSend || a.out.done) && (!a.deal.willRecv || p1.finalized) then
        (p1, if PeerHasOurCard(a) || a.peerLeft || a.failed || expired then Terminate(p1.recvOk) else Wait)
      else
        var short := (a.deal.willRecv && !a.inc.complete) || (a.deal.willSend && !a.out.done);
        (p1, if (a.failed || a.peerLeft) && short then Terminate(false) else Wait)
  }
}
