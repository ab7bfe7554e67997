/**
 The transfer screen as the source has it: an object whose callbacks set flags, refill a send buffer and fill a
 HELLO buffer in place, on top of a session object. Each method is tied to the functions of `Transfer`.
 */
module Screens {
  import opened Options
  import opened Wire
  import opened Engine
  import opened Sessions
  import opened Transfer

  class ShareStream {
    const source: seq<byte>
    const end: nat
    var pos: nat
    var error: bool
    /** What successive reads of the file yield at most. */
    var grants: seq<nat>

    ghost predicate Valid()
      reads this
    {
      pos <= end && pos <= |source|
    }

    ghost function State(): Share
      reads this
    {
      Share(source, end, pos, error, grants)
    }

    constructor (share: Share)
      requires ShareOk(share)
      ensures Valid() && State() == share
    {
      source, end, pos, error, grants := share.pdf, share.end, share.pos, share.error, share.grants;
    }

    /** fread, or read_blob_range: perhaps fewer bytes than asked for. */
    method Fetch(buf: array<byte>, want: nat) returns (got: nat)
      requires Valid() && want <= buf.Length
      modifies `grants, buf
      ensures got == Yield(old(State()), want)
      ensures buf[..got] == source[pos..pos + got]
      ensures grants == if old(grants) == [] then [] else old(grants)[1..]
    {
      got := if want <= |source| - pos then want else |source| - pos;
      if grants != [] {
        if grants[0] < got {
          got := grants[0];
        }
        grants := grants[1..];
      }
      forall i | 0 <= i < got {
        buf[i] := source[pos + i];
      }
    }

    method Read(buf: array<byte>, cap: nat) returns (got: nat)
      requires Valid() && cap <= buf.Length
      modifies this, buf
      ensures Valid() && got <= cap
      ensures (buf[..got], State()) == ReadShare(old(State()), cap)
    {
      if error {
        return 0;
      }
      var want := end - pos;
      if want > cap {
        want := cap;
      }
      if want == 0 {
        return 0;
      }
      got := Fetch(buf, want);
      pos := pos + got;
      if got != want {
        error := true;
      }
    }
  }

  class TransferScreen {
    const cfg: Config
    const session: Session
    const sendBuf: array<byte>
    const helloRx: array<byte>

    /** What was agreed: the flags set as the peer's HELLO is read. */
    var deal: Agreed
    // The card on its way out.
    var sendStream: ShareStream?
    var cardOut: Option<u16>
    var sendBufLen: nat
    var sendBufOff: nat
    var sendDone: bool
    ghost var stuck: bool
    // What comes in; `users` is the kind kept as each stream's user pointer.
    var users: map<u16, u16>
    var helloRxLen: nat
    var fileOpen: bool
    var file: seq<byte>
    var disk: nat
    var inboundComplete: bool
    // The rest.
    var connected: bool
    var helloSent: bool
    ghost var helloId: Option<u16>
    var ackSent: bool
    ghost var ackId: Option<u16>
    var gotPeerAck: bool
    var peerLeft: bool
    var failed: bool
    ghost var seen: nat
    // What `poll` keeps between ticks.
    var recvFinalized: bool
    var recvOk: bool

    ghost predicate Shaped()
      reads `sendBufOff, `sendBufLen, `helloRxLen, `sendStream, `cardOut, `stuck, `failed, sendBuf, helloRx, sendStream
    {
      && sendBuf.Length == CHUNK && helloRx.Length == HELLO_RX_MAX
      && sendBufOff <= sendBufLen <= CHUNK && helloRxLen <= HELLO_RX_MAX
      && (sendStream != null ==> sendStream.Valid())
      && (cardOut.Some? ==> sendStream != null)
      && (stuck ==> failed)
      && OwnOk(cfg)
    }

    ghost predicate Valid()
      reads session, session.out, session.out.buf
      reads `sendBufOff, `sendBufLen, `helloRxLen, `sendStream, `cardOut, `stuck, `failed, sendBuf, helloRx, sendStream
    {
      && Shaped() && session.Valid()
      && sendBuf != helloRx && sendBuf != session.out.buf && helloRx != session.out.buf
    }

    ghost function Out(): Outgoing
      requires sendBufLen <= sendBuf.Length
      reads `cardOut, `sendStream, `sendBufLen, `sendBufOff, `sendDone, `stuck, sendBuf, sendStream
    {
      Outgoing(cardOut, if sendStream == null then None else Some(sendStream.State()), sendBuf[..sendBufLen], sendBufOff, sendDone, stuck)
    }

    ghost function Inc(): Incoming
      requires helloRxLen <= helloRx.Length
      reads `users, `helloRxLen, `fileOpen, `file, `disk, `inboundComplete, helloRx
    {
      Incoming(users, helloRx[..helloRxLen], fileOpen, file, disk, inboundComplete)
    }

    ghost function View(): App
      requires Shaped()
      reads this, sendBuf, helloRx, sendStream
    {
      App(cfg, deal, Out(), Inc(),
          connected, helloSent, helloId, ackSent, ackId, gotPeerAck, peerLeft, failed, seen)
    }

    ghost function State(): Side
      requires Valid()
      reads this, session, session.out, session.out.buf, sendBuf, helloRx, sendStream
    {
      Side(View(), session.State())
    }

    twostate predicate Kept()
      reads this, session, session.out, session.out.buf, sendBuf, helloRx, sendStream
    {
      && Valid()
      && (session.out.buf == old(session.out.buf) || fresh(session.out.buf))
      && (sendStream == old(sendStream) || (sendStream != null && fresh(sendStream)))
    }

    constructor (cfg: Config, session: Session)
      requires session.Valid() && OwnOk(cfg)
      ensures Valid() && this.session == session && State() == Side(NewApp(cfg), session.State())
      ensures fresh(sendBuf) && fresh(helloRx)
      ensures !recvFinalized && recvOk
    {
      this.cfg, this.session, this.disk := cfg, session, cfg.room;
      sendBuf := new byte[CHUNK];
      helloRx := new byte[HELLO_RX_MAX];
      deal := Agreed(false, false, false, false, false);
      sendStream, cardOut, sendBufLen, sendBufOff, sendDone, stuck := null, None, 0, 0, false, false;
      users, helloRxLen, fileOpen, file, inboundComplete := map[], 0, false, [], false;
      connected, helloSent, helloId, ackSent, ackId := false, false, None, false, None;
      gotPeerAck, peerLeft, failed, seen := false, false, false, 0;
      recvFinalized, recvOk := false, true;
    }

    // ---- the session's stream calls -------------------------------------------

    /** dokan_stream_write, on a stream that may be gone. */
    method Write(id: u16, data: seq<byte>) returns (w: nat)
      requires Valid()
      modifies session, session.out, session.out.buf
      ensures Kept()
      ensures w == AcceptedOn(old(session.State()), id, data) && session.State() == WriteIfOpen(old(session.State()), id, data)
    {
      w := 0;
      if id in session.streams {
        var st;
        st, w := session.StreamWrite(id, data);
      }
    }

    method Finish(id: u16)
      requires Valid()
      modifies session, session.out, session.out.buf
      ensures Kept()
      ensures session.State() == FinishIfOpen(old(session.State()), id)
    {
      if id in session.streams {
        var st := session.StreamFinish(id);
      }
    }

    method Open(o: Opts) returns (ok: bool, id: u16)
      requires Valid()
      modifies session, session.out, session.out.buf
      ensures Kept()
      ensures ok == CanOpen(old(session.State())) && session.State() == OpenStream(old(session.State()), o)
      ensures id == old(session.State()).nextTxId
    {
      var st;
      id := session.nextTxId;
      var id1;
      st, id1 := session.StreamOpen(o);
      ok := st == Ok;
    }

    // ---- HELLO ------------------------------------------------------------------

    method HelloMessage() returns (h: seq<byte>)
      ensures h == HelloBytes(cfg)
    {
      var nameLen := |cfg.name| % 0x1_0000;
      if nameLen > NAME_MAX {
        nameLen := NAME_MAX;
      }
      var buf := new byte[HELLO_HEAD + NAME_MAX];
      buf[0] := HELLO_VERSION % 0x100;
      buf[1] := HELLO_VERSION / 0x100;
      buf[2] := if cfg.offer then 1 else 0;
      buf[3] := if cfg.accept then 1 else 0;
      buf[4] := nameLen % 0x100;
      buf[5] := nameLen / 0x100;
      forall i | 0 <= i < nameLen {
        buf[HELLO_HEAD + i] := cfg.name[i];
      }
      h := buf[..HELLO_HEAD + nameLen];
      ghost var head, name := buf[..HELLO_HEAD], buf[HELLO_HEAD..HELLO_HEAD + nameLen];
      forall i | 0 <= i < nameLen ensures name[i] == cfg.name[i] {
        assert name[i] == buf[HELLO_HEAD + i];
      }
      assert name == cfg.name[..nameLen];
      assert head == [buf[0], buf[1], buf[2], buf[3], buf[4], buf[5]];
      assert h == head + name;
    }

    method SendHello()
      requires Valid()
      modifies `helloSent, `helloId, `failed, session, session.out, session.out.buf
      ensures Kept() && State() == Transfer.SendHello(old(State()))
    {
      hide FinishIfOpen, HelloLoop, OpenStream, HelloBytes, Transfer.SendHello, Session.Valid, Session.State, Out, Inc, ShareOk;
      SendHelloIs(State());
      if helloSent {
        return;
      }
      helloSent := true;
      var ok, id := SendHelloStream();
      if ok {
        helloId := Some(id);
      } else {
        failed := true;
      }
    }

    method SendHelloStream() returns (ok: bool, id: u16)
      requires Valid()
      modifies session, session.out, session.out.buf
      ensures Kept() && ok == CanOpen(old(session.State())) && id == old(session.State()).nextTxId
      ensures var s1 := OpenStream(old(session.State()), Opts(KIND_HELLO, |HelloBytes(cfg)|));
        session.State() == if ok then FinishIfOpen(HelloLoop(s1, id, HelloBytes(cfg), 64), id) else s1
    {
      hide HelloLoop, FinishIfOpen, OpenStream, HelloBytes;
      var h := HelloMessage();
      ok, id := Open(Opts(KIND_HELLO, |h|));
      if ok {
        WriteHello(id, h);
        Finish(id);
      }
    }

    method WriteHello(id: u16, h: seq<byte>)
      requires Valid()
      modifies session, session.out, session.out.buf
      ensures Kept()
      ensures session.State() == HelloLoop(old(session.State()), id, h, 64)
    {
      hide WriteIfOpen;
      var off, guard := 0, 0;
      assert h[0..] == h;
      while guard < 64 && off < |h|
        invariant guard <= 64 && off <= |h| && Kept()
        invariant HelloLoop(session.State(), id, h[off..], 64 - guard) == HelloLoop(old(session.State()), id, h, 64)
      {
        var w := Write(id, h[off..]);
        assert h[off..][w..] == h[off + w..];
        off := off + w;
        if w == 0 {
          return;
        }
        guard := guard + 1;
      }
    }

    // ---- the card -----------------------------------------------------------------

    /** The buffer is empty: the next bytes of the card are read into it. */
    method Refill()
      requires Valid() && sendStream != null && sendBufOff == sendBufLen
      modifies `sendBufLen, `sendBufOff, sendBuf, sendStream
      ensures Kept() && Out() == Refilled(old(Out()))
    {
      sendBufLen := sendStream.Read(sendBuf, CHUNK);
      sendBufOff := 0;
    }

    /** What is left in the buffer is offered to the session. */
    method WriteRest() returns (w: nat)
      requires Valid() && cardOut.Some?
      modifies `sendBufOff, session, session.out, session.out.buf
      ensures Kept()
      ensures var t := WriteTurn(Pump(old(Out()), old(session.State())));
        t == if w == 0 then Stop(Pump(Out(), session.State())) else Again(Pump(Out(), session.State()))
    {
      hide WriteIfOpen, AcceptedOn;
      assert Out().buf[sendBufOff..] == sendBuf[sendBufOff..sendBufLen];
      w := Write(cardOut.value, sendBuf[sendBufOff..sendBufLen]);
      sendBufOff := sendBufOff + w;
    }

    /** One turn of the loop; `stop` says that the source returns from it. */
    method Turn() returns (stop: bool)
      requires Valid() && cardOut.Some?
      modifies `sendBufLen, `sendBufOff, `failed, `sendDone, `stuck, session, session.out, session.out.buf, sendBuf, sendStream
      ensures Kept() && failed == (old(failed) || stuck) && (old(stuck) ==> stuck)
      ensures var p := Pump(old(Out()), old(session.State()));
        PumpTurn(p) == if stop then Stop(Pump(Out(), session.State())) else Again(Pump(Out(), session.State()))
    {
      hide FinishIfOpen, ReadShare, WriteTurn;
      ghost var p := Pump(Out(), session.State());
      if sendBufOff == sendBufLen {
        Refill();
        if sendBufLen == 0 {
          if sendStream.end - sendStream.pos > 0 || sendStream.error {
            failed, stuck := true, true;
            return true;
          }
          Finish(cardOut.value);
          sendDone := true;
          return true;
        }
      }
      var w := WriteRest();
      stop := w == 0;
    }

    method PumpSend()
      requires Valid() && cardOut.Some?
      modifies `sendBufLen, `sendBufOff, `failed, `sendDone, `stuck, session, session.out, session.out.buf, sendBuf, sendStream
      ensures Kept() && State() == Pumped(old(State()))
    {
      hide Transfer.PumpSend, Session.Valid, Session.State, ShareOk, Out, Inc;
      assert View().out == Out();
      PumpTurns();
    }

    /** The loop of it. */
    method PumpTurns()
      requires Valid() && cardOut.Some?
      modifies `sendBufLen, `sendBufOff, `failed, `sendDone, `stuck, session, session.out, session.out.buf, sendBuf, sendStream
      ensures Kept() && failed == (old(failed) || Out().stuck)
      ensures Pump(Out(), session.State()) == Transfer.PumpSend(Pump(old(Out()), old(session.State())))
    {
      hide PumpTurn, ToSend;
      var stop := false;
      while !stop
        invariant Kept() && failed == (old(failed) || stuck)
        invariant Transfer.PumpSend(Pump(old(Out()), old(session.State()))) ==
                  if stop then Pump(Out(), session.State()) else Transfer.PumpSend(Pump(Out(), session.State()))
        decreases !stop, ToSend(Out())
      {
        TurnProgress(Pump(Out(), session.State()));
        stop := Turn();
      }
    }

    // ---- acknowledging --------------------------------------------------------------

    method MaybeSendAck()
      requires Valid()
      modifies `ackSent, `ackId, session, session.out, session.out.buf
      ensures Kept() && State() == Transfer.MaybeSendAck(old(State()))
    {
      hide FinishIfOpen, OpenStream, Session.Valid, Session.State, ShareOk, Out;
      if ackSent || !deal.ready {
        return;
      }
      var inboundDone := !deal.willRecv || inboundComplete;
      if !inboundDone {
        return;
      }
      ackSent := true;
      var ok, id := AckStream();
      if ok {
        ackId := Some(id);
      }
    }

    method AckStream() returns (ok: bool, id: u16)
      requires Valid()
      modifies session, session.out, session.out.buf
      ensures Kept() && ok == CanOpen(old(session.State())) && id == old(session.State()).nextTxId
      ensures var s := old(session.State());
        session.State() == if ok then FinishIfOpen(OpenStream(s, Opts(KIND_ACK, 0)), id) else s
    {
      hide FinishIfOpen, OpenStream;
      NotOpened(session.State(), Opts(KIND_ACK, 0));
      ok, id := Open(Opts(KIND_ACK, 0));
      if ok {
        Finish(id);
      }
    }

    // ---- the peer's HELLO -------------------------------------------------------------

    method HeardAt(at: nat) returns (heard: bool)
      requires Valid() && at < HELLO_HEAD
      ensures heard == Heard(Inc().hello, at)
    {
      heard := helloRxLen >= HELLO_HEAD && helloRx[at] != 0;
    }

    /** Which way the cards go, and the stream for this side's. */
    method StartCard()
      requires Valid()
      modifies `deal, `sendStream, `cardOut, session, session.out, session.out.buf
      ensures Kept() && State() == Transfer.StartCard(old(State()))
      ensures deal.willSend ==> cardOut.Some? && sendStream != null && fresh(sendStream)
    {
      hide OpenStream, Session.Valid, Session.State, Transfer.StartCard, Heard, Out, Inc, ShareOk, CardOpts, CanOpen, Valid;
      var offers := HeardAt(2);
      var accepts := HeardAt(3);
      if cfg.offer && accepts && cfg.own.Some? {
        StartSending(offers, accepts);
      } else {
        StartCardDoesNot(State());
        Settle(Agreed(true, offers, accepts, false, offers && cfg.accept));
      }
    }

    method StartSending(offers: bool, accepts: bool)
      requires Valid() && Sends(View()) && offers == Heard(Inc().hello, 2) && accepts == Heard(Inc().hello, 3)
      modifies `deal, `sendStream, `cardOut, session, session.out, session.out.buf
      ensures Kept() && State() == Transfer.StartCard(old(State()))
      ensures deal.willSend ==> cardOut.Some? && sendStream != null && fresh(sendStream)
    {
      hide OpenStream, Session.Valid, Session.State, Transfer.StartCard, Heard, Out, Inc, ShareOk, CardOpts, CanOpen;
      ghost var t := State();
      StartCardSends(t);
      assert t.a.out == Out();
      var opens := OpenCard();
      assert View() == t.a.(out := Out());
      Settle(Agreed(true, offers, accepts, opens, offers && cfg.accept));
    }

    method Settle(d: Agreed)
      requires Valid()
      modifies `deal
      ensures Valid() && deal == d && View() == old(View()).(deal := d)
    {
      hide Valid, Shaped, Out, Inc;
      deal := d;
    }

    method OpenCard() returns (ok: bool)
      requires Valid() && cfg.own.Some?
      modifies `sendStream, `cardOut, session, session.out, session.out.buf
      ensures Kept() && ok == CanOpen(old(session.State())) && (ok ==> cardOut.Some?) && sendStream != null && fresh(sendStream)
      ensures session.State() == OpenStream(old(session.State()), CardOpts(cfg))
      ensures Out() == old(Out()).(stream := cfg.own, card := if ok then Some(old(session.State()).nextTxId) else old(Out()).card)
    {
      hide OpenStream, Session.Valid, Session.State;
      sendStream := new ShareStream(cfg.own.value);
      var id;
      ok, id := Open(Opts(KIND_CARD, sendStream.end % 0x1_0000_0000_0000_0000));
      if ok {
        cardOut := Some(id);
      }
    }

    method ParsePeerHello()
      requires Valid()
      modifies this, session, session.out, session.out.buf, sendBuf
      ensures Kept() && State() == Transfer.ParsePeerHello(old(State()))
    {
      hide Transfer.StartCard, Transfer.MaybeSendAck, Pumped, Session.Valid, Session.State, ShareOk, Inc;
      StartCard();
      if deal.willSend {
        PumpSend();
      }
      MaybeSendAck();
    }

    // ---- the callbacks ----------------------------------------------------------------

    method OnStreamOpened(id: u16, o: Opts)
      requires Valid()
      modifies `users, `fileOpen, `file, `failed, `gotPeerAck
      ensures Valid() && View() == OnOpened(old(View()), id, o)
    {
      hide Session.Valid, Out, ShareOk;
      users := users[id := o.kind];
      if o.kind == KIND_CARD {
        OpenFile();
        return;
      } else if o.kind == KIND_ACK {
        gotPeerAck := true;
        return;
      }
    }

    /** fopen of the temporary file. */
    method OpenFile()
      requires Valid()
      modifies `fileOpen, `file, `failed
      ensures Valid()
      ensures View() == old(View()).(inc := old(Inc()).(fileOpen := cfg.canOpen, file := []), failed := old(failed) || !cfg.canOpen)
    {
      hide Session.Valid, Out, ShareOk;
      fileOpen, file := cfg.canOpen, [];
      if !fileOpen {
        failed := true;
      }
    }

    method OnStreamData(id: u16, data: seq<byte>)
      requires Valid()
      modifies `helloRxLen, `file, `disk, `failed, helloRx
      ensures Valid() && View() == OnData(old(View()), id, data)
    {
      hide Session.Valid, Out, ShareOk;
      var kind := if id in users then users[id] else 0;
      if kind == KIND_HELLO {
        TakeHello(data);
      } else if kind == KIND_CARD && fileOpen {
        StoreCard(data);
      }
    }

    method TakeHello(data: seq<byte>)
      requires Valid()
      modifies `helloRxLen, helloRx
      ensures Valid()
      ensures var n := if |data| <= HelloRoom(old(Inc())) then |data| else HelloRoom(old(Inc()));
        View() == old(View()).(inc := old(Inc()).(hello := old(Inc()).hello + data[..n]))
    {
      hide Session.Valid;
      var len := |data|;
      if helloRxLen + len > HELLO_RX_MAX {
        len := HELLO_RX_MAX - helloRxLen;
      }
      forall i | 0 <= i < len {
        helloRx[helloRxLen + i] := data[i];
      }
      assert helloRx[..helloRxLen + len] == old(helloRx[..helloRxLen]) + data[..len];
      helloRxLen := helloRxLen + len;
    }

    /** fwrite: as much as there is room for. */
    method StoreCard(data: seq<byte>)
      requires Valid()
      modifies `file, `disk, `failed
      ensures Valid()
      ensures var w := if |data| <= old(disk) then |data| else old(disk);
        View() == old(View()).(inc := old(Inc()).(file := old(file) + data[..w], disk := old(disk) - w), failed := old(failed) || w != |data|)
    {
      hide Session.Valid, Out, ShareOk;
      var w := if |data| <= disk then |data| else disk;
      file, disk := file + data[..w], disk - w;
      if w != |data| {
        failed := true;
      }
    }

    method OnStreamFinished(id: u16)
      requires Valid()
      modifies this, session, session.out, session.out.buf, sendBuf
      ensures Kept() && State() == OnFinished(old(State()), id)
    {
      hide Transfer.ParsePeerHello, Transfer.MaybeSendAck, Session.Valid, Session.State, Out, ShareOk;
      var kind := if id in users then users[id] else 0;
      if kind == KIND_HELLO {
        ParsePeerHello();
      } else if kind == KIND_CARD {
        fileOpen, inboundComplete := false, true;
        MaybeSendAck();
      }
    }

    method OnStreamWritable(id: u16)
      requires Valid()
      modifies `sendBufLen, `sendBufOff, `failed, `sendDone, `stuck, session, session.out, session.out.buf, sendBuf, sendStream
      ensures Kept() && State() == OnWritable(old(State()), id)
    {
      hide Pumped, Session.Valid, Session.State;
      if cardOut == Some(id) {
        PumpSend();
      }
    }

    /** The next event is handled. */
    method OnEvent(e: Event)
      requires Valid() && seen < |session.trace| && e == session.trace[seen]
      modifies this, session, session.out, session.out.buf, sendBuf, helloRx, sendStream
      ensures Kept() && State() == Handle(old(State()))
    {
      hide React, Session.Valid, Out, Inc, ShareOk;
      seen := seen + 1;
      Dispatch(e);
    }

    /** The session came up: HELLO goes out. */
    method Greet()
      requires Valid()
      modifies this, session, session.out, session.out.buf
      ensures Kept() && State() == React(old(State()), Connected)
    {
      hide Session.Valid, Session.State, Out, Inc, ShareOk, Transfer.SendHello;
      connected := true;
      SendHello();
    }

    method Dispatch(e: Event)
      requires Valid()
      modifies this, session, session.out, session.out.buf, sendBuf, helloRx, sendStream
      ensures Kept() && State() == React(old(State()), e)
    {
      hide Session.Valid, Session.State, Out, Inc, ShareOk, OnOpened, OnData, OnFinished, OnWritable, Transfer.SendHello;
      match e
      case Connected =>
        Greet();
        return;
      case Opened(id, o) =>
        OnStreamOpened(id, o);
        return;
      case Data(id, bytes) =>
        OnStreamData(id, bytes);
        return;
      case Finished(id) =>
        OnStreamFinished(id);
        return;
      case Writable(id) =>
        OnStreamWritable(id);
        return;
      case Disconnected =>
        peerLeft := true;
        return;
      case WasReset(_, _) =>
        failed := true;
        return;
      case Failed(_) =>
        failed := true;
        return;
    }

    // ---- the terminal decision ----------------------------------------------------------

    /** One tick; `placed` is how putting the received file in its place went, `expired` that the ACK is overdue. */
    method Tick(placed: bool, expired: bool) returns (v: Verdict)
      requires Valid()
      modifies `recvFinalized, `recvOk
      ensures (Polled(recvFinalized, recvOk), v) == Poll(View(), old(Polled(recvFinalized, recvOk)), placed, expired)
    {
      if !connected {
        return if failed then Terminate(false) else Wait;
      }
      if !deal.ready {
        return if failed || peerLeft then Terminate(false) else Wait;
      }
      if deal.willRecv && inboundComplete && !recvFinalized {
        recvFinalized, recvOk := true, placed;
      }
      var sendDoneOrNone := !deal.willSend || sendDone;
      var recvDoneOrNone := !deal.willRecv || recvFinalized;
      if sendDoneOrNone && recvDoneOrNone {
        var peerHasOurCard := !deal.willSend || gotPeerAck;
        return if peerHasOurCard || peerLeft || failed || expired then Terminate(recvOk) else Wait;
      }
      var inboundShort := deal.willRecv && !inboundComplete;
      var outboundShort := deal.willSend && !sendDone;
      return if (failed || peerLeft) && (inboundShort || outboundShort) then Terminate(false) else Wait;
    }
  }

  /** What was agreed when a card stream was (`opens`) or was not opened. */
  function Agreement(a: App, opens: bool): Agreed {
    Agreed(true, Heard(a.inc.hello, 2), Heard(a.inc.hello, 3), opens, Heard(a.inc.hello, 2) && a.cfg.accept)
  }

  lemma StartCardSends(t: Side)
    requires Sends(t.a)
    ensures var opens := CanOpen(t.s);
      Transfer.StartCard(t) ==
        Side(t.a.(deal := Agreement(t.a, opens),
                  out := t.a.out.(stream := t.a.cfg.own, card := if opens then Some(t.s.nextTxId) else t.a.out.card)),
             OpenStream(t.s, CardOpts(t.a.cfg)))
  {
    hide OpenStream, Heard;
    NotOpened(t.s, CardOpts(t.a.cfg));
  }

  lemma StartCardDoesNot(t: Side)
    requires !Sends(t.a)
    ensures Transfer.StartCard(t) == t.(a := t.a.(deal := Agreement(t.a, false)))
  {
    hide Heard;
  }

  function CardOpts(c: Config): Opts
    requires c.own.Some?
  {
    Opts(KIND_CARD, c.own.value.end % 0x1_0000_0000_0000_0000)
  }

  lemma SendHelloIs(t: Side)
    ensures var id, h := t.s.nextTxId, HelloBytes(t.a.cfg);
      var s1 := OpenStream(t.s, Opts(KIND_HELLO, |h|));
      Transfer.SendHello(t) ==
        if t.a.helloSent then t
        else if !CanOpen(t.s) then Side(t.a.(helloSent := true, failed := true), s1)
        else Side(t.a.(helloSent := true, helloId := Some(id)), FinishIfOpen(HelloLoop(s1, id, h, 64), id))
  {
    hide HelloLoop, FinishIfOpen, HelloBytes;
    NotOpened(t.s, Opts(KIND_HELLO, |HelloBytes(t.a.cfg)|));
  }

  lemma NotOpened(s: Sess, o: Opts)
    ensures !CanOpen(s) ==> OpenStream(s, o) == s
  {
  }
}
