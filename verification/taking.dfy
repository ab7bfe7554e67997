/**
 What a reader has taken in, beside what it was given. A stream that was reset forgets nothing it holds, so every resume
 gives the held bytes again; here it is counted over whole runs when that breaks what a live stream promises.
 */
module Taking {
  import opened Options
  import opened Wire
  import opened Engine
  import opened Links
  import opened System
  import opened Receiving
  import Reader
  import Steps
  import Callbacks
  import opened Effects
  import opened Guarantees

  /**
   The books kept on one stream of the peer's: `took` is every byte taken from the channel while the stream was live,
   `given` that the bytes it holds have been given to the application, `again` how often they were given although they had
   been, and `kept` which bytes those were.
   */
  datatype Ledger = Ledger(took: seq<byte>, given: bool, again: nat, kept: seq<byte>)

  const EMPTY := Ledger([], false, 0, [])

  ghost predicate TakesData(s: Sess, a: Act, id: u16) {
    a.Recv? && a.frame.kind == FRAME_DATA && a.frame.sid == id && Live(s, id)
  }

  ghost predicate GivesHeld(s: Sess, a: Act, id: u16) {
    a == Api(Resume(id)) && id in s.streams && s.streams[id].paused && s.streams[id].held != []
  }

  /** The return that empties what is held. */
  ghost predicate ClearsHeld(s: Sess, a: Act, id: u16) {
    a == Ret && s.stack != [] && Live(s, id) && s.stack[|s.stack| - 1].Resuming? && s.stack[|s.stack| - 1].id == id
  }

  /** The frame that brings the stream into being. */
  ghost predicate IsOpened(s: Sess, a: Act, id: u16) {
    a.Recv? && a.frame.kind == FRAME_OPEN && a.frame.sid == id && id !in s.streams
  }

  ghost function Note(L: Ledger, s: Sess, a: Act, id: u16): Ledger {
    if TakesData(s, a, id) then L.(took := L.took + a.frame.payload)
    else if GivesHeld(s, a, id) then
      if L.given then L.(again := L.again + 1, kept := s.streams[id].held) else L.(given := true)
    else if ClearsHeld(s, a, id) then L.(given := false)
    else L
  }

  // ---- what one step does to a stream's bytes ---------------------------------------

  /** What the session keeps of stream `id` that matters here. */
  datatype Hold = Hold(reset: bool, held: seq<byte>)

  ghost function HoldOf(s: Sess, id: u16): Option<Hold> {
    if id in s.streams then Some(Hold(s.streams[id].reset, s.streams[id].held)) else None
  }

  /** Nothing is given; the stream is left alone, reset or released. */
  ghost predicate LeavesBytes(s: Sess, t: Sess, id: u16) {
    && Delivered(t, id) == Delivered(s, id)
    && (Live(s, id) && Live(t, id) ==> (IsResuming(t.stack, id) <==> IsResuming(s.stack, id)))
    && (|| HoldOf(t, id) == HoldOf(s, id)
        || HoldOf(t, id) == None
        || (HoldOf(s, id).Some? && HoldOf(t, id) == Some(HoldOf(s, id).value.(reset := true))))
  }

  /** Sending, logging anything but data, and changing another stream touch no bytes of this one. */
  lemma Leaves(s: Sess, t: Sess, id: u16)
    requires t.trace == s.trace || exists e: Event :: t.trace == s.trace + [e] && (e.Data? ==> e.id != id)
    requires HoldOf(t, id) == HoldOf(s, id) && (IsResuming(t.stack, id) <==> IsResuming(s.stack, id))
    ensures LeavesBytes(s, t, id)
  {
    if t.trace != s.trace {
      var e: Event :| t.trace == s.trace + [e] && (e.Data? ==> e.id != id);
      ReadOne(s.trace, e, id);
    }
  }

  lemma ErrorLeaves(s: Sess, code: Code, id: u16)
    ensures LeavesBytes(s, ProtocolError(s, code), id)
  {
    Leaves(s, ProtocolError(s, code), id);
  }

  lemma SameLeaves(s: Sess, id: u16)
    ensures LeavesBytes(s, s, id)
  {
  }

  lemma OpenFrameLeaves(s: Sess, sid: u16, payload: seq<byte>, id: u16)
    requires sid != id || id in s.streams
    ensures LeavesBytes(s, HandleOpen(s, sid, payload), id)
  {
    hide ProtocolError, Rd16, Rd64;
    ErrorLeaves(s, InvalidArg, id);
    ErrorLeaves(s, InvalidSize, id);
    ErrorLeaves(s, InvalidState, id);
    if sid == 0 || sid % 2 != PeerParity(s.role) {}
    else if |payload| != 10 {}
    else if sid in s.streams {}
    else if |s.streams| >= MAX_STREAMS {}
    else {
      hide Delivered, IsResuming;
      NewLeaves(s, sid, Opts(Rd16(payload[..2]), Rd64(payload[2..])), id);
    }
  }

  lemma NewLeaves(s: Sess, sid: u16, o: Opts, id: u16)
    requires sid !in s.streams && sid != id
    ensures LeavesBytes(s, Log(Put(s, sid, NewStream(false, 0)), Opened(sid, o)), id)
  {
    ReadOne(s.trace, Opened(sid, o), id);
  }

  /** Changing one stream without its held bytes. */
  lemma PutLeaves(s: Sess, t: Sess, k: u16, id: u16)
    requires t.trace == s.trace && (IsResuming(t.stack, id) <==> IsResuming(s.stack, id))
    requires k in s.streams && k in t.streams && t.streams == s.streams[k := t.streams[k]]
    requires k == id ==> t.streams[k].held == s.streams[k].held && (s.streams[k].reset ==> t.streams[k].reset)
    ensures LeavesBytes(s, t, id)
  {
  }

  lemma DataFrameLeaves(s: Sess, sid: u16, payload: seq<byte>, id: u16)
    requires |payload| < 0x1_0000 && (sid != id || !Live(s, id))
    ensures LeavesBytes(s, HandleData(s, sid, payload), id)
  {
    hide ProtocolError, LeavesBytes, IsResuming;
    ErrorLeaves(s, InvalidSize, id);
    ErrorLeaves(s, InvalidState, id);
    SameLeaves(s, id);
    if sid !in s.streams || s.streams[sid].reset {}
    else if s.streams[sid].local || s.streams[sid].finishedRecv {}
    else if s.streams[sid].recvOutstanding as int + |payload| > s.window {}
    else if s.streams[sid].paused { PutLeaves(s, HandleData(s, sid, payload), sid, id); }
    else {
      DeliveringIsNone(s.stack, Delivering(sid, |payload|), id);
      LoggedLeaves(s, HandleData(s, sid, payload), sid, Data(sid, payload), id);
    }
  }

  /** Changing one stream without its held bytes, and logging what is no data of this one. */
  lemma LoggedLeaves(s: Sess, t: Sess, k: u16, e: Event, id: u16)
    requires t.trace == s.trace + [e] && (e.Data? ==> e.id != id) && (IsResuming(t.stack, id) <==> IsResuming(s.stack, id))
    requires k in s.streams && k in t.streams && t.streams == s.streams[k := t.streams[k]]
    requires k == id ==> t.streams[k].held == s.streams[k].held && (s.streams[k].reset ==> t.streams[k].reset)
    ensures LeavesBytes(s, t, id)
  {
    hide IsResuming;
    ReadOne(s.trace, e, id);
    PutLeaves(s, t.(trace := s.trace), k, id);
  }

  lemma DeliveringIsNone(stack: seq<Pend>, p: Pend, id: u16)
    requires !p.Resuming?
    ensures IsResuming(stack + [p], id) <==> IsResuming(stack, id)
  {
    assert IsResuming(stack, id) ==> forall r <- stack :: r in stack + [p];
  }

  lemma EofFrameLeaves(s: Sess, sid: u16, plen: nat, id: u16)
    ensures LeavesBytes(s, HandleEof(s, sid, plen), id)
  {
    hide ProtocolError, DeliverFinished, LeavesBytes, IsResuming;
    ErrorLeaves(s, InvalidSize, id);
    ErrorLeaves(s, InvalidState, id);
    SameLeaves(s, id);
    if plen != 0 {}
    else if sid !in s.streams || s.streams[sid].reset {}
    else if s.streams[sid].local || s.streams[sid].finishedRecv {}
    else {
      var s1 := Put(s, sid, s.streams[sid].(finishedRecv := true));
      PutLeaves(s, s1, sid, id);
      if !s.streams[sid].paused && s.streams[sid].held == [] {
        EndsAsPut(s, s1, sid);
        LoggedLeaves(s, DeliverFinished(s1, sid), sid, Finished(sid), id);
      }
    }
  }

  lemma EndsAsPut(s: Sess, s1: Sess, k: u16)
    requires k in s.streams && s1 == Put(s, k, s.streams[k].(finishedRecv := true))
    ensures var t := DeliverFinished(s1, k);
      && t.trace == s.trace + [Finished(k)] && t.stack == s.stack
      && k in t.streams && t.streams == s.streams[k := t.streams[k]]
      && t.streams[k].held == s.streams[k].held && t.streams[k].reset == s.streams[k].reset
  {
  }

  lemma ResetFrameLeaves(s: Sess, sid: u16, payload: seq<byte>, id: u16)
    ensures LeavesBytes(s, HandleReset(s, sid, payload), id)
  {
    hide ProtocolError, Rd32, LeavesBytes, IsResuming;
    ErrorLeaves(s, InvalidSize, id);
    SameLeaves(s, id);
    if |payload| != 4 {}
    else if sid !in s.streams || s.streams[sid].reset {}
    else { LoggedLeaves(s, HandleReset(s, sid, payload), sid, WasReset(sid, Rd32(payload)), id); }
  }

  lemma WindowFrameLeaves(s: Sess, sid: u16, payload: seq<byte>, id: u16)
    ensures LeavesBytes(s, HandleWindow(s, sid, payload), id)
  {
    hide ProtocolError, Rd32, Grant;
    ErrorLeaves(s, InvalidSize, id);
    ErrorLeaves(s, InvalidState, id);
    if |payload| != 4 {}
    else if sid !in s.streams || s.streams[sid].reset {}
    else if !s.streams[sid].local {}
    else { GrantLeaves(s, sid, Rd32(payload), id); }
  }

  lemma GrantLeaves(s: Sess, sid: u16, n: u32, id: u16)
    requires sid in s.streams
    ensures LeavesBytes(s, Grant(s, sid, n), id)
  {
    hide Add32;
    Leaves(s, Grant(s, sid, n), id);
  }

  lemma GoawayLeaves(s: Sess, id: u16)
    ensures LeavesBytes(s, HandleGoaway(s), id)
  {
    Leaves(s, HandleGoaway(s), id);
  }

  lemma TookLeaves(s: Sess, t: Sess, id: u16)
    ensures LeavesBytes(Took(s), t, id) <==> LeavesBytes(s, t, id)
  {
  }

  lemma FrameLeaves(s: Sess, f: Frame, id: u16)
    requires Encodable(f) && !TakesData(s, Recv(f), id) && !IsOpened(s, Recv(f), id)
    ensures LeavesBytes(s, Receive(s, f), id)
  {
    hide HandleOpen, HandleData, HandleEof, HandleReset, HandleWindow, ProtocolError, LeavesBytes;
    TookLeaves(s, Receive(s, f), id);
    if f.kind == FRAME_OPEN { OpenFrameLeaves(Took(s), f.sid, f.payload, id); }
    else if f.kind == FRAME_DATA { DataFrameLeaves(Took(s), f.sid, f.payload, id); }
    else if f.kind == FRAME_EOF { EofFrameLeaves(Took(s), f.sid, |f.payload|, id); }
    else if f.kind == FRAME_RESET { ResetFrameLeaves(Took(s), f.sid, f.payload, id); }
    else if f.kind == FRAME_WINDOW { WindowFrameLeaves(Took(s), f.sid, f.payload, id); }
    else if f.kind == FRAME_GOAWAY { GoawayLeaves(Took(s), id); }
    else { ErrorLeaves(Took(s), NotSupported, id); }
  }

  lemma PopLeaves(stack: seq<Pend>, id: u16)
    requires stack != [] && (stack[|stack| - 1].Resuming? ==> stack[|stack| - 1].id != id)
    ensures IsResuming(stack[..|stack| - 1], id) <==> IsResuming(stack, id)
  {
    var rest := stack[..|stack| - 1];
    if IsResuming(stack, id) {
      var r :| r in stack && r.Resuming? && r.id == id;
      assert r in rest;
    }
  }

  lemma CreditIsPut(s: Sess, k: u16, n: u32)
    requires k in s.streams
    ensures var t := CreditConsume(s, k, n);
      && t.trace == s.trace && t.stack == s.stack
      && k in t.streams && t.streams == s.streams[k := t.streams[k]]
      && t.streams[k].held == s.streams[k].held && t.streams[k].reset == s.streams[k].reset
      && t.streams[k].finishedRecv == s.streams[k].finishedRecv && t.streams[k].local == s.streams[k].local
  {
  }

  lemma EndIsPut(s: Sess, k: u16)
    requires k in s.streams
    ensures var t := DeliverFinished(s, k);
      && t.trace == s.trace + [Finished(k)] && t.stack == s.stack
      && k in t.streams && t.streams == s.streams[k := t.streams[k]]
      && t.streams[k].held == s.streams[k].held && t.streams[k].reset == s.streams[k].reset
  {
  }

  /** The return of a resume on a live stream empties it and gives nothing. */
  lemma ResumeReturns(s: Sess, id: u16)
    requires s.stack != [] && s.stack[|s.stack| - 1].Resuming?
    requires var k := s.stack[|s.stack| - 1].id; k in s.streams && !s.streams[k].reset
    ensures var k, t := s.stack[|s.stack| - 1].id, Return(s);
      && Delivered(t, id) == Delivered(s, id) && t.stack == s.stack[..|s.stack| - 1]
      && k in t.streams && t.streams == s.streams[k := t.streams[k]]
      && t.streams[k].held == [] && !t.streams[k].reset
  {
    hide CreditConsume, DeliverFinished;
    var p := s.stack[|s.stack| - 1];
    var s2 := Put(s.(stack := s.stack[..|s.stack| - 1]), p.id, s.streams[p.id].(held := []));
    var s3 := CreditConsume(s2, p.id, p.n);
    CreditIsPut(s2, p.id, p.n);
    if s3.streams[p.id].finishedRecv {
      EndIsPut(s3, p.id);
      ReadOne(s3.trace, Finished(p.id), id);
    }
  }

  lemma ReturnLeaves(s: Sess, id: u16)
    requires s.stack != [] && !ClearsHeld(s, Ret, id)
    ensures LeavesBytes(s, Return(s), id)
  {
    hide CreditConsume, DeliverFinished, IsResuming;
    var p := s.stack[|s.stack| - 1];
    var s1 := s.(stack := s.stack[..|s.stack| - 1]);
    if p.Resuming? ==> p.id != id {
      PopLeaves(s.stack, id);
    }
    if p.id !in s.streams || s.streams[p.id].reset {
    } else if p.Delivering? {
      CreditIsPut(s1, p.id, p.n);
      PutLeaves(s, CreditConsume(s1, p.id, p.n), p.id, id);
    } else {
      hide Return;
      ResumeReturns(s, id);
    }
  }

  lemma ReturnClears(s: Sess, id: u16)
    requires s.stack != [] && ClearsHeld(s, Ret, id)
    ensures var t := Return(s);
      && Delivered(t, id) == Delivered(s, id) && HoldOf(t, id) == Some(Hold(false, []))
      && t.stack == s.stack[..|s.stack| - 1]
  {
    hide Return;
    ResumeReturns(s, id);
  }

  lemma WriteLeaves(s: Sess, k: u16, data: seq<byte>, id: u16)
    requires k in s.streams
    ensures LeavesBytes(s, WriteStream(s, k, data), id)
  {
    hide LeavesBytes, IsResuming, Chunks;
    SameLeaves(s, id);
    if !s.streams[k].local || s.streams[k].finishedSent || s.streams[k].reset {} else {
      PutLeaves(s, WriteStream(s, k, data), k, id);
    }
  }

  lemma OpenLeaves(s: Sess, o: Opts, id: u16)
    requires id != 0 && !Own(s.role, id) && Own(s.role, s.nextTxId)
    ensures LeavesBytes(s, OpenStream(s, o), id)
  {
    hide IsResuming;
    if s.closing || s.error || |s.streams| >= MAX_STREAMS {} else {}
  }

  lemma ReleaseLeaves(s: Sess, k: u16, id: u16)
    requires k in s.streams
    ensures LeavesBytes(s, ReleaseStream(s, k), id)
  {
    hide IsResuming;
    if OpenState(s.streams[k]) && !s.closing && !s.error {} else {}
  }

  lemma ResumeLeaves(s: Sess, k: u16, id: u16)
    requires k in s.streams && (k == id ==> !(s.streams[id].paused && s.streams[id].held != []))
    ensures LeavesBytes(s, ResumeStream(s, k), id)
  {
    hide LeavesBytes, IsResuming, DeliverFinished;
    SameLeaves(s, id);
    var st := s.streams[k];
    var s1 := Put(s, k, st.(paused := false));
    if st.local || !st.paused {
    } else if |st.held| > 0 {
      DeliveredElsewhere(s.stack, Resuming(k, |st.held| % 0x1_0000_0000), id);
      LoggedLeaves(s, ResumeStream(s, k), k, Data(k, st.held), id);
    } else if st.finishedRecv {
      EndIsPut(s1, k);
      LoggedLeaves(s, DeliverFinished(s1, k), k, Finished(k), id);
    } else {
      PutLeaves(s, s1, k, id);
    }
  }

  lemma DeliveredElsewhere(stack: seq<Pend>, p: Pend, id: u16)
    requires p.id != id
    ensures IsResuming(stack + [p], id) <==> IsResuming(stack, id)
  {
    assert IsResuming(stack, id) ==> forall r <- stack :: r in stack + [p];
  }

  lemma ResumeGives(s: Sess, id: u16)
    requires GivesHeld(s, Api(Resume(id)), id) && !s.streams[id].local
    ensures var t := ResumeStream(s, id);
      && Delivered(t, id) == Delivered(s, id) + s.streams[id].held && HoldOf(t, id) == HoldOf(s, id)
      && IsResuming(t.stack, id) && (t.reentered <==> s.reentered || IsResuming(s.stack, id))
  {
    ReadOne(s.trace, Data(id, s.streams[id].held), id);
    var p := Resuming(id, |s.streams[id].held| % 0x1_0000_0000);
    assert p in s.stack + [p];
  }

  lemma CallLeaves(s: Sess, c: Call, id: u16)
    requires SessInv(s) && Callable(s, c) && !GivesHeld(s, Api(c), id) && Within(Apply(s, c))
    requires id != 0 && !Own(s.role, id)
    ensures LeavesBytes(s, Apply(s, c), id)
  {
    hide OpenStream, WriteStream, ResumeStream, ReleaseStream, LeavesBytes, SessInv, IsResuming;
    SameLeaves(s, id);
    match c {
      case Open(o) => if OpenStream(s, o) != s { NextIsOwn(s, o); OpenLeaves(s, o, id); }
      case Write(k, data) => WriteLeaves(s, k, data, id);
      case Finish(k) => if FinishStream(s, k) != s { PutLeaves(s, FinishStream(s, k), k, id); }
      case Reset(k, reason) => if ResetStream(s, k, reason) != s { PutLeaves(s, ResetStream(s, k, reason), k, id); }
      case Pause(k) => if PauseStream(s, k) != s { PutLeaves(s, PauseStream(s, k), k, id); }
      case Resume(k) => ResumeLeaves(s, k, id);
      case Release(k) => ReleaseLeaves(s, k, id);
      case Close => CloseLeaves(s, id);
    }
  }

  lemma CloseLeaves(s: Sess, id: u16)
    ensures LeavesBytes(s, CloseSession(s), id)
  {
    hide IsResuming;
  }

  lemma NextIsOwn(s: Sess, o: Opts)
    requires SessInv(s) && OpenStream(s, o) != s && Within(OpenStream(s, o))
    ensures Own(s.role, s.nextTxId)
  {
    Steps.OpenIsLocal(s, o);
  }

  /** A step that takes no data, gives none of what is held and empties nothing leaves the stream's bytes alone. */
  lemma StepLeaves(s: Sess, a: Act, id: u16)
    requires SessInv(s) && Enabled(s, a) && Within(Do(s, a)) && id != 0 && !Own(s.role, id)
    requires !IsOpened(s, a, id) && !TakesData(s, a, id) && !GivesHeld(s, a, id) && !ClearsHeld(s, a, id)
    ensures LeavesBytes(s, Do(s, a), id)
  {
    hide Receive, Apply, Return, LeavesBytes, IsOpened, TakesData, GivesHeld, ClearsHeld, SessInv, Own;
    match a {
      case Recv(f) => FrameLeaves(s, f, id);
      case Api(c) => CallLeaves(s, c, id);
      case Ret => ReturnLeaves(s, id);
      case Up => UpLeaves(s, id);
      case _ => ScriptLeaves(s, Do(s, a).script, id);
    }
  }

  lemma UpLeaves(s: Sess, id: u16)
    ensures LeavesBytes(s, Connect(s), id)
  {
    hide IsResuming;
    Leaves(s, Connect(s), id);
  }

  lemma ScriptLeaves(s: Sess, script: seq<seq<Call>>, id: u16)
    ensures LeavesBytes(s, s.(script := script), id)
  {
  }

  /** DATA on a live stream is held back or given, and added to what was given before. */
  lemma DataIsTaken(s: Sess, b: Sess, f: Frame, id: u16)
    requires Linked(s, b) && ActOk(s, b, Recv(f)) && TakesData(s, Recv(f), id) && id != 0 && !Own(s.role, id)
    ensures !IsResuming(s.stack, id)
    ensures var t, st := Receive(s, f), s.streams[id];
      && !IsResuming(t.stack, id)
      && (if st.paused then Delivered(t, id) == Delivered(s, id) && HoldOf(t, id) == Some(Hold(false, st.held + f.payload))
          else st.held == [] && Delivered(t, id) == Delivered(s, id) + f.payload && HoldOf(t, id) == Some(Hold(false, [])))
  {
    hide Links.Inv, LinkOf, Half, SessInv, Run, Own, EventsOf;
    ReaderHead(s, b, f);
    Reader.DataIsWelcome(s.window, id, LinkOf(b, s, id));
    NotPausedIsEmpty(s, b, id);
    ReadOne(s.trace, Data(id, f.payload), id);
    hide Delivered;
  }

  lemma NotPausedIsEmpty(s: Sess, b: Sess, id: u16)
    requires Linked(s, b) && s.stack == [] && Live(s, id) && id != 0 && !Own(s.role, id)
    ensures !s.streams[id].paused ==> s.streams[id].held == []
  {
    hide Run;
    ReaderInv(s, b, id);
  }

  // ---- the books ------------------------------------------------------------------

  ghost function Times(x: seq<byte>, n: nat): seq<byte> {
    if n == 0 then [] else Times(x, n - 1) + x
  }

  /**
   A live stream's books balance. Past a reset they still do until the held bytes are given although they had been; from then
   on those bytes are given over and over.
   */
  ghost predicate Balanced(h: Option<Hold>, got: seq<byte>, resuming: bool, L: Ledger) {
    && (h.Some? && !h.value.reset ==> L.again == 0 && (L.given <==> resuming))
    && (h.Some? && L.again == 0 ==> L.took == got + if L.given then [] else h.value.held)
    && (L.again == 0 ==> got <= L.took)
    && (L.again > 0 ==> |L.took| < |got| && got == L.took + Times(L.kept, L.again))
    && (h.Some? && L.again > 0 ==> L.given && h.value.reset && h.value.held == L.kept)
  }

  /** `s` reads the stream `id` that `b` opened. */
  ghost predicate Booked(s: Sess, b: Sess, id: u16, L: Ledger)
    requires Joined(s, b)
  {
    && Balanced(HoldOf(s, id), Delivered(s, id), IsResuming(s.stack, id), L)
    && L.took <= Written(b, id)
    && (LinkOf(b, s, id).q == Unopened ==> L == EMPTY && Delivered(s, id) == [])
  }

  lemma LeavesBalance(s: Sess, t: Sess, id: u16, L: Ledger)
    requires Balanced(HoldOf(s, id), Delivered(s, id), IsResuming(s.stack, id), L) && LeavesBytes(s, t, id)
    ensures Balanced(HoldOf(t, id), Delivered(t, id), IsResuming(t.stack, id), L)
  {
    hide Delivered, IsResuming;
    if HoldOf(t, id) == HoldOf(s, id) {} else if HoldOf(t, id).None? {} else {}
  }

  lemma TakingBalance(s: Sess, b: Sess, f: Frame, id: u16, L: Ledger)
    requires Linked(s, b) && ActOk(s, b, Recv(f)) && TakesData(s, Recv(f), id) && id != 0 && !Own(s.role, id)
    requires Balanced(HoldOf(s, id), Delivered(s, id), IsResuming(s.stack, id), L)
    ensures var t := Receive(s, f);
      Balanced(HoldOf(t, id), Delivered(t, id), IsResuming(t.stack, id), L.(took := L.took + f.payload))
  {
    hide Delivered, IsResuming, Receive, Linked, Own;
    DataIsTaken(s, b, f, id);
    var d, h, p := Delivered(s, id), s.streams[id].held, f.payload;
    assert (d + h) + p == d + (h + p);
  }

  lemma GivingBalance(s: Sess, id: u16, L: Ledger)
    requires GivesHeld(s, Api(Resume(id)), id) && !s.streams[id].local && Within(ResumeStream(s, id))
    requires Balanced(HoldOf(s, id), Delivered(s, id), IsResuming(s.stack, id), L)
    ensures var t := ResumeStream(s, id);
      Balanced(HoldOf(t, id), Delivered(t, id), IsResuming(t.stack, id), Note(L, s, Api(Resume(id)), id))
  {
    hide Delivered, IsResuming, ResumeStream, Times;
    ResumeGives(s, id);
    if L.given {
      OneTimeMore(L.took, s.streams[id].held, L.again);
    }
  }

  lemma OneTimeMore(took: seq<byte>, x: seq<byte>, n: nat)
    ensures (took + Times(x, n)) + x == took + Times(x, n + 1)
    ensures took + Times(x, 0) == took
  {
    assert (took + Times(x, n)) + x == took + (Times(x, n) + x);
  }

  lemma ClearingBalance(s: Sess, b: Sess, id: u16, L: Ledger)
    requires Linked(s, b) && ClearsHeld(s, Ret, id) && id != 0 && !Own(s.role, id)
    requires Balanced(HoldOf(s, id), Delivered(s, id), IsResuming(s.stack, id), L)
    ensures var t := Return(s);
      Balanced(HoldOf(t, id), Delivered(t, id), IsResuming(t.stack, id), L.(given := false))
  {
    hide Delivered, Return, Linked, Own;
    ReturnClears(s, id);
    OnlyResume(s, b, id);
    assert s.stack[|s.stack| - 1] in s.stack;
  }

  lemma OnlyResume(s: Sess, b: Sess, id: u16)
    requires Linked(s, b) && ClearsHeld(s, Ret, id) && id != 0 && !Own(s.role, id)
    ensures !IsResuming(s.stack[..|s.stack| - 1], id)
  {
    hide Run, ContentInv, CreditInv, FramesInv, Own;
    ReaderInv(s, b, id);
    Steps.SplitStack(s.stack, id);
    PendsIn(s.stack[..|s.stack| - 1], id);
  }

  lemma ForeignIsRemote(s: Sess, id: u16)
    requires SessInv(s) && id in s.streams && !Own(s.role, id)
    ensures !s.streams[id].local
  {
  }

  /** Where the reader's channel stands with a stream after a step. */
  lemma PhaseMoves(s: Sess, b: Sess, a: Act, id: u16)
    requires Linked(s, b) && ActOk(s, b, a) && Linked(Do(s, a), b)
    ensures LinkOf(b, Do(s, a), id).q == Unopened ==> LinkOf(b, s, id).q == Unopened
    ensures a.Recv? && a.frame.sid == id ==> LinkOf(b, Do(s, a), id).q != Unopened
    ensures !a.Recv? || a.frame.sid != id ==> LinkOf(b, Do(s, a), id).q == LinkOf(b, s, id).q
  {
    hide Links.Inv, Half, SessInv, Run, Linked;
    RcvdMoves(s, a);
    LinkedParts(s, b);
    if a.Recv? {
      TakeFrames(b.sent, s.rcvd, id);
    }
  }

  lemma RcvdMoves(s: Sess, a: Act)
    requires Enabled(s, a)
    ensures Do(s, a).rcvd == s.rcvd + if a.Recv? then 1 else 0
    ensures s.sent <= Do(s, a).sent
  {
    hide Receive, Apply, Return;
    match a
    case Recv(f) => Callbacks.ReceiveFrame(s, f);
    case Api(c) => Callbacks.ApplyFrame(s, c);
    case Ret => Callbacks.ReturnFrame(s);
    case _ =>
  }

  // ---- each step keeps the books ----------------------------------------------------

  /** What the peer does is on its way; the books are not touched. */
  lemma PeerKeepsBooks(s: Sess, b: Sess, a: Act, id: u16, L: Ledger)
    requires Linked(s, b) && ActOk(b, s, a) && Within(Do(b, a)) && Linked(s, Do(b, a)) && Own(b.role, id)
    requires Booked(s, b, id, L)
    ensures Booked(s, Do(b, a), id, L)
  {
    hide Linked, Do, Balanced, Delivered, Run, Own, Within;
    var b1 := Do(b, a);
    RcvdMoves(b, a);
    LinkedParts(s, b);
    LinkedParts(s, b1);
    assert b1.sent[..s.rcvd] == b.sent[..s.rcvd];
    WrittenGrows(b, s, a, id);
  }

  lemma WrittenGrows(b: Sess, s: Sess, a: Act, id: u16)
    requires Linked(s, b) && ActOk(b, s, a) && Within(Do(b, a)) && Own(b.role, id)
    ensures Written(b, id) <= Written(Do(b, a), id)
  {
    hide Receive, Apply, Return, Linked, Own, ResumeStream;
    match a {
      case Recv(f) => ReceiveIsMild(b, f, 0);
      case Ret => ReturnIsMild(b, 0);
      case Api(c) => CallWrites(b, s, c, id);
      case _ =>
    }
  }

  lemma CallWrites(b: Sess, s: Sess, c: Call, id: u16)
    requires Linked(s, b) && Callable(b, c) && Within(Apply(b, c)) && Own(b.role, id)
    ensures Written(b, id) <= Written(Apply(b, c), id)
  {
    hide OpenStream, WriteStream, Linked, Own, ResumeStream;
    match c
    case Open(o) => OpenWrites(b, s, o, id);
    case Write(k, data) => WriteWrites(b, k, data, id);
    case Resume(k) => ResumeIsTame(b, k, 0);
    case _ => OthersWriteNothing(b, c);
  }

  lemma OpenWrites(b: Sess, s: Sess, o: Opts, id: u16)
    requires Linked(s, b) && Within(OpenStream(b, o)) && Own(b.role, id)
    ensures Written(b, id) <= Written(Apply(b, Open(o)), id)
  {
    hide Links.Inv, Half, LinkOf, Run;
    if OpenStream(b, o) != b && id == b.nextTxId {
      LinkedSymmetric(s, b);
      Steps.OpenIsLocal(b, o);
      OpenerInv(b, s, id);
      NothingWrittenYet(b, s, id);
    }
  }

  lemma NothingWrittenYet(b: Sess, s: Sess, id: u16)
    requires Linked(b, s) && Own(b.role, id) && id == Limit(b)
    ensures Written(b, id) == []
  {
    hide RxInv, ContentInv, CreditInv, FramesInv, Run;
    OpenerInv(b, s, id);
  }

  lemma WriteWrites(b: Sess, k: u16, data: seq<byte>, id: u16)
    requires k in b.streams
    ensures Written(b, id) <= Written(Apply(b, Write(k, data)), id)
  {
    hide Chunks;
    if !b.streams[k].local || b.streams[k].finishedSent || b.streams[k].reset {} else {}
  }

  lemma OthersWriteNothing(b: Sess, c: Call)
    requires Callable(b, c) && (c.Finish? || c.Reset? || c.Pause? || c.Release? || c.Close?)
    ensures Apply(b, c).wrote == b.wrote
  {
  }

  /** The reader's own step, noted in the books, keeps them. */
  lemma StepKeepsBooks(s: Sess, b: Sess, a: Act, id: u16, L: Ledger)
    requires Linked(s, b) && ActOk(s, b, a) && Within(Do(s, a)) && Linked(Do(s, a), b) && id != 0 && !Own(s.role, id)
    requires Booked(s, b, id, L) && Do(s, a).role == s.role
    ensures Booked(Do(s, a), b, id, Note(L, s, a, id))
  {
    hide Linked, Do, Delivered, Run, Own, Within, Balanced, TakesData, GivesHeld, ClearsHeld;
    LinkedParts(s, b);
    LinkedParts(Do(s, a), b);
    StepBalances(s, b, a, id, L);
    PhaseMoves(s, b, a, id);
    if LinkOf(b, Do(s, a), id).q == Unopened {
      UnopenedIsQuiet(s, b, a, id, L);
    }
    TookIsWritten(s, b, a, id, L);
  }

  lemma StepBalances(s: Sess, b: Sess, a: Act, id: u16, L: Ledger)
    requires Linked(s, b) && ActOk(s, b, a) && Within(Do(s, a)) && Linked(Do(s, a), b) && id != 0 && !Own(s.role, id)
    requires Booked(s, b, id, L)
    ensures var t := Do(s, a);
      Balanced(HoldOf(t, id), Delivered(t, id), IsResuming(t.stack, id), Note(L, s, a, id))
  {
    hide Linked, Delivered, Run, Own, Within, Balanced, IsResuming, Receive, Return, ResumeStream, Links.Inv;
    LinkedParts(s, b);
    if IsOpened(s, a, id) {
      OpeningBalance(s, b, a.frame, id, L);
    } else if TakesData(s, a, id) {
      TakingBalance(s, b, a.frame, id, L);
    } else if GivesHeld(s, a, id) {
      ForeignIsRemote(s, id);
      GivingBalance(s, id, L);
    } else if ClearsHeld(s, a, id) {
      ClearingBalance(s, b, id, L);
    } else {
      hide Do;
      StepLeaves(s, a, id);
      LeavesBalance(s, Do(s, a), id, L);
    }
  }

  lemma OpeningBalance(s: Sess, b: Sess, f: Frame, id: u16, L: Ledger)
    requires Linked(s, b) && ActOk(s, b, Recv(f)) && IsOpened(s, Recv(f), id) && id != 0 && !Own(s.role, id)
    requires Booked(s, b, id, L)
    ensures var t := Receive(s, f);
      Balanced(HoldOf(t, id), Delivered(t, id), IsResuming(t.stack, id), L)
  {
    hide Links.Inv, Half, SessInv, Run, LinkOf, EventsOf, Own;
    ReaderHead(s, b, f);
    OpensOnce(s.window, id, LinkOf(b, s, id));
    OpenPayload(s.window, id, LinkOf(b, s, id));
    ReadOne(s.trace, Opened(id, Opts(Rd16(f.payload[..2]), Rd64(f.payload[2..]))), id);
    hide Delivered, Rd16, Rd64;
    ForeignParity(s.role, id);
    if |s.streams| >= MAX_STREAMS {} else {}
  }

  lemma ForeignParity(role: Role, id: u16)
    requires id != 0 && !Own(role, id)
    ensures id % 2 == PeerParity(role)
  {
  }

  lemma OpensOnce(W: u32, id: u16, L: Link)
    requires Links.Inv(W, id, L) && L.fwd != [] && L.fwd[0].kind == FRAME_OPEN
    ensures L.q == Unopened
  {
    Reader.TakenFacts(W, id, L);
  }

  lemma UnopenedIsQuiet(s: Sess, b: Sess, a: Act, id: u16, L: Ledger)
    requires Linked(s, b) && ActOk(s, b, a) && Linked(Do(s, a), b) && id != 0 && !Own(s.role, id) && Do(s, a).role == s.role
    requires LinkOf(b, s, id).q == Unopened && LinkOf(b, Do(s, a), id).q == Unopened
    ensures Note(L, s, a, id) == L && Delivered(Do(s, a), id) == []
  {
    hide Linked, Do, Run, TxInv, FramesInv, CreditInv, ContentInv, Own;
    ReaderInv(s, b, id);
    ReaderInv(Do(s, a), b, id);
  }

  lemma HeldIsLeft(s: Sess, id: u16)
    requires id in s.streams && !IsResuming(s.stack, id)
    ensures HeldLeft(s.streams[id], InCallback(s, id)) == s.streams[id].held
  {
    PendsIn(s.stack, id);
    if InCallback(s, id) != [] {
      assert InCallback(s, id)[0] in s.stack;
    }
  }

  lemma TookIsWritten(s: Sess, b: Sess, a: Act, id: u16, L: Ledger)
    requires Linked(s, b) && ActOk(s, b, a) && Linked(Do(s, a), b) && id != 0 && !Own(s.role, id) && Do(s, a).role == s.role
    requires Booked(s, b, id, L)
    requires var t := Do(s, a);
      Balanced(HoldOf(t, id), Delivered(t, id), IsResuming(t.stack, id), Note(L, s, a, id))
    ensures Note(L, s, a, id).took <= Written(b, id)
  {
    hide Linked, Delivered, Written, Run, Own, IsResuming, Links.Inv, Receive;
    if TakesData(s, a, id) {
      var t := Receive(s, a.frame);
      DataIsTaken(s, b, a.frame, id);
      HeldIsLeft(t, id);
      LinkedSymmetric(t, b);
      LinkedParts(s, b);
      PeerOwns(s, b, id);
      ContentInOrder(b, t, id);
      hide LinkOf;
      var L1 := Note(L, s, a, id);
      assert L1.took == Delivered(t, id) + t.streams[id].held;
    }
  }

  // ---- runs -------------------------------------------------------------------------

  /** The books kept over a run. */
  ghost function Books(h: Sess, c: Sess, ms: seq<Move>, id: u16, L: Ledger): Ledger
    requires RunOk(h, c, ms)
    decreases |ms|
  {
    if ms == [] then L
    else if ms[0].first then Books(Do(h, ms[0].act), c, ms[1..], id, Note(L, h, ms[0].act, id))
    else Books(h, Do(c, ms[0].act), ms[1..], id, L)
  }

  lemma {:induction false} RunKeepsBooks(h: Sess, c: Sess, ms: seq<Move>, id: u16, L: Ledger)
    requires Linked(h, c) && RunOk(h, c, ms) && id != 0 && !Own(h.role, id) && Booked(h, c, id, L)
    requires Within(RunEnd(h, c, ms).0) && Within(RunEnd(h, c, ms).1)
    ensures Linked(RunEnd(h, c, ms).0, RunEnd(h, c, ms).1)
    ensures Booked(RunEnd(h, c, ms).0, RunEnd(h, c, ms).1, id, Books(h, c, ms, id, L))
    decreases |ms|
  {
    hide Linked, Do, Within, Enabled, Own, Booked, Note;
    RunKeeps(h, c, ms);
    if ms != [] {
      if ms[0].first {
        var h1 := Do(h, ms[0].act);
        RunMonotone(h1, c, ms[1..]);
        ActKeeps(h, c, ms[0].act);
        StaysJoined(h, c, h1, c, id);
        StepKeepsBooks(h, c, ms[0].act, id, L);
        RunKeepsBooks(h1, c, ms[1..], id, Note(L, h, ms[0].act, id));
      } else {
        var c1 := Do(c, ms[0].act);
        RunMonotone(h, c1, ms[1..]);
        LinkedSymmetric(h, c);
        ActKeeps(c, h, ms[0].act);
        LinkedSymmetric(c1, h);
        StaysJoined(h, c, h, c1, id);
        PeerKeepsBooks(h, c, ms[0].act, id, L);
        RunKeepsBooks(h, c1, ms[1..], id, L);
      }
    }
  }

  lemma StaysJoined(h: Sess, c: Sess, h1: Sess, c1: Sess, id: u16)
    requires Linked(h, c) && Linked(h1, c1) && (h1 == h || c1 == c) && id != 0 && !Own(h.role, id)
    ensures h1.role == h.role && c1.role == c.role && Own(c.role, id) && Joined(h, c) && Joined(h1, c1)
  {
  }

  /**
   What was given is a prefix of what was taken in exactly as long as held bytes are not given again although they had been,
   which on a live stream cannot happen. It is a prefix of what was written exactly as long as the peer happened to write those
   same bytes again, as often as they were given again, behind what was taken in.
   */
  lemma GivenIsPrefixExactly(role: Role, window: u32, ms: seq<Move>, s: Sess, b: Sess, id: u16)
    requires Ran(role, window, ms, s, b) && id != 0 && !Own(role, id)
    ensures var L := Books(NewSession(role, window), NewSession(PeerOf(role), window), ms, id, EMPTY);
      && L.took <= Written(b, id)
      && (Delivered(s, id) <= L.took <==> L.again == 0)
      && (Delivered(s, id) <= Written(b, id) <==> Times(L.kept, L.again) <= Written(b, id)[|L.took|..])
      && (Written(b, id) == L.took ==> (Delivered(s, id) <= Written(b, id) <==> L.again == 0))
      && (Live(s, id) ==> L.again == 0)
  {
    hide Linked, RunOk, RunEnd, Own, Balanced, Delivered, Written, Times;
    var s0, b0 := NewSession(role, window), NewSession(PeerOf(role), window);
    LinkedInitially(role, PeerOf(role), window);
    BookedInitially(role, window, id);
    RunKeepsBooks(s0, b0, ms, id, EMPTY);
    LinkedParts(s, b);
    BookedSays(s, b, id, Books(s0, b0, ms, id, EMPTY));
  }

  lemma BookedInitially(role: Role, window: u32, id: u16)
    ensures Booked(NewSession(role, window), NewSession(PeerOf(role), window), id, EMPTY)
  {
  }

  lemma BookedSays(s: Sess, b: Sess, id: u16, L: Ledger)
    requires Joined(s, b) && Booked(s, b, id, L)
    ensures L.took <= Written(b, id)
    ensures Delivered(s, id) <= L.took <==> L.again == 0
    ensures Delivered(s, id) <= Written(b, id) <==> Times(L.kept, L.again) <= Written(b, id)[|L.took|..]
    ensures Written(b, id) == L.took ==> (Delivered(s, id) <= Written(b, id) <==> L.again == 0)
    ensures Live(s, id) ==> L.again == 0
  {
    hide Delivered, Written;
    if L.again > 0 {
      hide Times;
      PrefixBehind(L.took, Times(L.kept, L.again), Written(b, id));
    }
  }

  lemma PrefixBehind(x: seq<byte>, y: seq<byte>, w: seq<byte>)
    requires x <= w
    ensures x + y <= w <==> y <= w[|x|..]
  {
    assert w == x + w[|x|..];
    if x + y <= w {
      assert y == w[..|x| + |y|][|x|..] == w[|x|..][..|y|];
    }
  }

  // ---- where it breaks --------------------------------------------------------------

  /** Every time held bytes are given although they had been, the bytes given grow by just those, on a stream that was reset. */
  lemma GivenAgainExactly(s: Sess, b: Sess, id: u16, L: Ledger)
    requires Linked(s, b) && Booked(s, b, id, L) && id != 0 && !Own(s.role, id)
    requires GivesHeld(s, Api(Resume(id)), id) && L.given && Within(ResumeStream(s, id))
    ensures var held, t, n := s.streams[id].held, ResumeStream(s, id), L.again + 1;
      && s.streams[id].reset
      && Delivered(t, id) == L.took + Times(held, n)
      && (Delivered(t, id) <= Written(b, id) <==> Times(held, n) <= Written(b, id)[|L.took|..])
      && !(Delivered(t, id) <= L.took)
  {
    hide Linked, Delivered, Written, ResumeStream, IsResuming, Own, Times;
    LinkedParts(s, b);
    ForeignIsRemote(s, id);
    ResumeGives(s, id);
    OneTimeMore(L.took, s.streams[id].held, L.again);
    PrefixBehind(L.took, Times(s.streams[id].held, L.again + 1), Written(b, id));
  }

  /** The held bytes of a reset stream, paused, resumed and the callback returned from. */
  ghost function Round(s: Sess, id: u16): (t: Sess)
    requires id in s.streams && s.streams[id].reset && !s.streams[id].local && s.streams[id].held != []
  {
    Return(ResumeStream(PauseStream(s, id), id))
  }

  lemma RoundGivesHeld(s: Sess, id: u16)
    requires id in s.streams && s.streams[id].reset && !s.streams[id].local && s.streams[id].held != []
    requires !IsResuming(s.stack, id)
    ensures var t := Round(s, id);
      && Delivered(t, id) == Delivered(s, id) + s.streams[id].held
      && id in t.streams && t.streams[id] == s.streams[id].(paused := false)
      && t.stack == s.stack && t.reentered == s.reentered
  {
    var p := PauseStream(s, id);
    var r := ResumeStream(p, id);
    ResumeGives(p, id);
    assert r.stack == s.stack + [Resuming(id, |s.streams[id].held| % 0x1_0000_0000)];
    assert r.stack[..|r.stack| - 1] == s.stack;
  }

  ghost function Rounds(s: Sess, id: u16, n: nat): (t: Sess)
    requires id in s.streams && s.streams[id].reset && !s.streams[id].local && s.streams[id].held != []
    requires !IsResuming(s.stack, id)
    ensures id in t.streams && t.streams[id].reset && !t.streams[id].local && t.streams[id].held == s.streams[id].held
    ensures t.stack == s.stack && t.reentered == s.reentered
  {
    if n == 0 then s else
      var u := Rounds(s, id, n - 1);
      RoundGivesHeld(u, id);
      Round(u, id)
  }

  /** A stream that was reset keeps what it holds: every pause and resume gives it once more, with no re-entry anywhere. */
  lemma {:induction false} EveryRoundGivesHeld(s: Sess, id: u16, n: nat)
    requires id in s.streams && s.streams[id].reset && !s.streams[id].local && s.streams[id].held != []
    requires !IsResuming(s.stack, id)
    ensures Delivered(Rounds(s, id, n), id) == Delivered(s, id) + Times(s.streams[id].held, n)
    ensures Rounds(s, id, n).reentered == s.reentered
  {
    hide Round, Delivered, IsResuming;
    var d, x := Delivered(s, id), s.streams[id].held;
    if n == 0 {
      assert d + [] == d;
    } else {
      EveryRoundGivesHeld(s, id, n - 1);
      RoundGivesHeld(Rounds(s, id, n - 1), id);
      assert (d + Times(x, n - 1)) + x == d + (Times(x, n - 1) + x);
    }
  }
}
