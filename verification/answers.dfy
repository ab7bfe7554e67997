/** What single frames and calls are answered with, said in bytes, frames and events, and what the other end makes of the answer. */
module Answers {
  import opened Wire
  import opened Engine
  import opened Links
  import opened Callbacks
  import opened Feed

  // ---- on the wire --------------------------------------------------------------

  /** A frame is its kind, its stream and its payload's length in two bytes each, most significant first, and its payload. */
  lemma FrameBytes(f: Frame)
    requires Encodable(f)
    ensures var b := Encode(f);
      |b| == 5 + |f.payload| && b[0] == f.kind && (b[1] as int) * 0x100 + b[2] == f.sid && (b[3] as int) * 0x100 + b[4] == |f.payload| && b[5..] == f.payload
  {
  }

  /** Longer numbers go most significant byte first too. */
  lemma NumberBytes(v: u32, w: u64)
    ensures var b := Wr32(v); (b[0] as int) * 0x100_0000 + (b[1] as int) * 0x1_0000 + (b[2] as int) * 0x100 + b[3] == v
    ensures Wr64(w) == Wr32(w / 0x1_0000_0000) + Wr32(w % 0x1_0000_0000)
  {
    Rd32Wr32(v);
  }

  // ---- frames that are refused ----------------------------------------------------

  /** A stream that frames are still looked at for. */
  predicate Known(s: Sess, id: u16) {
    id in s.streams && !s.streams[id].reset
  }

  /** What an honest peer never sends in this state. */
  predicate Unwelcome(s: Sess, f: Frame) {
    if f.kind == 1 then
      f.sid == 0 || (f.sid % 2 == 1) != s.role.Host? || |f.payload| != 10 || f.sid in s.streams
    else if f.kind == 2 then
      Known(s, f.sid) &&
      (s.streams[f.sid].local || s.streams[f.sid].finishedRecv || s.streams[f.sid].recvOutstanding as int + |f.payload| > s.window)
    else if f.kind == 3 then
      f.payload != [] || (Known(s, f.sid) && (s.streams[f.sid].local || s.streams[f.sid].finishedRecv))
    else if f.kind == 4 then
      |f.payload| != 4
    else if f.kind == 5 then
      |f.payload| != 4 || (Known(s, f.sid) && !s.streams[f.sid].local)
    else
      f.kind != 6
  }

  /** The error that a refused frame is reported with. */
  function Complaint(s: Sess, f: Frame): Code {
    if f.kind == 1 then
      if f.sid == 0 || (f.sid % 2 == 1) != s.role.Host? then InvalidArg else if |f.payload| != 10 then InvalidSize else InvalidState
    else if f.kind == 2 then
      if Known(s, f.sid) && (s.streams[f.sid].local || s.streams[f.sid].finishedRecv) then InvalidState else InvalidSize
    else if f.kind == 3 then
      if f.payload != [] then InvalidSize else InvalidState
    else if f.kind == 4 then InvalidSize
    else if f.kind == 5 then
      if |f.payload| != 4 then InvalidSize else InvalidState
    else NotSupported
  }

  /** A session fails on exactly these frames; it then reports the error, once, and changes nothing else. */
  lemma RefusedExactly(s: Sess, f: Frame)
    requires Encodable(f) && !s.error
    ensures Receive(s, f).error <==> Unwelcome(s, f)
    ensures Unwelcome(s, f) ==>
      Receive(s, f) == s.(rcvd := s.rcvd + 1, error := true, trace := s.trace + [Failed(Complaint(s, f))])
  {
    hide Receive, Refusal, Unwelcome, Complaint;
    Refused(s, f);
    CountingAside(s, f);
    RefusalSays(s.(rcvd := s.rcvd + 1), f, Receive(s, f));
  }

  lemma RefusalSays(s: Sess, f: Frame, t: Sess)
    requires Refusal(s, f, t) && !s.error
    ensures t.error <==> Unwelcome(s, f)
    ensures Unwelcome(s, f) ==> t == s.(error := true, trace := s.trace + [Failed(Complaint(s, f))])
  {
    hide Unwelcome, Complaint;
  }

  lemma Refused(s: Sess, f: Frame)
    requires Encodable(f) && !s.error
    ensures Refusal(s.(rcvd := s.rcvd + 1), f, Receive(s, f))
  {
    hide HandleOpen, HandleData, HandleEof, HandleReset, HandleWindow, HandleGoaway, ProtocolError, Refusal;
    var s1 := s.(rcvd := s.rcvd + 1);
    if f.kind == 1 { OpenRefused(s1, f); }
    else if f.kind == 2 { DataRefused(s1, f); }
    else if f.kind == 3 { EofRefused(s1, f); }
    else if f.kind == 4 { ResetRefused(s1, f); }
    else if f.kind == 5 { WindowRefused(s1, f); }
    else { OtherRefused(s1, f); }
  }

  lemma CountingAside(s: Sess, f: Frame)
    ensures Unwelcome(s.(rcvd := s.rcvd + 1), f) == Unwelcome(s, f) && Complaint(s.(rcvd := s.rcvd + 1), f) == Complaint(s, f)
  {
  }

  /** `t` is `s` after refusing `f`, or did not fail. */
  ghost predicate Refusal(s: Sess, f: Frame, t: Sess) {
    if Unwelcome(s, f) then t == s.(error := true, trace := s.trace + [Failed(Complaint(s, f))]) else t.error == s.error
  }

  lemma OpenRefused(s: Sess, f: Frame)
    requires f.kind == 1 && !s.error
    ensures Refusal(s, f, HandleOpen(s, f.sid, f.payload))
  {
    hide Rd16, Rd64, Wr32;
    if f.sid == 0 || f.sid % 2 != PeerParity(s.role) {} else if |f.payload| != 10 {} else if f.sid in s.streams {} else {}
  }

  lemma DataRefused(s: Sess, f: Frame)
    requires f.kind == 2 && !s.error && Encodable(f)
    ensures Refusal(s, f, HandleData(s, f.sid, f.payload))
  {
    if f.sid !in s.streams || s.streams[f.sid].reset {}
    else if s.streams[f.sid].local || s.streams[f.sid].finishedRecv {}
    else if s.streams[f.sid].recvOutstanding as int + |f.payload| > s.window {}
    else {}
  }

  lemma EofRefused(s: Sess, f: Frame)
    requires f.kind == 3 && !s.error
    ensures Refusal(s, f, HandleEof(s, f.sid, |f.payload|))
  {
    hide CreditFrames, Flushed;
    if f.payload != [] {}
    else if f.sid !in s.streams || s.streams[f.sid].reset {}
    else if s.streams[f.sid].local || s.streams[f.sid].finishedRecv {}
    else {}
  }

  lemma ResetRefused(s: Sess, f: Frame)
    requires f.kind == 4 && !s.error
    ensures Refusal(s, f, HandleReset(s, f.sid, f.payload))
  {
    hide Rd32;
    if |f.payload| != 4 {} else if f.sid !in s.streams || s.streams[f.sid].reset {} else {}
  }

  lemma WindowRefused(s: Sess, f: Frame)
    requires f.kind == 5 && !s.error
    ensures Refusal(s, f, HandleWindow(s, f.sid, f.payload))
  {
    hide Rd32, Add32;
    if |f.payload| != 4 {} else if f.sid !in s.streams || s.streams[f.sid].reset {} else if !s.streams[f.sid].local {} else {}
  }

  lemma OtherRefused(s: Sess, f: Frame)
    requires !(1 <= f.kind <= 5) && !s.error
    ensures Refusal(s, f, if f.kind == 6 then HandleGoaway(s) else ProtocolError(s, NotSupported))
  {
  }

  /** A frame too long for any buffer fails the session as soon as its header is there, and nothing after it is looked at. */
  lemma OversizeIsRefused(s: Sess, bytes: seq<byte>)
    requires !s.error && !s.closing && s.script == [] && |bytes| >= 5 && (bytes[3] as int) * 0x100 + bytes[4] > 4096
    ensures Drain(s, bytes) == (s.(error := true, trace := s.trace + [Failed(InvalidSize)]), [])
  {
    hide Process, FirstFrame, Oversize;
    OversizeSays(s);
  }

  lemma OversizeSays(s: Sess)
    requires !s.error && s.script == []
    ensures Oversize(s) == s.(error := true, trace := s.trace + [Failed(InvalidSize)])
  {
    hide RunCallback, Return;
    ErrorFrame(s, InvalidSize);
    NobodyCalled(ProtocolError(s, InvalidSize));
  }

  lemma NobodyCalled(s: Sess)
    requires s.script == []
    ensures RunCallback(s) == s
  {
  }

  /** Nor does a session that has failed or is closing look at anything. */
  lemma HaltedIsDeaf(s: Sess, bytes: seq<byte>)
    requires s.error || s.closing
    ensures Drain(s, bytes) == (s, [])
  {
  }

  /** With all sixteen entries taken a stream is not opened; its opener is told so by a RESET, and nobody else hears of it. */
  lemma FullTableAnswers(s: Sess, f: Frame)
    requires f.kind == 1 && Encodable(f) && !s.error && !Unwelcome(s, f) && |s.streams| >= 16
    ensures Receive(s, f) == s.(rcvd := s.rcvd + 1, sent := s.sent + [Frame(4, f.sid, [0, 0, 1, 1])])
  {
  }

  // ---- what the other end hears -----------------------------------------------------

  /** An open is answered by the next id, and announced: a peer with room has a stream of that kind and hint, and reads from it. */
  lemma OpenIsHeard(s: Sess, b: Sess, o: Opts)
    requires !s.closing && !s.error && |s.streams| < 16 && s.nextTxId != 0
    requires !b.error && |b.streams| < 16 && s.nextTxId !in b.streams && (s.nextTxId % 2 == 1) == b.role.Host?
    ensures var id, t := s.nextTxId, OpenStream(s, o);
      && |t.sent| == |s.sent| + 1 && t.sent[..|s.sent|] == s.sent && Encodable(t.sent[|s.sent|])
      && id in t.streams && t.streams[id].local && t.streams[id].sendWindow == s.window && t.nextTxId == (id as int + 2) % 0x1_0000
      && var c := Receive(b, t.sent[|s.sent|]);
        && c.trace == b.trace + [Opened(id, o)] && c.sent == b.sent
        && id in c.streams && !c.streams[id].local && !c.streams[id].paused && c.streams[id].held == []
  {
    hide Wr16, Wr64, Rd16, Rd64;
    OptsRead(o);
  }

  lemma OptsRead(o: Opts)
    ensures var p := Wr16(o.kind) + Wr64(o.hint); |p| == 10 && Rd16(p[..2]) == o.kind && Rd64(p[2..]) == o.hint
  {
    var p := Wr16(o.kind) + Wr64(o.hint);
    assert p[..2] == Wr16(o.kind) && p[2..] == Wr64(o.hint);
    Rd64Wr64(o.hint);
  }

  /** A reset is told to the other end with its reason, once. */
  lemma ResetIsHeard(s: Sess, b: Sess, id: u16, reason: u32)
    requires Known(s, id) && Known(b, id) && !b.error
    ensures var t := ResetStream(s, id, reason);
      && t.streams == s.streams[id := s.streams[id].(reset := true)] && ResetStream(t, id, reason) == t
      && |t.sent| == |s.sent| + 1 && t.sent[..|s.sent|] == s.sent && Encodable(t.sent[|s.sent|])
      && var c := Receive(b, t.sent[|s.sent|]);
        c.trace == b.trace + [WasReset(id, reason)] && c.streams == b.streams[id := b.streams[id].(reset := true)] && c.sent == b.sent
  {
    hide Wr32, Rd32;
    Rd32Wr32(reason);
  }

  /** The end of a stream is told once; a reader that is not holding anything back hears of it at once, the others keep it. */
  lemma FinishIsHeard(s: Sess, b: Sess, id: u16)
    requires Known(s, id) && s.streams[id].local && !s.streams[id].finishedSent
    requires Known(b, id) && !b.streams[id].local && !b.streams[id].finishedRecv && !b.error
    ensures var t := FinishStream(s, id);
      && t.streams == s.streams[id := s.streams[id].(finishedSent := true)] && FinishStream(t, id) == t
      && |t.sent| == |s.sent| + 1 && t.sent[..|s.sent|] == s.sent && Encodable(t.sent[|s.sent|])
      && var c := Receive(b, t.sent[|s.sent|]);
        && id in c.streams && c.streams[id].finishedRecv
        && c.trace == (if !b.streams[id].paused && b.streams[id].held == [] then b.trace + [Finished(id)] else b.trace)
  {
    var f := Frame(FRAME_EOF, id, []);
    assert FinishStream(s, id).sent[|s.sent|] == f;
    EofTaken(b, f);
  }

  lemma EofTaken(b: Sess, f: Frame)
    requires f.kind == FRAME_EOF && f.payload == [] && Known(b, f.sid) && !b.streams[f.sid].local && !b.streams[f.sid].finishedRecv
    ensures var id, c := f.sid, Receive(b, f);
      && id in c.streams && c.streams[id].finishedRecv
      && c.trace == (if !b.streams[id].paused && b.streams[id].held == [] then b.trace + [Finished(id)] else b.trace)
  {
    hide CreditFrames, Sub32;
  }

  /** A write takes as many bytes as fit the window, and all of them go out, in frames of 4096 bytes but for the last. */
  lemma WriteIsHeard(s: Sess, id: u16, data: seq<byte>)
    requires Known(s, id) && s.streams[id].local && !s.streams[id].finishedSent
    ensures var t, st := WriteStream(s, id, data), s.streams[id];
      var n := if |data| < st.sendWindow then |data| else st.sendWindow as nat;
      && Accepted(st, data) == n
      && t.streams == s.streams[id := st.(sendWindow := st.sendWindow - n)] && t.trace == s.trace
      && s.sent <= t.sent && DataIn(t.sent[|s.sent|..]) == data[..n]
      && (forall k :: |s.sent| <= k < |t.sent| ==> t.sent[k].kind == 2 && t.sent[k].sid == id)
      && (forall k :: |s.sent| <= k < |t.sent| - 1 ==> |t.sent[k].payload| == 4096)
  {
    hide Chunks;
    var st := s.streams[id];
    var n := Accepted(st, data);
    var fs := Chunks(id, data[..n]);
    ChunksFacts(id, data[..n]);
    ChunksAreFull(id, data[..n]);
    var t := WriteStream(s, id, data);
    assert t.sent == s.sent + fs && t.sent[|s.sent|..] == fs;
    forall k | |s.sent| <= k < |t.sent| ensures t.sent[k].kind == 2 && t.sent[k].sid == id {
      assert t.sent[k] == fs[k - |s.sent|];
    }
    forall k | |s.sent| <= k < |t.sent| - 1 ensures |t.sent[k].payload| == 4096 {
      assert t.sent[k] == fs[k - |s.sent|];
    }
  }

  /** Frames of 4096 bytes, but for the last. */
  predicate AllFull(fs: seq<Frame>) {
    forall k :: 0 <= k < |fs| - 1 ==> |fs[k].payload| == 4096
  }

  lemma FullBehind(f: Frame, rest: seq<Frame>)
    requires AllFull(rest) && (rest != [] ==> |f.payload| == 4096)
    ensures AllFull([f] + rest)
  {
    var fs := [f] + rest;
    forall k | 0 <= k < |fs| - 1 ensures |fs[k].payload| == 4096 {
      if k > 0 {
        assert fs[k] == rest[k - 1];
      }
    }
  }

  lemma {:induction false} ChunksAreFull(id: u16, data: seq<byte>)
    ensures AllFull(Chunks(id, data)) && forall f <- Chunks(id, data) :: f.kind == 2 && f.sid == id
  {
    hide AllFull;
    if data == [] {
      assert AllFull([]) by { FullOfNone(); }
    } else {
      var n := if |data| > MAX_CHUNK then MAX_CHUNK else |data|;
      ChunksAreFull(id, data[n..]);
      FullBehind(Frame(FRAME_DATA, id, data[..n]), Chunks(id, data[n..]));
    }
  }

  lemma FullOfNone()
    ensures AllFull([])
  {
  }

  /**
   Resuming gives what was held, all at once, and then reports the end if it has come; nothing is held any more. That is so for
   an application whose callbacks call nothing.
   */
  lemma ResumeIsHeard(s: Sess, id: u16)
    requires Known(s, id) && !s.streams[id].local && s.streams[id].paused && s.script == []
    ensures var st, t := s.streams[id], Perform(s, Resume(id));
      && id in t.streams && !t.streams[id].paused && t.streams[id].held == []
      && t.trace == s.trace + (if st.held == [] then [] else [Data(id, st.held)]) + (if st.finishedRecv then [Finished(id)] else [])
  {
    hide RunCallback, RunCalls, CreditConsume, DeliverFinished, Return, GiveHeld;
    var st := s.streams[id];
    var s1 := Put(s, id, st.(paused := false));
    ApplyFrame(s, Resume(id));
    if st.held != [] {
      var u := GiveHeld(s1, id);
      NobodyCalled(u);
      GivenSays(s1, id);
      NobodyCalled(Return(u));
      assert Perform(s, Resume(id)) == Return(u);
    } else if st.finishedRecv {
      EndSays(s1, id);
      NobodyCalled(DeliverFinished(s1, id));
      assert Perform(s, Resume(id)) == DeliverFinished(s1, id);
    } else {
      NobodyCalled(s1);
      assert Perform(s, Resume(id)) == s1;
    }
  }

  lemma EndSays(s: Sess, id: u16)
    requires id in s.streams
    ensures var t := DeliverFinished(s, id);
      && t.trace == s.trace + [Finished(id)] && t.script == s.script && t.stack == s.stack
      && id in t.streams && t.streams[id].paused == s.streams[id].paused && t.streams[id].held == s.streams[id].held
  {
    hide CreditFrames, Sub32;
  }

  lemma CreditSays(s: Sess, id: u16, n: u32)
    requires id in s.streams
    ensures var t := CreditConsume(s, id, n);
      && t.trace == s.trace && t.script == s.script && t.stack == s.stack && id in t.streams
      && t.streams[id].paused == s.streams[id].paused && t.streams[id].held == s.streams[id].held
      && t.streams[id].finishedRecv == s.streams[id].finishedRecv && t.streams[id].reset == s.streams[id].reset
  {
    hide CreditFrames, Sub32, Add32;
  }

  /** The held bytes are given to a callback that calls nothing, and the handler goes on behind it. */
  lemma GivenSays(s: Sess, id: u16)
    requires Known(s, id) && s.streams[id].held != []
    ensures var u, st := GiveHeld(s, id), s.streams[id];
      && |u.stack| == |s.stack| + 1 && u.script == s.script && u.trace == s.trace + [Data(id, st.held)]
      && var t := Return(u);
        && t.script == s.script && t.stack == s.stack && id in t.streams
        && t.streams[id].paused == st.paused && t.streams[id].held == []
        && t.trace == s.trace + [Data(id, st.held)] + (if st.finishedRecv then [Finished(id)] else [])
  {
    hide CreditConsume, DeliverFinished;
    var u, n := GiveHeld(s, id), (|s.streams[id].held| % 0x1_0000_0000) as u32;
    assert u.stack[..|u.stack| - 1] == s.stack;
    var v := u.(stack := s.stack);
    var v1 := Put(v, id, v.streams[id].(held := []));
    CreditSays(v1, id, n);
    var w := CreditConsume(v1, id, n);
    EndSays(w, id);
    assert Return(u) == if w.streams[id].finishedRecv then DeliverFinished(w, id) else w;
  }

  /** Data for a reader that is paused is kept behind what is kept already, and not told; otherwise it is told as it came. */
  lemma DataIsHeard(b: Sess, id: u16, bytes: seq<byte>)
    requires Known(b, id) && !b.streams[id].local && !b.streams[id].finishedRecv
    requires b.streams[id].recvOutstanding as int + |bytes| <= b.window && |bytes| < 0x1_0000
    ensures var c := Receive(b, Frame(2, id, bytes));
      && id in c.streams && c.streams[id].recvOutstanding == b.streams[id].recvOutstanding + |bytes| && c.sent == b.sent
      && if b.streams[id].paused
         then c.trace == b.trace && c.streams[id].held == b.streams[id].held + bytes
         else c.trace == b.trace + [Data(id, bytes)] && c.streams[id].held == b.streams[id].held
  {
  }

  /** A released stream is forgotten; the other end is told, by a RESET without a reason, exactly if it was not over. */
  lemma ReleaseIsHeard(s: Sess, id: u16)
    requires id in s.streams
    ensures var t, st := ReleaseStream(s, id), s.streams[id];
      && id !in t.streams && (forall k <- s.streams :: k != id ==> k in t.streams && t.streams[k] == s.streams[k]) && t.trace == s.trace
      && t.sent == s.sent +
         if !st.reset && !(st.local && st.finishedSent) && !(!st.local && st.finishedRecv) && !s.closing && !s.error
         then [Frame(4, id, [0, 0, 0, 0])] else []
  {
  }

  /** Closing is told once, and the other end hears that the peer has left; from then on no stream is opened. */
  lemma CloseIsHeard(s: Sess, b: Sess, o: Opts)
    ensures var t := CloseSession(s);
      && t.closing && OpenStream(t, o) == t && CloseSession(t) == t && t.streams == s.streams && t.trace == s.trace
      && (s.goawaySent || s.error ==> t.sent == s.sent)
      && (!s.goawaySent && !s.error ==>
            && t.sent == s.sent + [Frame(6, 0, [0, 0, 0, 0])]
            && Receive(b, t.sent[|s.sent|]) == b.(rcvd := b.rcvd + 1, goawayReceived := true, trace := b.trace + [Disconnected]))
  {
  }

  /** Credit is added to the opener's window, which is told exactly if it was shut and something can still be written. */
  lemma CreditIsHeard(a: Sess, id: u16, n: u32)
    requires Known(a, id) && a.streams[id].local && a.streams[id].sendWindow as int + n < 0x1_0000_0000
    ensures var st, c := a.streams[id], Receive(a, Frame(5, id, Wr32(n)));
      && id in c.streams && c.streams[id] == st.(sendWindow := st.sendWindow + n) && c.sent == a.sent
      && c.trace == (if st.sendWindow == 0 && n > 0 && !st.finishedSent then a.trace + [Writable(id)] else a.trace)
  {
    hide Grant, Wr32, Rd32;
    Rd32Wr32(n);
    GrantSays(a.(rcvd := a.rcvd + 1), id, n);
  }

  lemma GrantSays(a: Sess, id: u16, n: u32)
    requires id in a.streams && a.streams[id].sendWindow as int + n < 0x1_0000_0000
    ensures var st, c := a.streams[id], Grant(a, id, n);
      && id in c.streams && c.streams[id] == st.(sendWindow := st.sendWindow + n) && c.sent == a.sent
      && c.trace == (if st.sendWindow == 0 && n > 0 && !st.finishedSent then a.trace + [Writable(id)] else a.trace)
  {
    hide Add32;
    var st := a.streams[id];
    NoWrap(st.sendWindow, n);
    var st1 := st.(sendWindow := st.sendWindow + n);
    if !st.finishedSent && st.sendWindow == 0 && n > 0 {
      assert Grant(a, id, n) == Log(Put(a, id, st1), Writable(id));
    } else {
      assert Grant(a, id, n) == Put(a, id, st1);
    }
  }

  lemma NoWrap(a: u32, b: u32)
    requires a as int + b < 0x1_0000_0000
    ensures Add32(a, b) == a + b
  {
  }
}
