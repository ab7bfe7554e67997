/** Each call, frame and callback return of one session keeps `System.Linked`. */
module Steps {
  import opened Options
  import opened Wire
  import opened Engine
  import opened Links
  import opened Reader
  import opened System

  // ---- calls --------------------------------------------------------------

  lemma OpenIsLocal(s: Sess, o: Opts)
    requires SessInv(s) && OpenStream(s, o) != s && Within(OpenStream(s, o))
    ensures var t, id := OpenStream(s, o), s.nextTxId;
      && id == Limit(s) && Own(s.role, id)
      && SessInv(t)
      && Local(s, t, id, [Frame(FRAME_OPEN, id, Wr16(o.kind) + Wr64(o.hint))], [])
      && Limit(t) == Limit(s) + 2
  {
    var id := s.nextTxId;
    NextIsOwn(s);
    hide Own;
    OpenTouches(s, o);
    OpenStaysSess(s, o);
    hide SessInv, Local, OpenStream;
  }

  /** Before the ids run out the counter is not cut, and has the side's parity. */
  lemma NextIsOwn(s: Sess)
    requires SessInv(s) && s.opens < MAX_OPENS
    ensures s.nextTxId == Limit(s) && Own(s.role, s.nextTxId)
  {
    assert Base(s.role) % 2 == (Base(s.role) + 2 * s.opens) % 2;
  }

  lemma OpenTouches(s: Sess, o: Opts)
    requires OpenStream(s, o) != s && s.nextTxId == Limit(s)
    ensures var t, id := OpenStream(s, o), s.nextTxId;
      && Local(s, t, id, [Frame(FRAME_OPEN, id, Wr16(o.kind) + Wr64(o.hint))], [])
      && Limit(t) == Limit(s) + 2 && s.opens + 1 == t.opens
  {
    assert s.trace + [] == s.trace;
  }

  lemma OpenStaysSess(s: Sess, o: Opts)
    requires SessInv(s) && OpenStream(s, o) != s && Within(OpenStream(s, o)) && Own(s.role, s.nextTxId)
    ensures SessInv(OpenStream(s, o))
  {
    hide Own;
    var t := OpenStream(s, o);
    assert t.streams == s.streams[s.nextTxId := NewStream(true, s.window)];
  }

  lemma OpenKeeps(s: Sess, b: Sess, o: Opts)
    requires Linked(s, b) && Within(OpenStream(s, o))
    ensures Linked(OpenStream(s, o), b)
  {
    hide Links.Inv, LinkOf, Run, Half, SessInv, Local, Clean, Own, Limit;
    var t := OpenStream(s, o);
    if t != s {
      OpenIsLocal(s, o);
      var id := s.nextTxId;
      OpenerInv(s, b, id);
      var f := Frame(FRAME_OPEN, id, Wr16(o.kind) + Wr64(o.hint));
      OwnLink(s, t, b, id, [f], []);
      OpenerOpens(s.window, id, LinkOf(s, b, id), o);
      OpenerStep(s, t, b, id, [f]);
    }
  }

  lemma WriteIsLocal(s: Sess, id: u16, data: seq<byte>)
    requires SessInv(s) && id in s.streams
    requires s.streams[id].local && !s.streams[id].finishedSent && !s.streams[id].reset
    ensures var t, n := WriteStream(s, id, data), Accepted(s.streams[id], data);
      && Own(s.role, id) && Clean(s, t, id, Chunks(id, data[..n])) && Local(s, t, id, Chunks(id, data[..n]), [])
      && Limit(t) == Limit(s) && id in t.wrote
      && t.streams[id] == s.streams[id].(sendWindow := s.streams[id].sendWindow - n)
      && t.wrote[id] == (if id in s.wrote then s.wrote[id] else []) + data[..n]
      && t.opts == s.opts
  {
    ChunksFacts(id, data[..Accepted(s.streams[id], data)]);
  }

  lemma WriteKeeps(s: Sess, b: Sess, id: u16, data: seq<byte>)
    requires Linked(s, b) && id in s.streams
    ensures Linked(WriteStream(s, id, data), b)
  {
    hide Links.Inv, LinkOf, Run, Half, SessInv, Local, Clean, Own, Limit, Chunks;
    var t := WriteStream(s, id, data);
    var st := s.streams[id];
    if st.local && !st.finishedSent && !st.reset {
      var d := data[..Accepted(st, data)];
      WriteIsLocal(s, id, data);
      OpenerInv(s, b, id);
      OwnLink(s, t, b, id, Chunks(id, d), []);
      OpenerWrites(s.window, id, LinkOf(s, b, id), d);
      assert LinkOf(t, b, id) == Wrote(id, LinkOf(s, b, id), d);
      StillSess(s, t, id, Chunks(id, d), []);
      OpenerStep(s, t, b, id, Chunks(id, d));
    }
  }

  lemma FinishKeeps(s: Sess, b: Sess, id: u16)
    requires Linked(s, b) && id in s.streams
    ensures Linked(FinishStream(s, id), b)
  {
    hide Links.Inv, LinkOf, Run, Half, HalfAt, PendsOf;
    var t := FinishStream(s, id);
    if t != s {
      var fs := [Frame(FRAME_EOF, id, [])];
      OpenerInv(s, b, id);
      assert Local(s, t, id, fs, []);
      OwnLink(s, t, b, id, fs, []);
      OpenerFinishes(s.window, id, LinkOf(s, b, id));
      StillSess(s, t, id, fs, []);
      OpenerStep(s, t, b, id, fs);
    }
  }

  lemma ResetKeeps(s: Sess, b: Sess, id: u16, reason: u32)
    requires Linked(s, b) && id in s.streams
    ensures Linked(ResetStream(s, id, reason), b)
  {
    hide Links.Inv, LinkOf, Run, Half, HalfAt, PendsOf;
    var t := ResetStream(s, id, reason);
    if t != s {
      var fs := [Frame(FRAME_RESET, id, Wr32(reason))];
      assert Local(s, t, id, fs, []);
      OwnLink(s, t, b, id, fs, []);
      if Own(s.role, id) {
        OpenerInv(s, b, id);
        OpenerAborts(s.window, id, LinkOf(s, b, id), Lookup(t.streams, id), Wr32(reason));
        StillSess(s, t, id, fs, []);
        OpenerStep(s, t, b, id, fs);
      } else {
        var L := LinkOf(b, s, id);
        ReaderInv(s, b, id);
        ReaderResets(s.window, id, L, Wr32(reason));
        assert L.evs + [] == L.evs;
        ReaderStep(s, t, b, id, fs, []);
      }
    }
  }

  lemma PauseKeeps(s: Sess, b: Sess, id: u16)
    requires Linked(s, b) && id in s.streams
    ensures Linked(PauseStream(s, id), b)
  {
    hide Links.Inv, LinkOf, Run, Half, HalfAt, PendsOf;
    var t := PauseStream(s, id);
    if t != s {
      ReaderInv(s, b, id);
      assert t.sent == s.sent + [] && t.trace == s.trace + [];
      assert Local(s, t, id, [], []);
      OwnLink(s, t, b, id, [], []);
      ReaderPauses(s.window, id, LinkOf(b, s, id));
      assert LinkOf(b, s, id).bwd + [] == LinkOf(b, s, id).bwd && LinkOf(b, s, id).evs + [] == LinkOf(b, s, id).evs;
      ReaderStep(s, t, b, id, [], []);
    }
  }

  lemma ReleaseKeeps(s: Sess, b: Sess, id: u16)
    requires Linked(s, b) && id in s.streams
    ensures Linked(ReleaseStream(s, id), b)
  {
    hide Links.Inv, LinkOf, Run, Half, HalfAt, PendsOf;
    var t := ReleaseStream(s, id);
    var fs := t.sent[|s.sent|..];
    assert t.trace == s.trace + [];
    assert Local(s, t, id, fs, []);
    OwnLink(s, t, b, id, fs, []);
    if Own(s.role, id) {
      var L := LinkOf(s, b, id);
      OpenerInv(s, b, id);
      if fs == [] {
        OpenerForgets(s.window, id, L);
        assert L.fwd + [] == L.fwd;
      } else {
        OpenerAborts(s.window, id, L, None, Wr32(ESP_OK));
      }
      StillSess(s, t, id, fs, []);
      OpenerStep(s, t, b, id, fs);
    } else {
      var L := LinkOf(b, s, id);
      ReaderInv(s, b, id);
      ReaderReleases(s.window, id, L, Wr32(ESP_OK));
      assert L.evs + [] == L.evs && (fs == [] ==> L.bwd + fs == L.bwd);
      ReaderStep(s, t, b, id, fs, []);
    }
  }

  lemma CloseIsLocal(s: Sess, fs: seq<Frame>)
    requires fs == if !s.goawaySent && !s.error then [Frame(FRAME_GOAWAY, 0, Wr32(ESP_OK))] else []
    ensures Local(s, CloseSession(s), 0, fs, [])
  {
    hide PendsOf, Wr32;
    assert s.sent + [] == s.sent && s.trace + [] == s.trace;
    if !s.goawaySent && !s.error {} else {}
  }

  lemma CloseKeeps(s: Sess, b: Sess)
    requires Linked(s, b)
    ensures Linked(CloseSession(s), b)
  {
    hide Links.Inv, LinkOf, Run, PendsOf;
    var t := CloseSession(s);
    var fs := if !s.goawaySent && !s.error then [Frame(FRAME_GOAWAY, 0, Wr32(ESP_OK))] else [];
    assert s.sent + [] == s.sent && t.trace == s.trace + [];
    CloseIsLocal(s, fs);
    hide CloseSession, Local;
    LocalStep(s, t, b, 0, fs, []);
  }

  // ---- the end of a stream --------------------------------------------------

  /** deliver_finished on a reader's stream whose data was all handed over. */
  lemma DeliverFinishedKeeps(s: Sess, b: Sess, id: u16)
    requires Linked(s, b) && id in s.streams && !s.streams[id].local
    requires s.streams[id].finishedRecv && s.streams[id].held == []
    ensures Linked(DeliverFinished(s, id), b)
  {
    hide Links.Inv, LinkOf, Run, Half, HalfAt, PendsOf;
    var t := DeliverFinished(s, id);
    var fs := CreditFrames(id, s.streams[id]);
    var L := LinkOf(b, s, id);
    ReaderInv(s, b, id);
    assert Local(s, t, id, fs, [Finished(id)]);
    OwnLink(s, t, b, id, fs, [Finished(id)]);
    ReaderReportsEnd(s.window, id, L);
    assert LinkOf(b, t, id) == CreditSent(id, L, s.streams[id]).(evs := L.evs + [Finished(id)]);
    ReaderStep(s, t, b, id, fs, [Finished(id)]);
  }

  // ---- resume ---------------------------------------------------------------

  lemma ResumeIdleKeeps(s: Sess, b: Sess, id: u16)
    requires Linked(s, b) && id in s.streams && !s.streams[id].local && s.streams[id].held == []
    ensures Linked(Put(s, id, s.streams[id].(paused := false)), b)
  {
    hide Links.Inv, LinkOf, Run, Half, HalfAt, PendsOf;
    var t := Put(s, id, s.streams[id].(paused := false));
    var L := LinkOf(b, s, id);
    ReaderInv(s, b, id);
    assert t.sent == s.sent + [] && t.trace == s.trace + [];
    assert Local(s, t, id, [], []);
    OwnLink(s, t, b, id, [], []);
    ReaderResumesIdle(s.window, id, L);
    assert L.bwd + [] == L.bwd && L.evs + [] == L.evs;
    ReaderStep(s, t, b, id, [], []);
  }

  lemma ResumeKeeps(s: Sess, b: Sess, id: u16)
    requires Linked(s, b) && id in s.streams && Within(ResumeStream(s, id))
    ensures Linked(ResumeStream(s, id), b)
  {
    hide Links.Inv, LinkOf, Run, Half, HalfAt, PendsOf;
    var t := ResumeStream(s, id);
    var st := s.streams[id];
    if st.local || !st.paused {
    } else if st.held == [] {
      ResumeIdleKeeps(s, b, id);
      if st.finishedRecv {
        DeliverFinishedKeeps(Put(s, id, st.(paused := false)), b, id);
      }
    } else {
      ResumeHeldKeeps(s, b, id);
    }
  }

  lemma ResumeHeldKeeps(s: Sess, b: Sess, id: u16)
    requires Linked(s, b) && id in s.streams && Within(ResumeStream(s, id))
    requires !s.streams[id].local && s.streams[id].paused && s.streams[id].held != []
    ensures Linked(ResumeStream(s, id), b)
  {
    hide Links.Inv, LinkOf, Run, Half, HalfAt, PendsOf;
    var t := ResumeStream(s, id);
    var st := s.streams[id];
    var L := LinkOf(b, s, id);
    ReaderInv(s, b, id);
    var p := Resuming(id, |st.held| % 0x1_0000_0000);
    var es := [Data(id, st.held)];
    assert t.stack == s.stack + [p];
    forall k: u16 ensures PendsOf(t.stack, k) == PendsOf(s.stack, k) + if p.id == k then [p] else [] {
      PendsAppend(s.stack, p, k);
    }
    assert t.sent == s.sent + [];
    assert Local(s, t, id, [], es);
    OwnLink(s, t, b, id, [], es);
    PendsIn(s.stack, id);
    ReaderResumesHeld(s.window, id, L, p.n);
    assert L.bwd + [] == L.bwd;
    ReaderStep(s, t, b, id, [], es);
  }

  // ---- returning from a callback ---------------------------------------------

  lemma SplitStack(stack: seq<Pend>, id: u16)
    requires stack != []
    ensures var p := stack[|stack| - 1];
      PendsOf(stack, id) == PendsOf(stack[..|stack| - 1], id) + if p.id == id then [p] else []
  {
    var p := stack[|stack| - 1];
    assert stack == stack[..|stack| - 1] + [p];
    PendsAppend(stack[..|stack| - 1], p, id);
  }

  /** The running callback's stream, once its bytes are consumed. */
  ghost function SettledSess(s: Sess): Sess
    requires s.stack != [] && s.stack[|s.stack| - 1].id in s.streams
  {
    var p := s.stack[|s.stack| - 1];
    CreditConsume(Put(s.(stack := s.stack[..|s.stack| - 1]), p.id, s.streams[p.id].(held := [])), p.id, p.n)
  }

  lemma SettleIsLocal(s: Sess)
    requires SessInv(s) && s.stack != [] && s.stack[|s.stack| - 1].id in s.streams
    ensures var p, t := s.stack[|s.stack| - 1], SettledSess(s);
      var (st, fs) := Consumed(s.window, p.id, s.streams[p.id].(held := []), p.n);
      && Clean(s, t, p.id, fs) && Local(s, t, p.id, fs, []) && !Own(s.role, p.id) && p.id != 0
      && Lookup(t.streams, p.id) == Some(st)
      && PendsOf(s.stack, p.id) == PendsOf(t.stack, p.id) + [p]
  {
    var p, t := s.stack[|s.stack| - 1], SettledSess(s);
    forall k: u16 ensures PendsOf(s.stack, k) == PendsOf(t.stack, k) + if p.id == k then [p] else [] {
      SplitStack(s.stack, k);
    }
    assert t.trace == s.trace + [];
  }

  /** credit_consume as the callback of a live stream returns. */
  lemma SettleKeeps(s: Sess, b: Sess)
    requires Linked(s, b) && s.stack != []
    requires var id := s.stack[|s.stack| - 1].id; id in s.streams && !s.streams[id].reset
    ensures Linked(SettledSess(s), b)
    ensures var p := s.stack[|s.stack| - 1]; p.Delivering? ==> s.streams[p.id].held == [] && !s.streams[p.id].finishedRecv
  {
    hide Links.Inv, LinkOf, Run, Half, SessInv, Local, Clean, Own, Limit, SettledSess, Consumed;
    var p, t := s.stack[|s.stack| - 1], SettledSess(s);
    var id := p.id;
    var L := LinkOf(b, s, id);
    var fs := Consumed(s.window, id, s.streams[id].(held := []), p.n).1;
    SettleIsLocal(s);
    ReaderInv(s, b, id);
    PendsIn(s.stack, id);
    OneCallback(s.window, id, L, p);
    assert PendsOf(t.stack, id) == [];
    OwnLink(s, t, b, id, fs, []);
    ReaderSettles(s.window, id, L);
    assert L.evs + [] == L.evs;
    assert LinkOf(b, t, id) == Settled(s.window, id, L, []);
    ReaderStep(s, t, b, id, fs, []);
  }

  /** The stream was reset or released meanwhile. */
  lemma LeaveKeeps(s: Sess, b: Sess)
    requires Linked(s, b) && s.stack != []
    requires var id := s.stack[|s.stack| - 1].id; id in s.streams ==> s.streams[id].reset
    ensures Linked(s.(stack := s.stack[..|s.stack| - 1]), b)
  {
    hide Links.Inv, LinkOf, Run, Half, HalfAt, PendsOf;
    var p := s.stack[|s.stack| - 1];
    var id := p.id;
    var t := s.(stack := s.stack[..|s.stack| - 1]);
    var L := LinkOf(b, s, id);
    ReaderInv(s, b, id);
    forall k: u16 ensures PendsOf(s.stack, k) == PendsOf(t.stack, k) + if p.id == k then [p] else [] {
      SplitStack(s.stack, k);
    }
    assert t.sent == s.sent + [] && t.trace == s.trace + [];
    assert Local(s, t, id, [], []);
    OwnLink(s, t, b, id, [], []);
    PendsIn(s.stack, id);
    OneCallback(s.window, id, L, p);
    ReaderLeaves(s.window, id, L, PendsOf(t.stack, id));
    assert L.bwd + [] == L.bwd && L.evs + [] == L.evs;
    ReaderStep(s, t, b, id, [], []);
  }

  lemma ReturnKeeps(s: Sess, b: Sess)
    requires Linked(s, b) && s.stack != []
    ensures Linked(Return(s), b)
  {
    hide Linked, Consumed, FlushCredit, DeliverFinished;
    var p := s.stack[|s.stack| - 1];
    var id := p.id;
    if id !in s.streams || s.streams[id].reset {
      LeaveKeeps(s, b);
    } else {
      SettleKeeps(s, b);
      var t := SettledSess(s);
      if p.Delivering? {
        assert s.streams[id].(held := []) == s.streams[id];
        assert s.streams[id := s.streams[id]] == s.streams;
        assert Return(s) == t;
      } else if t.streams[id].finishedRecv {
        SettledReader(s, b);
        DeliverFinishedKeeps(t, b, id);
      }
    }
  }

  lemma SettledReader(s: Sess, b: Sess)
    requires Linked(s, b) && s.stack != [] && s.stack[|s.stack| - 1].id in s.streams
    ensures var id := s.stack[|s.stack| - 1].id;
      !SettledSess(s).streams[id].local && SettledSess(s).streams[id].held == []
  {
  }
}
