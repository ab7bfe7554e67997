/** The reader's steps on one stream, each of which keeps `Links.Inv`. */
module Reader {
  import opened Options
  import opened Wire
  import opened Engine
  import opened Links

  // ---- frames from the opener ---------------------------------------------

  /** The first frame of the opener is taken, whatever becomes of it. */
  ghost function Taken(L: Link): Link
    requires L.fwd != []
  {
    L.(q := Next(L.q, L.fwd[0]), fwd := L.fwd[1..])
  }

  lemma TakenFacts(W: u32, id: u16, L: Link)
    requires Inv(W, id, L) && L.fwd != []
    ensures Next(L.q, L.fwd[0]) != Bad
    ensures L.opts.Some? && FwdOk(L.fwd[0], L.opts.value) && L.fwd[0].sid == id
    ensures EndPhase(Taken(L)) == EndPhase(L)
    ensures DataIn(L.fwd) == (if L.fwd[0].kind == FRAME_DATA then L.fwd[0].payload else []) + DataIn(L.fwd[1..])
    ensures forall f <- L.fwd[1..] :: f in L.fwd
  {
    if Next(L.q, L.fwd[0]) == Bad {
      BadStays(L.fwd[1..]);
    }
    assert L.fwd[0] in L.fwd;
  }

  lemma ReaderAcceptsOpen(W: u32, id: u16, L: Link)
    requires Inv(W, id, L) && L.fwd != [] && L.fwd[0].kind == FRAME_OPEN
    ensures L.q == Unopened
    ensures var o := L.opts.value;
      Inv(W, id, Taken(L).(rx := Some(NewStream(false, 0)), evs := L.evs + [Opened(id, o)]))
  {
    TakenFacts(W, id, L);
    var o := L.opts.value;
    GotOne(L.evs, Opened(id, o));
  }

  lemma ReaderRefusesOpen(W: u32, id: u16, L: Link, payload: seq<byte>)
    requires Inv(W, id, L) && L.fwd != [] && L.fwd[0].kind == FRAME_OPEN && |payload| == 4
    ensures L.q == Unopened
    ensures Inv(W, id, Taken(L).(bwd := L.bwd + [Frame(FRAME_RESET, id, payload)]))
  {
    TakenFacts(W, id, L);
    var f := Frame(FRAME_RESET, id, payload);
    assert Credit(L.bwd + [f]) == 0;
  }

  /** Frames of a stream the reader has reset or released are dropped. */
  lemma ReaderDrops(W: u32, id: u16, L: Link)
    requires Inv(W, id, L) && L.fwd != [] && !RxLive(L) && L.fwd[0].kind != FRAME_OPEN
    ensures Inv(W, id, Taken(L))
  {
    TakenFacts(W, id, L);
  }

  /** The two protocol errors DATA could raise do not arise. */
  lemma DataIsWelcome(W: u32, id: u16, L: Link)
    requires Inv(W, id, L) && L.fwd != [] && L.fwd[0].kind == FRAME_DATA && RxLive(L)
    ensures !L.rx.value.local && !L.rx.value.finishedRecv
    ensures L.rx.value.recvOutstanding as int + |L.fwd[0].payload| <= W
    ensures 0 < |L.fwd[0].payload| <= MAX_CHUNK
  {
    TakenFacts(W, id, L);
  }

  lemma ReaderHolds(W: u32, id: u16, L: Link)
    requires Inv(W, id, L) && L.fwd != [] && L.fwd[0].kind == FRAME_DATA && RxLive(L)
    requires L.rx.value.recvOutstanding as int + |L.fwd[0].payload| <= W
    requires L.rx.value.paused && L.pend == []
    ensures var r, p := L.rx.value, L.fwd[0].payload;
      Inv(W, id, Taken(L).(rx := Some(r.(recvOutstanding := r.recvOutstanding as int + |p|, held := r.held + p))))
  {
    TakenFacts(W, id, L);
    var r, p := L.rx.value, L.fwd[0].payload;
    assert Got(L.evs) + (r.held + p) + DataIn(L.fwd[1..]) == Got(L.evs) + r.held + (p + DataIn(L.fwd[1..]));
  }

  lemma ReaderDelivers(W: u32, id: u16, L: Link)
    requires Inv(W, id, L) && L.fwd != [] && L.fwd[0].kind == FRAME_DATA && RxLive(L)
    requires L.rx.value.recvOutstanding as int + |L.fwd[0].payload| <= W
    requires |L.fwd[0].payload| <= MAX_CHUNK
    requires !L.rx.value.paused && L.pend == []
    ensures var r, p := L.rx.value, L.fwd[0].payload;
      Inv(W, id, Taken(L).(rx := Some(r.(recvOutstanding := r.recvOutstanding as int + |p|)),
                           evs := L.evs + [Data(id, p)], pend := [Delivering(id, |p|)]))
  {
    TakenFacts(W, id, L);
    var r, p := L.rx.value, L.fwd[0].payload;
    GotOne(L.evs, Data(id, p));
    assert Got(L.evs) + p + [] + DataIn(L.fwd[1..]) == Got(L.evs) + [] + (p + DataIn(L.fwd[1..]));
  }

  lemma ReaderEnds(W: u32, id: u16, L: Link)
    requires Inv(W, id, L) && L.fwd != [] && L.fwd[0].kind == FRAME_EOF && RxLive(L) && L.pend == []
    ensures !L.rx.value.local && !L.rx.value.finishedRecv
    ensures Inv(W, id, Taken(L).(rx := Some(L.rx.value.(finishedRecv := true))))
  {
    TakenFacts(W, id, L);
    NoDataAfterEnd(Ended, L.fwd[1..]);
  }

  lemma ReaderGetsReset(W: u32, id: u16, L: Link, reason: u32)
    requires Inv(W, id, L) && L.fwd != [] && L.fwd[0].kind == FRAME_RESET && RxLive(L) && L.pend == []
    ensures Inv(W, id, Taken(L).(rx := Some(L.rx.value.(reset := true)), evs := L.evs + [WasReset(id, reason)]))
  {
    TakenFacts(W, id, L);
    NoDataAfterEnd(Next(L.q, L.fwd[0]), L.fwd[1..]);
    GotOne(L.evs, WasReset(id, reason));
    assert L.q == Ended ==> DataIn(L.fwd) == [];
  }

  // ---- the reader's calls -------------------------------------------------

  lemma ReaderPauses(W: u32, id: u16, L: Link)
    requires Inv(W, id, L) && L.rx.Some?
    ensures Inv(W, id, L.(rx := Some(L.rx.value.(paused := true))))
  {
  }

  lemma ReaderResets(W: u32, id: u16, L: Link, payload: seq<byte>)
    requires Inv(W, id, L) && RxLive(L) && |payload| == 4
    ensures Inv(W, id, L.(rx := Some(L.rx.value.(reset := true)), bwd := L.bwd + [Frame(FRAME_RESET, id, payload)]))
  {
    var f := Frame(FRAME_RESET, id, payload);
    CreditAppend(L.bwd, [f]);
    assert Credit([f]) == 0;
    assert f in L.bwd + [f];
    if L.q == Ended {
      NoDataAfterEnd(L.q, L.fwd);
    }
  }

  /** Release with a RESET frame, and without one. */
  lemma ReaderReleases(W: u32, id: u16, L: Link, payload: seq<byte>)
    requires Inv(W, id, L) && L.rx.Some? && |payload| == 4
    ensures RxLive(L) ==> Inv(W, id, L.(rx := None, bwd := L.bwd + [Frame(FRAME_RESET, id, payload)]))
    ensures Inv(W, id, L.(rx := None))
  {
    var f := Frame(FRAME_RESET, id, payload);
    CreditAppend(L.bwd, [f]);
    assert Credit([f]) == 0;
  }

  lemma ReaderResumesIdle(W: u32, id: u16, L: Link)
    requires Inv(W, id, L) && L.rx.Some? && L.rx.value.held == []
    ensures Inv(W, id, L.(rx := Some(L.rx.value.(paused := false))))
  {
  }

  lemma ReaderResumesHeld(W: u32, id: u16, L: Link, n: u32)
    requires Inv(W, id, L) && L.rx.Some? && |L.rx.value.held| > 0
    requires L.rx.value.paused && !(|L.pend| > 0 && L.pend[0].Resuming?)
    requires n == |L.rx.value.held| % 0x1_0000_0000
    ensures var r := L.rx.value;
      Inv(W, id, L.(rx := Some(r.(paused := false)), evs := L.evs + [Data(id, r.held)], pend := L.pend + [Resuming(id, n)]))
  {
    var r := L.rx.value;
    GotOne(L.evs, Data(id, r.held));
    if RxLive(L) {
      assert L.pend == [];
      assert Got(L.evs) + r.held + [] + DataIn(L.fwd) == Got(L.evs) + r.held + DataIn(L.fwd);
    }
  }

  // ---- credit and the end of a stream --------------------------------------

  ghost function CreditSent(id: u16, L: Link, r: Stream): Link {
    L.(rx := Some(Flushed(r)), bwd := L.bwd + CreditFrames(id, r))
  }

  /** A WINDOW frame moves its bytes from the reader's account into the opener's. */
  lemma FlushKeepsCredit(W: u32, id: u16, L: Link, r: Stream)
    requires L.rx.Some? && CreditInv(W, L.(rx := Some(r))) && r.reset == L.rx.value.reset
    requires r.creditPending <= r.recvOutstanding
    requires RxLive(L) ==> !HasReset(L.bwd)
    requires !RxLive(L) && TxLive(L) ==> HasReset(L.bwd)
    ensures CreditInv(W, CreditSent(id, L, r))
  {
    CreditOfFrames(id, r);
    CreditAppend(L.bwd, CreditFrames(id, r));
  }

  lemma FlushKeepsFrames(id: u16, L: Link, r: Stream)
    requires FramesInv(id, L)
    ensures FramesInv(id, CreditSent(id, L, r))
    ensures HasReset(CreditSent(id, L, r).bwd) <==> HasReset(L.bwd)
  {
    CreditOfFrames(id, r);
    assert forall f :: f in L.bwd ==> f in L.bwd + CreditFrames(id, r);
  }

  lemma ReaderFlushes(W: u32, id: u16, L: Link)
    requires Inv(W, id, L) && L.rx.Some?
    ensures Inv(W, id, CreditSent(id, L, L.rx.value))
  {
    hide ContentInv, CreditInv, FramesInv, Run;
    FlushKeepsCredit(W, id, L, L.rx.value);
    FlushKeepsFrames(id, L, L.rx.value);
    FlushKeepsContent(id, L, L.rx.value);
    assert L.(rx := Some(L.rx.value)) == L;
  }

  lemma ReaderReportsEnd(W: u32, id: u16, L: Link)
    requires Inv(W, id, L) && L.rx.Some? && L.rx.value.finishedRecv && L.rx.value.held == []
    ensures Got(L.evs) == L.wrote && EofSeen(EndPhase(L))
    ensures Inv(W, id, CreditSent(id, L, L.rx.value).(evs := L.evs + [Finished(id)]))
  {
    ReaderFlushes(W, id, L);
    GotOne(L.evs, Finished(id));
    NoDataAfterEnd(L.q, L.fwd);
  }

  /** credit_consume with the bytes of the delivery that just ended. */
  ghost function Settled(W: u32, id: u16, L: Link, held: seq<byte>): Link
    requires L.rx.Some? && |L.pend| == 1
  {
    var (st, fs) := Consumed(W, id, L.rx.value.(held := held), L.pend[0].n);
    L.(rx := Some(st), bwd := L.bwd + fs, pend := [])
  }

  /** The consumed bytes move from the callback's hands into pending credit. */
  ghost function Credited(L: Link): Link
    requires L.rx.Some? && |L.pend| == 1
  {
    var r := L.rx.value;
    L.(rx := Some(r.(held := [], creditPending := Add32(r.creditPending, L.pend[0].n))), pend := [])
  }

  lemma CreditedContent(W: u32, id: u16, L: Link)
    requires Inv(W, id, L) && RxLive(L) && |L.pend| == 1
    ensures ContentInv(Credited(L)) && CreditInv(W, Credited(L))
    ensures Credited(L).rx.value.creditPending == L.rx.value.recvOutstanding
  {
    hide TxInv, FramesInv, Run;
    assert L.rx.value.creditPending as int + L.pend[0].n == L.rx.value.recvOutstanding;
    assert HeldLeft(L.rx.value, L.pend) == [];
    if L.rx.value.finishedRecv {
      NoDataLeft(L);
    }
  }

  lemma NoDataLeft(L: Link)
    requires TxInv(L) && L.q == Ended
    ensures DataIn(L.fwd) == []
  {
    NoDataAfterEnd(L.q, L.fwd);
  }

  lemma ReaderSettles(W: u32, id: u16, L: Link)
    requires Inv(W, id, L) && RxLive(L) && |L.pend| == 1
    ensures Inv(W, id, Settled(W, id, L, []))
  {
    hide ContentInv, CreditInv, FramesInv, Run;
    CreditedContent(W, id, L);
    CreditedFrames(id, L);
    var r1 := Credited(L).rx.value;
    if r1.creditPending >= Threshold(W) {
      FlushKeepsCredit(W, id, Credited(L), r1);
      FlushKeepsFrames(id, Credited(L), r1);
      assert Settled(W, id, L, []) == CreditSent(id, Credited(L), r1);
      FlushKeepsContent(id, Credited(L), r1);
    } else {
      assert Settled(W, id, L, []) == Credited(L).(bwd := L.bwd + []);
      assert L.bwd + [] == L.bwd;
    }
  }

  lemma FlushKeepsContent(id: u16, L: Link, r: Stream)
    requires ContentInv(L) && L.rx == Some(r)
    ensures ContentInv(CreditSent(id, L, r))
  {
  }

  lemma CreditedFrames(id: u16, L: Link)
    requires FramesInv(id, L) && L.rx.Some? && |L.pend| == 1
    ensures FramesInv(id, Credited(L))
  {
  }

  /** A callback runs only on an accepted stream, and nothing else is in flight to it. */
  lemma OneCallback(W: u32, id: u16, L: Link, p: Pend)
    requires Inv(W, id, L) && p in L.pend
    ensures L.q != Unopened
    ensures RxLive(L) ==> L.pend == [p]
    ensures RxLive(L) && p.Delivering? ==> L.rx.value.held == [] && !L.rx.value.finishedRecv
  {
  }

  /** Leaving a callback on a stream that was reset meanwhile. */
  lemma ReaderLeaves(W: u32, id: u16, L: Link, pend: seq<Pend>)
    requires Inv(W, id, L) && !RxLive(L) && (L.q == Unopened ==> pend == [])
    ensures Inv(W, id, L.(pend := pend))
  {
  }
}
