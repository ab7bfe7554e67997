/**
 One stream seen from both ends at once: the opener's record, the reader's record, and the frames that travel
 for it in either direction. `Inv` is what every step of either end keeps; the lemmas take the steps one by one.
 */
module Links {
  import opened Options
  import opened Wire
  import opened Engine

  /** How far the frames of a stream have taken it. */
  datatype Phase = Unopened | Streaming | Ended | Aborted(eof: bool) | Bad

  /**
   `q` is the phase after the opener's frames that the reader has processed, `fwd` the opener's frames it has not,
   `bwd` the reader's frames the opener has not processed. `evs` are the reader's events, `pend` its running callbacks,
   `opts` and `wrote` what the opener asked for and the bytes it had accepted.
   */
  datatype Link = Link(
    tx: Option<Stream>,
    rx: Option<Stream>,
    q: Phase,
    fwd: seq<Frame>,
    bwd: seq<Frame>,
    evs: seq<Event>,
    pend: seq<Pend>,
    opts: Option<Opts>,
    wrote: seq<byte>)

  // ---- phases -------------------------------------------------------------

  ghost function Next(q: Phase, f: Frame): Phase {
    match q
    case Unopened => if f.kind == FRAME_OPEN then Streaming else Bad
    case Streaming =>
      if f.kind == FRAME_DATA then Streaming
      else if f.kind == FRAME_EOF then Ended
      else if f.kind == FRAME_RESET then Aborted(false)
      else Bad
    case Ended => if f.kind == FRAME_RESET then Aborted(true) else Bad
    case Aborted(_) => Bad
    case Bad => Bad
  }

  ghost function Run(q: Phase, fs: seq<Frame>): Phase
    decreases |fs|
  {
    if fs == [] then q else Run(Next(q, fs[0]), fs[1..])
  }

  ghost predicate EofSeen(q: Phase) {
    q == Ended || q == Aborted(true)
  }

  lemma {:induction false} RunAppend(q: Phase, fs: seq<Frame>, gs: seq<Frame>)
    ensures Run(q, fs + gs) == Run(Run(q, fs), gs)
    decreases |fs|
  {
    if fs == [] {
      assert fs + gs == gs;
    } else {
      assert (fs + gs)[1..] == fs[1..] + gs;
      RunAppend(Next(q, fs[0]), fs[1..], gs);
    }
  }

  lemma RunOne(q: Phase, fs: seq<Frame>, f: Frame)
    ensures Run(q, fs + [f]) == Next(Run(q, fs), f)
  {
    RunAppend(q, fs, [f]);
    assert [f][1..] == [];
    assert Run(Next(Run(q, fs), f), [f][1..]) == Next(Run(q, fs), f);
  }

  // ---- payload bytes and credit in flight ---------------------------------

  ghost function DataIn(fs: seq<Frame>): seq<byte> {
    if fs == [] then []
    else (if fs[0].kind == FRAME_DATA then fs[0].payload else []) + DataIn(fs[1..])
  }

  lemma {:induction false} DataInAppend(fs: seq<Frame>, gs: seq<Frame>)
    ensures DataIn(fs + gs) == DataIn(fs) + DataIn(gs)
  {
    if fs == [] {
      assert fs + gs == gs;
    } else {
      assert (fs + gs)[1..] == fs[1..] + gs;
      DataInAppend(fs[1..], gs);
    }
  }

  lemma DataInOne(f: Frame)
    ensures DataIn([f]) == if f.kind == FRAME_DATA then f.payload else []
  {
    assert [f][1..] == [];
  }

  /** Once the stream ended, no DATA can follow. */
  lemma {:induction false} NoDataAfterEnd(q: Phase, fs: seq<Frame>)
    requires q == Ended || q.Aborted? || q == Bad
    requires Run(q, fs) != Bad
    ensures DataIn(fs) == []
    ensures EofSeen(q) ==> EofSeen(Run(q, fs))
    ensures q.Aborted? ==> fs == []
    decreases |fs|
  {
    if fs != [] {
      if Next(q, fs[0]) == Bad {
        BadStays(fs[1..]);
      }
      NoDataAfterEnd(Next(q, fs[0]), fs[1..]);
    }
  }

  lemma {:induction false} BadStays(fs: seq<Frame>)
    ensures Run(Bad, fs) == Bad
  {
    if fs != [] {
      BadStays(fs[1..]);
    }
  }

  /** The credit a live opener will still take from `fs`: what the WINDOW frames before any RESET grant. */
  ghost function Credit(fs: seq<Frame>): nat {
    if fs == [] || fs[0].kind == FRAME_RESET then 0
    else (if fs[0].kind == FRAME_WINDOW && |fs[0].payload| == 4 then Rd32(fs[0].payload) else 0) + Credit(fs[1..])
  }

  ghost predicate HasReset(fs: seq<Frame>) {
    exists f <- fs :: f.kind == FRAME_RESET
  }

  lemma {:induction false} CreditAppend(fs: seq<Frame>, gs: seq<Frame>)
    ensures Credit(fs + gs) == Credit(fs) + if HasReset(fs) then 0 else Credit(gs)
  {
    if fs == [] {
      assert fs + gs == gs;
    } else {
      assert (fs + gs)[1..] == fs[1..] + gs;
      CreditAppend(fs[1..], gs);
      assert HasReset(fs) <==> fs[0].kind == FRAME_RESET || HasReset(fs[1..]);
    }
  }

  lemma CreditOfFrames(id: u16, st: Stream)
    ensures Credit(CreditFrames(id, st)) == st.creditPending
    ensures !HasReset(CreditFrames(id, st))
    ensures forall f <- CreditFrames(id, st) :: BwdOk(f) && f.sid == id
  {
    Rd32Wr32(st.creditPending);
    if st.creditPending != 0 {
      assert CreditFrames(id, st)[1..] == [];
    }
  }

  // ---- delivered bytes ----------------------------------------------------

  ghost function Got(evs: seq<Event>): seq<byte> {
    if evs == [] then []
    else (if evs[0].Data? then evs[0].bytes else []) + Got(evs[1..])
  }

  lemma {:induction false} GotAppend(evs: seq<Event>, more: seq<Event>)
    ensures Got(evs + more) == Got(evs) + Got(more)
  {
    if evs == [] {
      assert evs + more == more;
    } else {
      assert (evs + more)[1..] == evs[1..] + more;
      GotAppend(evs[1..], more);
    }
  }

  lemma GotOne(evs: seq<Event>, e: Event)
    ensures Got(evs + [e]) == Got(evs) + if e.Data? then e.bytes else []
  {
    GotAppend(evs, [e]);
    assert [e][1..] == [];
  }

  ghost predicate HasFinished(evs: seq<Event>) {
    exists e <- evs :: e.Finished?
  }

  // ---- chunking -----------------------------------------------------------

  lemma {:induction false} ChunksFacts(id: u16, data: seq<byte>)
    ensures DataIn(Chunks(id, data)) == data
    ensures Run(Streaming, Chunks(id, data)) == Streaming
    ensures forall f <- Chunks(id, data) :: f.sid == id && f.kind == FRAME_DATA && 0 < |f.payload| <= MAX_CHUNK
    decreases |data|
  {
    if data != [] {
      var n := if |data| > MAX_CHUNK then MAX_CHUNK else |data|;
      ChunksFacts(id, data[n..]);
      assert Chunks(id, data)[1..] == Chunks(id, data[n..]);
      assert data == data[..n] + data[n..];
    }
  }

  // ---- the invariant ------------------------------------------------------

  ghost predicate TxLive(L: Link) { L.tx.Some? && !L.tx.value.reset }

  ghost predicate RxLive(L: Link) { L.rx.Some? && !L.rx.value.reset }

  /** The phase all the opener's frames lead to. */
  ghost function EndPhase(L: Link): Phase { Run(L.q, L.fwd) }

  ghost predicate TxInv(L: Link) {
    && EndPhase(L) != Bad
    && (EndPhase(L) == Unopened ==> L.tx.None? && L.opts.None? && L.wrote == [])
    && (EndPhase(L) != Unopened ==> L.opts.Some?)
    && (L.tx.Some? ==> L.tx.value.local)
    && (TxLive(L) ==> EndPhase(L) == if L.tx.value.finishedSent then Ended else Streaming)
    && (L.tx.Some? && EofSeen(EndPhase(L)) ==> L.tx.value.finishedSent)
  }

  /** What the reader has received but not credited is pending credit, held bytes, or in the hands of a callback. */
  ghost predicate Accounts(r: Stream, pend: seq<Pend>) {
    && |pend| <= 1
    && (pend == [] ==> r.recvOutstanding == r.creditPending + |r.held| && (!r.paused ==> r.held == []))
    && (|pend| == 1 ==> r.recvOutstanding == r.creditPending + pend[0].n)
    && (|pend| == 1 && pend[0].Delivering? ==> r.held == [] && !r.finishedRecv)
    && (|pend| == 1 && pend[0].Resuming? ==> pend[0].n == |r.held| > 0)
  }

  ghost predicate RxInv(W: u32, L: Link) {
    && (L.q == Unopened ==> L.rx.None? && L.bwd == [] && L.evs == [] && L.pend == [])
    && (L.rx.Some? ==>
          var r := L.rx.value;
          && !r.local
          && r.creditPending < Threshold(W)
          && r.creditPending <= r.recvOutstanding
          && (r.finishedRecv ==> EofSeen(L.q)))
    && (RxLive(L) ==>
          && L.q == (if L.rx.value.finishedRecv then Ended else Streaming)
          && !HasReset(L.bwd)
          && Accounts(L.rx.value, L.pend))
    && (L.rx.Some? && L.rx.value.reset && TxLive(L) ==> HasReset(L.bwd))
  }

  ghost predicate FwdOk(f: Frame, o: Opts) {
    && (f.kind == FRAME_OPEN ==> f.payload == Wr16(o.kind) + Wr64(o.hint))
    && (f.kind == FRAME_DATA ==> 0 < |f.payload| <= MAX_CHUNK)
    && (f.kind == FRAME_EOF ==> f.payload == [])
    && (f.kind == FRAME_RESET ==> |f.payload| == 4)
  }

  ghost predicate BwdOk(f: Frame) {
    && |f.payload| == 4
    && (f.kind == FRAME_RESET || (f.kind == FRAME_WINDOW && Rd32(f.payload) > 0))
  }

  ghost predicate FramesInv(id: u16, L: Link) {
    && (forall f <- L.fwd :: f.sid == id && L.opts.Some? && FwdOk(f, L.opts.value))
    && (forall f <- L.bwd :: f.sid == id && BwdOk(f))
  }

  /** The credit the opener has, or will take from the WINDOW frames on their way. */
  ghost function SendCredit(L: Link): nat {
    if TxLive(L) then L.tx.value.sendWindow + Credit(L.bwd) else 0
  }

  /** DATA bytes the reader has still to take or to credit. */
  ghost function Uncredited(L: Link): nat {
    if RxLive(L) then |DataIn(L.fwd)| + L.rx.value.recvOutstanding
    else if L.q == Unopened then |DataIn(L.fwd)|
    else 0
  }

  /** Credit is never created, and while both ends are live none is lost. */
  ghost predicate CreditInv(W: u32, L: Link) {
    && SendCredit(L) + Uncredited(L) <= W
    && (TxLive(L) && (RxLive(L) || L.q == Unopened) ==> SendCredit(L) + Uncredited(L) == W)
  }

  /** The held bytes the application has not been given yet. */
  ghost function HeldLeft(r: Stream, pend: seq<Pend>): seq<byte> {
    if |pend| > 0 && pend[0].Resuming? then [] else r.held
  }

  ghost predicate ContentInv(L: Link) {
    && (L.q == Unopened ==> DataIn(L.fwd) == L.wrote)
    && (RxLive(L) ==> Got(L.evs) + HeldLeft(L.rx.value, L.pend) + DataIn(L.fwd) == L.wrote)
    && (L.rx.Some? && L.rx.value.finishedRecv && L.rx.value.held == [] ==> Got(L.evs) == L.wrote)
    && (HasFinished(L.evs) ==>
          && Got(L.evs) == L.wrote
          && EofSeen(L.q)
          && (L.rx.Some? ==> L.rx.value.finishedRecv && L.rx.value.held == []))
    && (forall e <- L.evs :: e.Opened? ==> L.opts == Some(e.opts))
  }

  /** The reader hears of the stream first, and once. */
  ghost predicate EventsInv(L: Link) {
    && (L.rx.Some? ==> L.evs != [])
    && (L.evs != [] ==> L.evs[0].Opened?)
    && (forall i :: 0 < i < |L.evs| ==> !L.evs[i].Opened?)
  }

  ghost predicate Inv(W: u32, id: u16, L: Link) {
    && 0 < W
    && EventsInv(L)
    && TxInv(L)
    && RxInv(W, L)
    && FramesInv(id, L)
    && CreditInv(W, L)
    && ContentInv(L)
  }

  const NoLink := Link(None, None, Unopened, [], [], [], [], None, [])

  // ---- steps of the opener ------------------------------------------------

  lemma OpenerOpens(W: u32, id: u16, L: Link, o: Opts)
    requires Inv(W, id, L) && EndPhase(L) == Unopened
    ensures Inv(W, id, L.(tx := Some(NewStream(true, W)), opts := Some(o), wrote := [],
                          fwd := L.fwd + [Frame(FRAME_OPEN, id, Wr16(o.kind) + Wr64(o.hint))]))
  {
    var f := Frame(FRAME_OPEN, id, Wr16(o.kind) + Wr64(o.hint));
    StillUnopened(L.q, L.fwd);
    RunOne(L.q, L.fwd, f);
    DataInAppend(L.fwd, [f]);
    DataInOne(f);
  }

  lemma {:induction false} StillUnopened(q: Phase, fs: seq<Frame>)
    requires Run(q, fs) == Unopened
    ensures q == Unopened && fs == []
    decreases |fs|
  {
    if fs != [] {
      StillUnopened(Next(q, fs[0]), fs[1..]);
    }
  }

  ghost function Wrote(id: u16, L: Link, data: seq<byte>): Link
    requires L.tx.Some? && |data| <= L.tx.value.sendWindow
  {
    L.(tx := Some(L.tx.value.(sendWindow := L.tx.value.sendWindow - |data|)),
       fwd := L.fwd + Chunks(id, data), wrote := L.wrote + data)
  }

  lemma WriteKeepsCredit(W: u32, id: u16, L: Link, data: seq<byte>)
    requires CreditInv(W, L) && TxLive(L) && |data| <= L.tx.value.sendWindow
    ensures CreditInv(W, Wrote(id, L, data))
  {
    ChunksFacts(id, data);
    DataInAppend(L.fwd, Chunks(id, data));
  }

  lemma WriteKeepsContent(id: u16, L: Link, data: seq<byte>)
    requires ContentInv(L) && L.tx.Some? && |data| <= L.tx.value.sendWindow
    requires !EofSeen(L.q) && (L.rx.Some? ==> !L.rx.value.finishedRecv)
    ensures ContentInv(Wrote(id, L, data))
  {
    hide Chunks, DataIn, Got, HasFinished, HeldLeft;
    ChunksFacts(id, data);
    DataInAppend(L.fwd, Chunks(id, data));
    if RxLive(L) {
      var taken := Got(L.evs) + HeldLeft(L.rx.value, L.pend);
      assert taken + (DataIn(L.fwd) + data) == (taken + DataIn(L.fwd)) + data;
    }
  }

  lemma OpenerWrites(W: u32, id: u16, L: Link, data: seq<byte>)
    requires Inv(W, id, L) && TxLive(L) && !L.tx.value.finishedSent && |data| <= L.tx.value.sendWindow
    ensures Inv(W, id, Wrote(id, L, data))
  {
    WritesNotAfterEof(L);
    WriteKeepsCredit(W, id, L, data);
    WriteKeepsContent(id, L, data);
    ChunksFacts(id, data);
    RunAppend(L.q, L.fwd, Chunks(id, data));
  }

  lemma WritesNotAfterEof(L: Link)
    requires EndPhase(L) == Streaming
    ensures !EofSeen(L.q)
  {
    if EofSeen(L.q) {
      NoDataAfterEnd(L.q, L.fwd);
    }
  }

  lemma OpenerFinishes(W: u32, id: u16, L: Link)
    requires Inv(W, id, L) && TxLive(L) && !L.tx.value.finishedSent
    ensures Inv(W, id, L.(tx := Some(L.tx.value.(finishedSent := true)), fwd := L.fwd + [Frame(FRAME_EOF, id, [])]))
  {
    var f := Frame(FRAME_EOF, id, []);
    RunOne(L.q, L.fwd, f);
    DataInAppend(L.fwd, [f]);
    DataInOne(f);
  }

  /** Reset and release send the same frame and end the opener's part alike. */
  lemma OpenerAborts(W: u32, id: u16, L: Link, tx: Option<Stream>, payload: seq<byte>)
    requires Inv(W, id, L) && TxLive(L) && |payload| == 4
    requires tx.Some? ==> tx.value == L.tx.value.(reset := true)
    ensures Inv(W, id, L.(tx := tx, fwd := L.fwd + [Frame(FRAME_RESET, id, payload)]))
  {
    var f := Frame(FRAME_RESET, id, payload);
    RunOne(L.q, L.fwd, f);
    DataInAppend(L.fwd, [f]);
    DataInOne(f);
  }

  lemma OpenerForgets(W: u32, id: u16, L: Link)
    requires Inv(W, id, L)
    ensures Inv(W, id, L.(tx := None))
  {
  }

  lemma OpenerGetsReset(W: u32, id: u16, L: Link)
    requires Inv(W, id, L) && L.bwd != [] && L.bwd[0].kind == FRAME_RESET
    ensures Inv(W, id, L.(tx := if L.tx.Some? then Some(L.tx.value.(reset := true)) else None, bwd := L.bwd[1..]))
  {
    assert L.bwd[0] in L.bwd;
    assert HasReset(L.bwd);
  }

  lemma OpenerGetsWindow(W: u32, id: u16, L: Link)
    requires Inv(W, id, L) && L.bwd != [] && L.bwd[0].kind == FRAME_WINDOW
    ensures TxLive(L) ==> L.tx.value.sendWindow as int + Rd32(L.bwd[0].payload) <= W
    ensures Inv(W, id, L.(bwd := L.bwd[1..],
                          tx := if TxLive(L) then Some(L.tx.value.(sendWindow := Add32(L.tx.value.sendWindow, Rd32(L.bwd[0].payload))))
                                else L.tx))
  {
    assert L.bwd[0] in L.bwd;
    assert BwdOk(L.bwd[0]);
    assert HasReset(L.bwd[1..]) ==> HasReset(L.bwd);
  }
}
