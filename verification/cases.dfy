/** Runs, from the very start, on which a promise of the sessions is broken. */
module Cases {
  import opened Wire
  import opened Engine
  import opened System
  import opened Guarantees
  import opened Again
  import opened Taking

  // ---- building runs ----------------------------------------------------------------

  lemma ThenFirst(h: Sess, c: Sess, a: Act, rest: seq<Move>)
    requires ActOk(h, c, a) && RunOk(Do(h, a), c, rest)
    ensures var ms := [Move(true, a)] + rest; RunOk(h, c, ms) && RunEnd(h, c, ms) == RunEnd(Do(h, a), c, rest)
  {
    hide Do, Enabled;
    assert ([Move(true, a)] + rest)[1..] == rest;
  }

  lemma ThenSecond(h: Sess, c: Sess, a: Act, rest: seq<Move>)
    requires ActOk(c, h, a) && RunOk(h, Do(c, a), rest)
    ensures var ms := [Move(false, a)] + rest; RunOk(h, c, ms) && RunEnd(h, c, ms) == RunEnd(h, Do(c, a), rest)
  {
    hide Do, Enabled;
    assert ([Move(false, a)] + rest)[1..] == rest;
  }

  const HINTED := Opts(1, 0)
  const OPENING := Frame(FRAME_OPEN, 1, Wr16(HINTED.kind) + Wr64(HINTED.hint))
  const ENDING := Frame(FRAME_EOF, 1, [])
  const SEVEN := Frame(FRAME_DATA, 1, [7])

  /** The client's only stream. */
  ghost function Opener(window: u32): Sess {
    OpenStream(NewSession(Client, window), HINTED)
  }

  /** The host, once it has accepted it. */
  ghost function Reader(window: u32): Sess {
    Receive(NewSession(Host, window), OPENING)
  }

  lemma AfterOpening(window: u32)
    ensures var c, h := Opener(window), Reader(window);
      && c == NewSession(Client, window).(nextTxId := 3, opens := 1, opts := map[1 := HINTED], wrote := map[1 := []],
                                          streams := map[1 := NewStream(true, window)], sent := [OPENING])
      && h == NewSession(Host, window).(rcvd := 1, streams := map[1 := NewStream(false, 0)], trace := [Opened(1, HINTED)])
  {
    var p := OPENING.payload;
    assert p[..2] == Wr16(HINTED.kind) && p[2..] == Wr64(HINTED.hint);
    Rd64Wr64(HINTED.hint);
  }

  lemma Starts(window: u32, rest: seq<Move>)
    requires RunOk(NewSession(Host, window), Opener(window), rest)
    ensures var h, c, ms := NewSession(Host, window), NewSession(Client, window), [Move(false, Api(Open(HINTED)))] + rest;
      RunOk(h, c, ms) && RunEnd(h, c, ms) == RunEnd(h, Opener(window), rest)
  {
    ThenSecond(NewSession(Host, window), NewSession(Client, window), Api(Open(HINTED)), rest);
  }

  // ---- FINISHED, twice ------------------------------------------------------------

  /** The client opens a stream and ends it; the host hears of both, then pauses the stream and resumes it. */
  const ENDS_TWICE := [
    Move(false, Api(Open(HINTED))), Move(false, Api(Finish(1))), Move(true, Recv(OPENING)), Move(true, Recv(ENDING)),
    Move(true, Api(Pause(1))), Move(true, Api(Resume(1)))]

  lemma FinishedTwice(window: u32)
    requires window > 0
    ensures exists h: Sess, c: Sess ::
      && Ran(Host, window, ENDS_TWICE, h, c)
      && h.trace == [Opened(1, HINTED), Finished(1), Finished(1)] && Ends(h.trace, 1) == 2
  {
    hide RunOk, RunEnd, Receive, FinishStream, PauseStream, ResumeStream, OpenStream, HostAfterEnds, ClientAfterEnd;
    AfterOpening(window);
    ClientEnds(window);
    HostEnds(window);
    var h0, c1, h1 := NewSession(Host, window), Opener(window), Reader(window);
    var c2, h2, h3, h4 := FinishStream(c1, 1), Receive(h1, ENDING), PauseStream(Receive(h1, ENDING), 1), HostAfterEnds(window);
    RunsNowhere(h4, c2);
    ThenFirst(h3, c2, Api(Resume(1)), []);
    var m5 := [Move(true, Api(Resume(1)))] + [];
    ThenFirst(h2, c2, Api(Pause(1)), m5);
    var m4 := [Move(true, Api(Pause(1)))] + m5;
    ThenFirst(h1, c2, Recv(ENDING), m4);
    var m3 := [Move(true, Recv(ENDING))] + m4;
    ThenFirst(h0, c2, Recv(OPENING), m3);
    var m2 := [Move(true, Recv(OPENING))] + m3;
    ThenSecond(h0, c1, Api(Finish(1)), m2);
    var m1 := [Move(false, Api(Finish(1)))] + m2;
    Starts(window, m1);
    assert [Move(false, Api(Open(HINTED)))] + m1 == ENDS_TWICE;
    TwoEnds(window);
    assert Ran(Host, window, ENDS_TWICE, h4, c2);
  }

  lemma RunsNowhere(h: Sess, c: Sess)
    ensures RunOk(h, c, []) && RunEnd(h, c, []) == (h, c)
  {
  }

  ghost function ClientAfterEnd(window: u32): Sess
  {
    var c := Opener(window);
    c.(streams := map[1 := NewStream(true, window).(finishedSent := true)], sent := [OPENING, ENDING])
  }

  lemma ClientEnds(window: u32)
    ensures var c := Opener(window); 1 in c.streams && FinishStream(c, 1) == ClientAfterEnd(window)
    ensures ClientAfterEnd(window).sent == [OPENING, ENDING] && Within(ClientAfterEnd(window)) && Within(Opener(window))
    ensures !ClientAfterEnd(window).error
  {
    AfterOpening(window);
  }

  ghost function HostAfterEnds(window: u32): Sess {
    Reader(window).(rcvd := 2, streams := map[1 := NewStream(false, 0).(finishedRecv := true)],
                    trace := [Opened(1, HINTED), Finished(1), Finished(1)])
  }

  lemma TwoEnds(window: u32)
    ensures HostAfterEnds(window).trace == [Opened(1, HINTED), Finished(1), Finished(1)]
    ensures Ends(HostAfterEnds(window).trace, 1) == 2
  {
    EndsOne([Opened(1, HINTED), Finished(1)], Finished(1), 1);
    EndsOne([Opened(1, HINTED)], Finished(1), 1);
    EndsOne([], Opened(1, HINTED), 1);
  }

  lemma ReaderListens(window: u32)
    ensures Enabled(Reader(window), Recv(ENDING)) && Reader(window).rcvd == 1 && Within(HostAfterEnds(window))
  {
    AfterOpening(window);
  }

  lemma HostEnds(window: u32)
    ensures var h1 := Reader(window);
      var h2 := Receive(h1, ENDING);
      && Enabled(h1, Recv(ENDING)) && h1.rcvd == 1
      && 1 in h2.streams && 1 in PauseStream(h2, 1).streams && Within(HostAfterEnds(window))
      && ResumeStream(PauseStream(h2, 1), 1) == HostAfterEnds(window)
  {
    HostHearsEnd(window);
    ReaderListens(window);
    hide Receive, Reader, PauseStream, ResumeStream;
    var h2 := Receive(Reader(window), ENDING);
    HostResumes(h2);
    assert h2.trace + [Finished(1)] == [Opened(1, HINTED), Finished(1), Finished(1)];
  }

  lemma HostResumes(h: Sess)
    requires h.streams == map[1 := NewStream(false, 0).(finishedRecv := true)]
    ensures 1 in PauseStream(h, 1).streams
    ensures ResumeStream(PauseStream(h, 1), 1) == h.(trace := h.trace + [Finished(1)])
  {
    var p := PauseStream(h, 1);
    assert p.streams == map[1 := NewStream(false, 0).(finishedRecv := true, paused := true)];
    assert h.sent + [] == h.sent;
    assert ResumeStream(p, 1).streams == h.streams;
  }

  lemma HostHearsEnd(window: u32)
    ensures Receive(Reader(window), ENDING) == Reader(window).(rcvd := 2,
      streams := map[1 := NewStream(false, 0).(finishedRecv := true)], trace := [Opened(1, HINTED), Finished(1)])
  {
    AfterOpening(window);
  }

  // ---- held bytes, twice ------------------------------------------------------------

  /** The client writes one byte; the host holds it back, resets the stream, and resumes it twice. */
  const GIVES_TWICE := [
    Move(false, Api(Open(HINTED))), Move(false, Api(Write(1, [7]))), Move(true, Recv(OPENING)), Move(true, Api(Pause(1))),
    Move(true, Recv(SEVEN)), Move(true, Api(Call.Reset(1, 0))), Move(true, Api(Resume(1))), Move(true, Ret),
    Move(true, Api(Pause(1))), Move(true, Api(Resume(1)))]

  const SORRY := Frame(FRAME_RESET, 1, Wr32(0))

  ghost function ClientAfterWrite(window: u32): Sess
    requires window > 0
  {
    Opener(window).(streams := map[1 := NewStream(true, window - 1)], sent := [OPENING, SEVEN], wrote := map[1 := [7]])
  }

  lemma ClientWrites(window: u32)
    requires window > 0
    ensures var c := Opener(window); 1 in c.streams && WriteStream(c, 1, [7]) == ClientAfterWrite(window)
    ensures ClientAfterWrite(window).sent == [OPENING, SEVEN] && ClientAfterWrite(window).wrote == map[1 := [7]]
    ensures Within(ClientAfterWrite(window))
  {
    AfterOpening(window);
    var c, bytes: seq<byte> := Opener(window), [7];
    hide Opener;
    OneChunk(bytes);
    hide Chunks;
    assert Accepted(c.streams[1], bytes) == 1 && bytes[..1] == bytes && [] + bytes == bytes;
    var t := WriteStream(c, 1, bytes);
    assert t.streams == map[1 := NewStream(true, window - 1)] && t.wrote == map[1 := bytes];
    assert t.sent == [OPENING] + [SEVEN] == [OPENING, SEVEN];
  }

  lemma OneChunk(bytes: seq<byte>)
    requires bytes == [7]
    ensures Chunks(1, bytes) == [SEVEN]
  {
    assert bytes[..1] == bytes && bytes[1..] == [];
    assert Chunks(1, []) == [];
  }

  /** The host with its only stream. */
  ghost function Holder(window: u32, rcvd: nat, st: Stream, sent: seq<Frame>, given: nat, stack: seq<Pend>): Sess {
    NewSession(Host, window).(rcvd := rcvd, streams := map[1 := st], sent := sent, stack := stack,
                              trace := [Opened(1, HINTED)] + seq(given, _ => Data(1, [7])))
  }

  ghost function Held(paused: bool, reset: bool): Stream {
    NewStream(false, 0).(paused := paused, reset := reset, recvOutstanding := 1, held := [7])
  }

  lemma HolderPauses(window: u32)
    ensures 1 in Reader(window).streams
    ensures PauseStream(Reader(window), 1) == Holder(window, 1, NewStream(false, 0).(paused := true), [], 0, [])
  {
    AfterOpening(window);
  }

  lemma HolderHolds(window: u32)
    requires window > 0
    ensures Receive(Holder(window, 1, NewStream(false, 0).(paused := true), [], 0, []), SEVEN) == Holder(window, 2, Held(true, false), [], 0, [])
  {
    assert [] + [7] == [7];
  }

  lemma HolderResets(window: u32)
    ensures ResetStream(Holder(window, 2, Held(true, false), [], 0, []), 1, 0) == Holder(window, 2, Held(true, true), [SORRY], 0, [])
  {
  }

  lemma HolderGives(window: u32, n: nat)
    ensures PauseStream(Holder(window, 2, Held(false, true), [SORRY], n, []), 1) == Holder(window, 2, Held(true, true), [SORRY], n, [])
    ensures ResumeStream(Holder(window, 2, Held(true, true), [SORRY], n, []), 1)
         == Holder(window, 2, Held(false, true), [SORRY], n + 1, [Resuming(1, 1)])
    ensures Return(Holder(window, 2, Held(false, true), [SORRY], n + 1, [Resuming(1, 1)]))
         == Holder(window, 2, Held(false, true), [SORRY], n + 1, [])
  {
    assert seq(n, _ => Data(1, [7])) + [Data(1, [7])] == seq(n + 1, _ => Data(1, [7]));
    assert [Resuming(1, 1)][..0] == [];
  }

  lemma GivenTwice(window: u32)
    requires window > 0
    ensures exists h: Sess, c: Sess ::
      && Ran(Host, window, GIVES_TWICE, h, c)
      && Delivered(h, 1) == [7, 7] && Written(c, 1) == [7] && !(Delivered(h, 1) <= Written(c, 1))
  {
    hide RunOk, RunEnd, Receive, WriteStream, PauseStream, ResumeStream, ResetStream, Return, OpenStream, ClientAfterWrite, Held;
    var h0, c2 := NewSession(Host, window), ClientAfterWrite(window);
    ClientWrites(window);
    HolderPauses(window);
    HolderHolds(window);
    HolderResets(window);
    HolderGives(window, 0);
    HolderGives(window, 1);
    AfterOpening(window);
    var end := Holder(window, 2, Held(false, true), [SORRY], 2, [Resuming(1, 1)]);
    RunsNowhere(end, c2);
    ThenFirst(Holder(window, 2, Held(true, true), [SORRY], 1, []), c2, Api(Resume(1)), []);
    var m9 := [Move(true, Api(Resume(1)))] + [];
    ThenFirst(Holder(window, 2, Held(false, true), [SORRY], 1, []), c2, Api(Pause(1)), m9);
    var m8 := [Move(true, Api(Pause(1)))] + m9;
    ThenFirst(Holder(window, 2, Held(false, true), [SORRY], 1, [Resuming(1, 1)]), c2, Ret, m8);
    var m7 := [Move(true, Ret)] + m8;
    ThenFirst(Holder(window, 2, Held(true, true), [SORRY], 0, []), c2, Api(Resume(1)), m7);
    var m6 := [Move(true, Api(Resume(1)))] + m7;
    ThenFirst(Holder(window, 2, Held(true, false), [], 0, []), c2, Api(Call.Reset(1, 0)), m6);
    var m5 := [Move(true, Api(Call.Reset(1, 0)))] + m6;
    GivenTwiceStarts(window, m5, end);
    assert [Move(false, Api(Open(HINTED)))] + ([Move(false, Api(Write(1, [7])))] + ([Move(true, Recv(OPENING))]
         + ([Move(true, Api(Pause(1)))] + ([Move(true, Recv(SEVEN))] + m5)))) == GIVES_TWICE;
    SevenTwice(window);
    assert Ran(Host, window, GIVES_TWICE, end, c2);
  }

  lemma GivenTwiceStarts(window: u32, m5: seq<Move>, end: Sess)
    requires window > 0
    requires var h, c := Holder(window, 2, Held(true, false), [], 0, []), ClientAfterWrite(window);
      RunOk(h, c, m5) && RunEnd(h, c, m5) == (end, c)
    ensures var ms := [Move(false, Api(Open(HINTED)))] + ([Move(false, Api(Write(1, [7])))] + ([Move(true, Recv(OPENING))]
         + ([Move(true, Api(Pause(1)))] + ([Move(true, Recv(SEVEN))] + m5))));
      var h, c := NewSession(Host, window), NewSession(Client, window);
      RunOk(h, c, ms) && RunEnd(h, c, ms) == (end, ClientAfterWrite(window))
  {
    hide RunOk, RunEnd, Receive, WriteStream, PauseStream, OpenStream, ClientAfterWrite, Held;
    var h0, c2 := NewSession(Host, window), ClientAfterWrite(window);
    ClientWrites(window);
    HolderPauses(window);
    HolderHolds(window);
    AfterOpening(window);
    ThenFirst(Holder(window, 1, NewStream(false, 0).(paused := true), [], 0, []), c2, Recv(SEVEN), m5);
    var m4 := [Move(true, Recv(SEVEN))] + m5;
    ThenFirst(Reader(window), c2, Api(Pause(1)), m4);
    var m3 := [Move(true, Api(Pause(1)))] + m4;
    ThenFirst(h0, c2, Recv(OPENING), m3);
    var m2 := [Move(true, Recv(OPENING))] + m3;
    ThenSecond(h0, Opener(window), Api(Write(1, [7])), m2);
    Starts(window, [Move(false, Api(Write(1, [7])))] + m2);
  }

  lemma SevenTwice(window: u32)
    requires window > 0
    ensures var h := Holder(window, 2, Held(false, true), [SORRY], 2, [Resuming(1, 1)]);
      Delivered(h, 1) == [7, 7] && Within(h) && Written(ClientAfterWrite(window), 1) == [7]
  {
    var h := Holder(window, 2, Held(false, true), [SORRY], 2, [Resuming(1, 1)]);
    var e, d := Opened(1, HINTED), Data(1, [7]);
    assert h.trace == ([e] + [d]) + [d];
    ReadOne([e] + [d], d, 1);
    ReadOne([e], d, 1);
    ReadOne([], e, 1);
    assert [] + [e] == [e] && [7] + [7] == [7, 7];
  }

  // ---- held bytes, given to a callback that resumes its own stream -------------------

  /** The host holds one byte back and resumes; the callback that is given it pauses and resumes the stream once more. */
  const RESUMES_ITSELF := [
    Move(false, Api(Open(HINTED))), Move(false, Api(Write(1, [7]))), Move(true, Recv(OPENING)), Move(true, Api(Pause(1))),
    Move(true, Recv(SEVEN)), Move(true, Api(Resume(1))), Move(true, Api(Pause(1))), Move(true, Api(Resume(1)))]

  lemma HolderResumes(window: u32)
    ensures ResumeStream(Holder(window, 2, Held(true, false), [], 0, []), 1) == Holder(window, 2, Held(false, false), [], 1, [Resuming(1, 1)])
    ensures PauseStream(Holder(window, 2, Held(false, false), [], 1, [Resuming(1, 1)]), 1)
         == Holder(window, 2, Held(true, false), [], 1, [Resuming(1, 1)])
    ensures ResumeStream(Holder(window, 2, Held(true, false), [], 1, [Resuming(1, 1)]), 1) == HolderTwice(window)
  {
    assert seq(0, _ => Data(1, [7])) + [Data(1, [7])] == seq(1, _ => Data(1, [7]));
    assert seq(1, _ => Data(1, [7])) + [Data(1, [7])] == seq(2, _ => Data(1, [7]));
  }

  ghost function HolderTwice(window: u32): Sess {
    Holder(window, 2, Held(false, false), [], 2, [Resuming(1, 1), Resuming(1, 1)]).(reentered := true)
  }

  /** A live stream whose content is broken: one byte was written, and it was given twice. */
  lemma ResumedInItsCallback(window: u32)
    requires window > 0
    ensures exists h: Sess, c: Sess ::
      && RunOk(NewSession(Host, window), NewSession(Client, window), RESUMES_ITSELF)
      && RunEnd(NewSession(Host, window), NewSession(Client, window), RESUMES_ITSELF) == (h, c)
      && Live(h, 1) && h.reentered && Delivered(h, 1) == [7, 7] && Written(c, 1) == [7]
  {
    hide RunOk, RunEnd, Receive, WriteStream, PauseStream, ResumeStream, OpenStream, ClientAfterWrite, Held, HolderTwice;
    var c2, end := ClientAfterWrite(window), HolderTwice(window);
    HolderResumes(window);
    RunsNowhere(end, c2);
    ThenFirst(Holder(window, 2, Held(true, false), [], 1, [Resuming(1, 1)]), c2, Api(Resume(1)), []);
    var m7 := [Move(true, Api(Resume(1)))] + [];
    ThenFirst(Holder(window, 2, Held(false, false), [], 1, [Resuming(1, 1)]), c2, Api(Pause(1)), m7);
    var m6 := [Move(true, Api(Pause(1)))] + m7;
    ThenFirst(Holder(window, 2, Held(true, false), [], 0, []), c2, Api(Resume(1)), m6);
    var m5 := [Move(true, Api(Resume(1)))] + m6;
    GivenTwiceStarts(window, m5, end);
    assert [Move(false, Api(Open(HINTED)))] + ([Move(false, Api(Write(1, [7])))] + ([Move(true, Recv(OPENING))]
         + ([Move(true, Api(Pause(1)))] + ([Move(true, Recv(SEVEN))] + m5)))) == RESUMES_ITSELF;
    LiveTwice(window);
  }

  lemma LiveTwice(window: u32)
    requires window > 0
    ensures var h := HolderTwice(window);
      Live(h, 1) && h.reentered && Delivered(h, 1) == [7, 7] && Written(ClientAfterWrite(window), 1) == [7]
  {
    SevenTwice(window);
    assert HolderTwice(window).trace == Holder(window, 2, Held(false, true), [SORRY], 2, [Resuming(1, 1)]).trace;
  }
}
