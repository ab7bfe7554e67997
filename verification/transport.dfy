/**
 Both sessions over a reliable byte transport. Calls are made and bytes are fed in any order and in pieces of any
 size, with any behaviour of the callbacks; the frame-level guarantees of `Guarantees` hold throughout.
 */
module Transport {
  import opened Wire
  import opened Engine
  import opened System
  import opened Guarantees
  import opened Callbacks
  import opened Feed

  /** A session, its input buffer, and the bytes enqueued for it that it has not been fed. */
  datatype End = End(s: Sess, buf: seq<byte>, ahead: seq<byte>)

  datatype Deed =
    | Calls(calls: seq<Call>)
    | Bytes(n: nat)
    | Connected

  /** `first` acts; `script` is what its callbacks will do meanwhile. */
  datatype Turn = Turn(first: bool, script: seq<seq<Call>>, deed: Deed)

  function NewBytes(before: Sess, after: Sess): seq<byte>
    requires before.sent <= after.sent && forall f <- after.sent :: Encodable(f)
  {
    var fs := after.sent[|before.sent|..];
    assert forall f <- fs :: f in after.sent;
    EncodeAll(fs)
  }

  /** The acting end after its deed, and its session. */
  function Act(e: End, script: seq<seq<Call>>, d: Deed): End {
    var s := e.s.(script := script);
    match d
    case Calls(cs) => e.(s := RunCalls(s, cs))
    case Connected =>
      var t := Connect(s);
      e.(s := if |t.trace| > |s.trace| then RunCallback(t) else t)
    case Bytes(n) =>
      var k := if n <= |e.ahead| then n else |e.ahead|;
      var (t, rest) := Drain(s, e.buf + e.ahead[..k]);
      End(t, rest, e.ahead[k..])
  }

  ghost predicate EndOk(e: End, peer: Sess) {
    e.s.stack == [] && (Halted(e.s) || Fed(e.s, peer, e.buf, e.ahead))
  }

  ghost predicate BytesLinked(x: End, y: End) {
    Linked(x.s, y.s) && EndOk(x, y.s) && EndOk(y, x.s)
  }

  // ---- one turn -----------------------------------------------------------

  lemma RunCallsKeeps(s: Sess, b: Sess, cs: seq<Call>)
    requires Linked(s, b) && Within(RunCalls(s, cs))
    ensures Linked(RunCalls(s, cs), b) && Appends(s, RunCalls(s, cs))
  {
    hide Linked, Within, RunCalls;
    var acts := CallsPath(s, cs);
    ActsKeep(s, b, acts);
    ActsAppend(s, acts);
  }

  lemma RunCallbackKeeps(s: Sess, b: Sess)
    requires Linked(s, b) && Within(RunCallback(s))
    ensures Linked(RunCallback(s), b) && Appends(s, RunCallback(s))
  {
    hide Linked, Within, RunCallback;
    var acts := CallbackPath(s);
    ActsKeep(s, b, acts);
    ActsAppend(s, acts);
  }

  lemma {:induction false} DrainAppends(s: Sess, buf: seq<byte>)
    ensures s.sent <= Drain(s, buf).0.sent
    decreases |buf|
  {
    hide Process, HeaderLen, FirstFrame, Dispatch;
    if Halted(s) || |buf| < HEADER_LEN {
    } else if HeaderLen(buf) > MAX_FRAME_PAYLOAD {
      ErrorFrame(s, InvalidSize);
      DispatchAppends(s, ProtocolError(s, InvalidSize));
    } else if |buf| >= HEADER_LEN + HeaderLen(buf) {
      ProcessCounts(s, FirstFrame(buf));
      DrainAppends(Process(s, FirstFrame(buf)), buf[HEADER_LEN + HeaderLen(buf)..]);
    }
  }

  /** What the peer enqueues joins the bytes still ahead. */
  lemma FedMore(s: Sess, b: Sess, c: Sess, buf: seq<byte>, ahead: seq<byte>)
    requires Fed(s, b, buf, ahead) && b.sent <= c.sent && forall f <- c.sent :: Encodable(f)
    ensures Fed(s, c, buf, ahead + NewBytes(b, c))
  {
    var fs := c.sent[|b.sent|..];
    assert c.sent[s.rcvd..] == b.sent[s.rcvd..] + fs;
    EncodeAllAppend(b.sent[s.rcvd..], fs);
    assert buf + (ahead + EncodeAll(fs)) == (buf + ahead) + EncodeAll(fs);
  }

  lemma AllEncodable(s: Sess, b: Sess)
    requires Linked(s, b)
    ensures forall f <- s.sent :: Encodable(f)
  {
    forall f | f in s.sent ensures Encodable(f) {
      assert Sized(f);
    }
  }

  lemma Scripted(s: Sess, b: Sess, cs: seq<seq<Call>>)
    requires Linked(s, b)
    ensures Linked(s.(script := cs), b)
  {
    ScriptKeeps(s, b, cs);
  }

  /** A turn of `x`: the sessions stay linked, and the bytes it enqueued are ahead of `y`. */
  lemma TurnKeeps(x: End, y: End, script: seq<seq<Call>>, d: Deed)
    requires BytesLinked(x, y) && Within(Act(x, script, d).s)
    ensures x.s.sent <= Act(x, script, d).s.sent && forall f <- Act(x, script, d).s.sent :: Encodable(f)
    ensures var x1 := Act(x, script, d);
      BytesLinked(x1, y.(ahead := y.ahead + NewBytes(x.s, x1.s)))
  {
    hide Linked, Within, Drain, RunCalls, RunCallback;
    var s, b := x.s.(script := script), y.s;
    var x1 := Act(x, script, d);
    Scripted(x.s, b, script);
    match d {
      case Calls(cs) =>
        RunCallsKeeps(s, b, cs);
        FedStays(x, x1.s, b);
      case Connected =>
        ConnectKeeps(s, b);
        RunCallbackWithin(Connect(s));
        if |Connect(s).trace| > |s.trace| {
          RunCallbackKeeps(Connect(s), b);
        }
        FedStays(x, x1.s, b);
      case Bytes(n) =>
        var k := if n <= |x.ahead| then n else |x.ahead|;
        BytesKeep(s, b, x.buf, x.ahead, k);
    }
    AllEncodable(x1.s, b);
    if !Halted(y.s) {
      FedMore(y.s, x.s, x1.s, y.buf, y.ahead);
    }
  }

  lemma RunCallbackWithin(s: Sess)
    ensures Within(RunCallback(s)) ==> Within(s)
  {
    hide Within, RunCallback;
    var acts := CallbackPath(s);
    ActsWithin(s, acts);
  }

  lemma FedStays(x: End, t: Sess, b: Sess)
    requires EndOk(x, b) && t.stack == [] && t.rcvd == x.s.rcvd && (Halted(x.s) ==> Halted(t))
    ensures EndOk(x.(s := t), b)
  {
  }

  lemma BytesKeep(s: Sess, b: Sess, buf: seq<byte>, ahead: seq<byte>, k: nat)
    requires Linked(s, b) && s.stack == [] && k <= |ahead| && (Halted(s) || Fed(s, b, buf, ahead))
    requires Within(Drain(s, buf + ahead[..k]).0)
    ensures var (t, rest) := Drain(s, buf + ahead[..k]);
      Linked(t, b) && t.stack == [] && s.sent <= t.sent && (Halted(t) || Fed(t, b, rest, ahead[k..]))
  {
    hide Linked, Within, Drain, Fed;
    DrainAppends(s, buf + ahead[..k]);
    if Halted(s) {
      HaltedDrains(s, buf + ahead[..k]);
    } else {
      FedSplit(s, b, buf, ahead, k);
      assert (buf + ahead[..k]) + ahead[k..] == buf + ahead;
      FeedKeeps(s, b, buf + ahead[..k], ahead[k..]);
    }
  }

  lemma HaltedDrains(s: Sess, buf: seq<byte>)
    requires Halted(s)
    ensures Drain(s, buf) == (s, [])
  {
  }

  lemma FedSplit(s: Sess, b: Sess, buf: seq<byte>, ahead: seq<byte>, k: nat)
    requires Fed(s, b, buf, ahead) && k <= |ahead|
    ensures Fed(s, b, buf + ahead[..k], ahead[k..])
  {
    assert (buf + ahead[..k]) + ahead[k..] == buf + ahead;
  }

  // ---- runs ---------------------------------------------------------------

  /** The two ends after the turns. */
  ghost function Turns(x: End, y: End, ts: seq<Turn>): (End, End)
    requires BytesLinked(x, y) && TurnsWithin(x, y, ts)
    decreases |ts|
  {
    if ts == [] then (x, y)
    else
      var (x1, y1) := AfterTurn(x, y, ts[0]);
      Turns(x1, y1, ts[1..])
  }

  /** Neither session runs out of ids or resumes re-entrantly in the course of the turns. */
  ghost predicate TurnsWithin(x: End, y: End, ts: seq<Turn>)
    requires BytesLinked(x, y)
    decreases |ts|
  {
    ts == [] ||
    (TurnWithin(x, y, ts[0]) && (var (x1, y1) := AfterTurn(x, y, ts[0]); TurnsWithin(x1, y1, ts[1..])))
  }

  ghost predicate TurnWithin(x: End, y: End, t: Turn) {
    Within(Act(if t.first then x else y, t.script, t.deed).s)
  }

  lemma BytesLinkedSymmetric(x: End, y: End)
    requires BytesLinked(x, y)
    ensures BytesLinked(y, x)
  {
    hide Linked;
    LinkedSymmetric(x.s, y.s);
  }

  /** One end acts; what it enqueues is ahead of the other. */
  ghost function AfterTurn(x: End, y: End, t: Turn): (r: (End, End))
    requires BytesLinked(x, y) && TurnWithin(x, y, t)
    ensures BytesLinked(r.0, r.1)
  {
    if t.first then
      TurnKeeps(x, y, t.script, t.deed);
      var x1 := Act(x, t.script, t.deed);
      (x1, y.(ahead := y.ahead + NewBytes(x.s, x1.s)))
    else
      BytesLinkedSymmetric(x, y);
      TurnKeeps(y, x, t.script, t.deed);
      var y1 := Act(y, t.script, t.deed);
      var x1 := x.(ahead := x.ahead + NewBytes(y.s, y1.s));
      BytesLinkedSymmetric(y1, x1);
      (x1, y1)
  }

  ghost function Start(role: Role, window: u32): End {
    End(NewSession(role, window), [], [])
  }

  lemma StartLinked(window: u32)
    requires window > 0
    ensures BytesLinked(Start(Host, window), Start(Client, window))
  {
    hide Linked;
    LinkedInitially(Host, Client, window);
    assert Linked(NewSession(Client, window), NewSession(Host, window)) by {
      LinkedSymmetric(NewSession(Host, window), NewSession(Client, window));
    }
  }

  /**
   Over any interleaving of calls and byte deliveries, with any callbacks, neither session ever sees a protocol
   error, and what each has been fed is a prefix of what the other enqueued.
   */
  lemma {:induction false} HonestPeersNeverFail(x: End, y: End, ts: seq<Turn>)
    requires BytesLinked(x, y) && TurnsWithin(x, y, ts)
    ensures var (x1, y1) := Turns(x, y, ts);
      BytesLinked(x1, y1) && !x1.s.error && !y1.s.error
    decreases |ts|
  {
    hide Act;
    if ts != [] {
      var (x1, y1) := AfterTurn(x, y, ts[0]);
      HonestPeersNeverFail(x1, y1, ts[1..]);
    }
  }
}
