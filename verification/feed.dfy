/**
 From bytes to frames: what `dokan_session_feed` makes of a byte stream, however it is cut up, and that between
 honest peers it takes the very frames the other end enqueued.
 */
module Feed {
  import opened Wire
  import opened Engine
  import opened System
  import opened Receiving
  import opened Guarantees
  import Effects
  import opened Callbacks

  /** A failed or closing session looks at no more bytes. */
  predicate Halted(s: Sess) {
    s.error || s.closing
  }

  /** A header that announces more payload than a frame may have ends the session. */
  function Oversize(s: Sess): (t: Sess)
    ensures t.stack == s.stack
  {
    ErrorFrame(s, InvalidSize);
    Dispatch(s, ProtocolError(s, InvalidSize))
  }

  /** All whole frames of `buf` are processed; what is left waits for more bytes. Nothing is kept once halted. */
  function Drain(s: Sess, buf: seq<byte>): (Sess, seq<byte>)
    decreases |buf|
  {
    if Halted(s) then (s, [])
    else if |buf| < HEADER_LEN then (s, buf)
    else if HeaderLen(buf) > MAX_FRAME_PAYLOAD then (Oversize(s), [])
    else if |buf| < HEADER_LEN + HeaderLen(buf) then (s, buf)
    else Drain(Process(s, FirstFrame(buf)), buf[HEADER_LEN + HeaderLen(buf)..])
  }

  /** The fixed input buffer always has room: what waits in it is less than one whole frame. */
  lemma {:induction false} LeftoverFits(s: Sess, buf: seq<byte>)
    ensures |Drain(s, buf).1| < HEADER_LEN + MAX_FRAME_PAYLOAD
    decreases |buf|
  {
    if !Halted(s) && |buf| >= HEADER_LEN && HeaderLen(buf) <= MAX_FRAME_PAYLOAD && |buf| >= HEADER_LEN + HeaderLen(buf) {
      LeftoverFits(Process(s, FirstFrame(buf)), buf[HEADER_LEN + HeaderLen(buf)..]);
    }
  }

  lemma {:induction false} StackKept(s: Sess, buf: seq<byte>)
    ensures Drain(s, buf).0.stack == s.stack
    decreases |buf|
  {
    if !Halted(s) && |buf| >= HEADER_LEN && HeaderLen(buf) <= MAX_FRAME_PAYLOAD && |buf| >= HEADER_LEN + HeaderLen(buf) {
      StackKept(Process(s, FirstFrame(buf)), buf[HEADER_LEN + HeaderLen(buf)..]);
    }
  }

  // ---- chunking -----------------------------------------------------------

  lemma OversizeHalts(s: Sess)
    ensures Halted(Oversize(s))
  {
    ErrorFrame(s, InvalidSize);
    DispatchAppends(s, ProtocolError(s, InvalidSize));
  }

  /** Bytes may arrive in two pieces. */
  lemma {:induction false} DrainSplit(s: Sess, a: seq<byte>, b: seq<byte>)
    ensures Drain(s, a + b) == Drain(Drain(s, a).0, Drain(s, a).1 + b)
    decreases |a|
  {
    hide Process, Oversize, FirstFrame;
    if Halted(s) {
    } else if |a| < HEADER_LEN {
    } else {
      assert HeaderLen(a + b) == HeaderLen(a) by { assert (a + b)[3..5] == a[3..5]; }
      var n := HEADER_LEN + HeaderLen(a);
      if HeaderLen(a) > MAX_FRAME_PAYLOAD {
        OversizeHalts(s);
      } else if |a| >= n {
        SameFirstFrame(a, b);
        assert (a + b)[n..] == a[n..] + b;
        DrainSplit(Process(s, FirstFrame(a)), a[n..], b);
      }
    }
  }

  lemma SameFirstFrame(a: seq<byte>, b: seq<byte>)
    requires |a| >= HEADER_LEN && |a| >= HEADER_LEN + HeaderLen(a)
    ensures HeaderLen(a + b) == HeaderLen(a) && FirstFrame(a + b) == FirstFrame(a)
  {
    assert (a + b)[3..5] == a[3..5] && (a + b)[1..3] == a[1..3];
    assert (a + b)[5..5 + HeaderLen(a)] == a[5..5 + HeaderLen(a)];
  }

  function FeedAll(s: Sess, buf: seq<byte>, chunks: seq<seq<byte>>): (Sess, seq<byte>)
    decreases |chunks|
  {
    if chunks == [] then (s, buf)
    else
      var (s1, buf1) := Drain(s, buf + chunks[0]);
      FeedAll(s1, buf1, chunks[1..])
  }

  function Flatten(chunks: seq<seq<byte>>): seq<byte> {
    if chunks == [] then [] else chunks[0] + Flatten(chunks[1..])
  }

  /** Chunking does not matter: any split of a byte stream has the same effects, events and callbacks as the whole. */
  lemma {:induction false} ChunkingIndependence(s: Sess, buf: seq<byte>, chunks: seq<seq<byte>>)
    requires Drain(s, buf) == (s, buf)
    ensures FeedAll(s, buf, chunks) == Drain(s, buf + Flatten(chunks))
    decreases |chunks|
  {
    hide Drain;
    if chunks == [] {
      assert buf + [] == buf;
    } else {
      var (s1, buf1) := Drain(s, buf + chunks[0]);
      DrainSplit(s, buf + chunks[0], []);
      assert buf + chunks[0] + [] == buf + chunks[0] && buf1 + [] == buf1;
      ChunkingIndependence(s1, buf1, chunks[1..]);
      DrainSplit(s, buf + chunks[0], Flatten(chunks[1..]));
      assert buf + chunks[0] + Flatten(chunks[1..]) == buf + Flatten(chunks);
    }
  }

  // ---- framing ------------------------------------------------------------

  function ProcessAll(s: Sess, fs: seq<Frame>): Sess
    requires forall f <- fs :: Sized(f)
    decreases |fs|
  {
    if fs == [] || Halted(s) then s
    else
      assert Sized(fs[0]);
      ProcessAll(Process(s, fs[0]), fs[1..])
  }

  /** Draining what `enqueue` framed processes exactly the frames, in order. */
  lemma {:induction false} DrainInvertsFraming(s: Sess, fs: seq<Frame>)
    requires forall f <- fs :: Sized(f)
    ensures forall f <- fs :: Encodable(f)
    ensures Drain(s, EncodeAll(fs)) == (ProcessAll(s, fs), [])
    decreases |fs|
  {
    hide Process, FirstFrame, HeaderLen, Encode;
    assert forall f <- fs :: Sized(f) ==> Encodable(f);
    if fs != [] && !Halted(s) {
      assert Sized(fs[0]);
      FirstFrameOfEncode(fs[0], EncodeAll(fs[1..]));
      DrainInvertsFraming(Process(s, fs[0]), fs[1..]);
    }
  }

  // ---- honest peers, byte by byte --------------------------------------------

  lemma {:induction false} ActsKeep(s: Sess, b: Sess, acts: seq<Act>)
    requires Linked(s, b) && ActsOk(s, acts) && Within(ActsEnd(s, acts))
    ensures Linked(ActsEnd(s, acts), b)
    decreases |acts|
  {
    hide Linked, Do, Within, Enabled;
    if acts != [] {
      ActsWithin(Do(s, acts[0]), acts[1..]);
      StepKeeps(s, b, acts[0]);
      ActsKeep(Do(s, acts[0]), b, acts[1..]);
    }
  }

  lemma StepKeeps(s: Sess, b: Sess, a: Act)
    requires Linked(s, b) && Enabled(s, a) && !a.Recv? && Within(Do(s, a))
    ensures Linked(Do(s, a), b)
  {
    hide Linked, Do, Within, Enabled;
    ActKeeps(s, b, a);
  }

  lemma {:induction false} ActsWithin(s: Sess, acts: seq<Act>)
    requires ActsOk(s, acts)
    ensures Within(ActsEnd(s, acts)) ==> Within(s)
    decreases |acts|
  {
    hide Do, Within, Enabled;
    if acts != [] {
      Effects.ActMonotone(s, acts[0]);
      ActsWithin(Do(s, acts[0]), acts[1..]);
    }
  }

  /** A whole frame with all its callbacks keeps the sessions linked. */
  lemma ProcessKeeps(s: Sess, b: Sess, f: Frame)
    requires Incoming(s, b, f)
    ensures Encodable(f) && Process(s, f).rcvd == s.rcvd + 1
    ensures Within(Process(s, f)) ==> Linked(Process(s, f), b)
  {
    hide Linked, Receive, Within, Dispatch;
    ReceiveKeeps(s, b, f);
    ProcessCounts(s, f);
    ReceiveFrame(s, f);
    var acts := DispatchPath(s, Receive(s, f));
    if Within(Process(s, f)) {
      ActsKeep(Receive(s, f), b, acts);
    }
  }

  lemma ProcessWithin(s: Sess, f: Frame)
    requires Encodable(f)
    ensures Within(Process(s, f)) ==> Within(s)
  {
    hide Receive, Dispatch;
    ReceiveFrame(s, f);
    Effects.ReceiveIsMild(s, f, 0);
    var acts := DispatchPath(s, Receive(s, f));
    ActsWithin(Receive(s, f), acts);
  }

  lemma {:induction false} DrainWithin(s: Sess, buf: seq<byte>)
    ensures Within(Drain(s, buf).0) ==> Within(s)
    decreases |buf|
  {
    hide Within, Process;
    if Halted(s) || |buf| < HEADER_LEN {
    } else if HeaderLen(buf) > MAX_FRAME_PAYLOAD {
      OversizeWithin(s);
    } else if |buf| >= HEADER_LEN + HeaderLen(buf) {
      ProcessWithin(s, FirstFrame(buf));
      DrainWithin(Process(s, FirstFrame(buf)), buf[HEADER_LEN + HeaderLen(buf)..]);
    }
  }

  lemma OversizeWithin(s: Sess)
    ensures Within(Oversize(s)) ==> Within(s)
  {
    hide Dispatch;
    ErrorFrame(s, InvalidSize);
    Effects.ErrorIsMild(s, InvalidSize, 0);
    var acts := DispatchPath(s, ProtocolError(s, InvalidSize));
    ActsWithin(ProtocolError(s, InvalidSize), acts);
  }

  /**
   `buf` is what `s` has been fed and not yet processed of the bytes `b` enqueued: they start with the first frame
   `s` has not processed, and end before the `ahead` bytes it has still to be fed.
   */
  ghost predicate Fed(s: Sess, b: Sess, buf: seq<byte>, ahead: seq<byte>) {
    && (forall f <- b.sent :: Encodable(f))
    && s.rcvd <= |b.sent|
    && buf + ahead == EncodeAll(b.sent[s.rcvd..])
  }

  /** Any chunk of the peer's bytes, cut anywhere, makes the session take whole frames of the peer in order. */
  lemma {:induction false} FeedKeeps(s: Sess, b: Sess, buf: seq<byte>, ahead: seq<byte>)
    requires Linked(s, b) && s.stack == [] && Fed(s, b, buf, ahead)
    requires Within(Drain(s, buf).0)
    ensures var (t, rest) := Drain(s, buf);
      Linked(t, b) && t.stack == [] && s.rcvd <= t.rcvd && (Halted(t) || Fed(t, b, rest, ahead))
    decreases |buf|
  {
    hide Linked, Process, Within, FirstFrame, HeaderLen, Encode, Oversize;
    LinkedParts(s, b);
    if !Halted(s) && buf != [] {
      var rest := b.sent[s.rcvd..];
      var f := b.sent[s.rcvd];
      assert rest[0] == f && rest[1..] == b.sent[s.rcvd + 1..];
      assert Sized(f) by { assert f in b.sent; }
      if |buf| < |Encode(f)| {
        assert buf == (Encode(f) + EncodeAll(rest[1..]))[..|buf|];
        PrefixIsIncomplete(f, EncodeAll(rest[1..]), |buf|);
      } else {
        var more := buf[|Encode(f)|..];
        assert buf == Encode(f) + more;
        FirstFrameOfEncode(f, more);
        ProcessKeeps(s, b, f);
        DrainWithin(Process(s, f), more);
        assert more + ahead == EncodeAll(rest[1..]);
        FeedKeeps(Process(s, f), b, more, ahead);
      }
    }
  }
}
