/** What every step of a session costs: a weight on frames, running callbacks and unhandled events that each step uses up. */
module Weighing {
  import opened Wire
  import opened Engine
  import opened Links
  import opened System
  import opened Receiving
  import opened Carrying
  import opened Intactness
  import Reader

  /** A frame pays for the event it raises, the callback that runs, and the WINDOW frame that may answer it. */
  ghost function Weight(f: Frame): nat {
    if f.kind == FRAME_DATA then 5 else if f.kind == FRAME_EOF then 4 else 2
  }

  ghost function Weights(fs: seq<Frame>): nat {
    if fs == [] then 0 else Weight(fs[0]) + Weights(fs[1..])
  }

  lemma {:induction false} WeightsAppend(fs: seq<Frame>, gs: seq<Frame>)
    ensures Weights(fs + gs) == Weights(fs) + Weights(gs)
  {
    if fs == [] {
      assert fs + gs == gs;
    } else {
      assert (fs + gs)[1..] == fs[1..] + gs;
      WeightsAppend(fs[1..], gs);
    }
  }

  lemma WeightsOne(f: Frame)
    ensures Weights([f]) == Weight(f)
  {
    assert [f][1..] == [];
  }

  lemma CreditWeighs(id: u16, st: Stream)
    ensures Weights(CreditFrames(id, st)) <= 2
  {
    if st.creditPending != 0 {
      WeightsOne(Frame(FRAME_WINDOW, id, Wr32(st.creditPending)));
    }
  }

  /** What a session's running callbacks and raised events weigh. */
  ghost function Load(s: Sess): nat {
    3 * |s.stack| + |s.trace|
  }

  /** From `s` to `t` frames were sent that weigh at most `n`. */
  ghost predicate Weighs(s: Sess, t: Sess, n: nat) {
    s.sent <= t.sent && Weights(t.sent[|s.sent|..]) <= n
  }

  lemma WeighsThese(s: Sess, t: Sess, fs: seq<Frame>, n: nat)
    requires t.sent == s.sent + fs && Weights(fs) <= n
    ensures Weighs(s, t, n)
  {
    assert t.sent[|s.sent|..] == fs;
  }

  lemma WeighsTwice(s: Sess, t: Sess, u: Sess, m: nat, n: nat)
    requires Weighs(s, t, m) && Weighs(t, u, n)
    ensures Weighs(s, u, m + n)
  {
    assert u.sent[|s.sent|..] == t.sent[|s.sent|..] + u.sent[|t.sent|..];
    WeightsAppend(t.sent[|s.sent|..], u.sent[|t.sent|..]);
  }

  // ---- frames -----------------------------------------------------------------------

  lemma OpenWeighs(s: Sess, b: Sess, f: Frame)
    requires Incoming(s, b, f) && f.sid != 0 && !Own(s.role, f.sid) && f.kind == FRAME_OPEN && |s.streams| < MAX_STREAMS
    ensures var t := HandleOpen(Took(s), f.sid, f.payload);
      Weighs(s, t, 0) && Load(t) <= Load(s) + 1
  {
    hide Links.Inv, Half, SessInv, LinkOf, Run;
    ReaderHead(s, b, f);
    OpenPayload(s.window, f.sid, LinkOf(b, s, f.sid));
    hide Rd16, Rd64, Weighs, Weights;
    var t := HandleOpen(Took(s), f.sid, f.payload);
    assert t.sent == s.sent && t.stack == s.stack && |t.trace| == |s.trace| + 1;
    SameSent(s, s, t);
  }

  lemma DataWeighs(s: Sess, b: Sess, f: Frame)
    requires Incoming(s, b, f) && f.sid != 0 && !Own(s.role, f.sid) && f.kind == FRAME_DATA && Sized(f)
    requires f.sid in s.streams && !s.streams[f.sid].reset
    ensures var t := HandleData(Took(s), f.sid, f.payload);
      Weighs(s, t, 0) && Load(t) <= Load(s) + 4
  {
    hide Links.Inv, Half, SessInv, LinkOf, Run;
    ReaderHead(s, b, f);
    Reader.DataIsWelcome(s.window, f.sid, LinkOf(b, s, f.sid));
    TakenDataWeighs(s, f.sid, f.payload);
  }

  lemma TakenDataWeighs(s: Sess, sid: u16, payload: seq<byte>)
    requires sid in s.streams && |payload| < 0x1_0000 && !s.streams[sid].local && !s.streams[sid].finishedRecv
    requires s.streams[sid].recvOutstanding as int + |payload| <= s.window
    ensures var t := HandleData(Took(s), sid, payload); Weighs(s, t, 0) && Load(t) <= Load(s) + 4
  {
    hide Weighs, Weights;
    if s.streams[sid].reset {} else if s.streams[sid].paused {} else {}
    WeighsThese(s, HandleData(Took(s), sid, payload), [], Weights([]));
    NoneWeighsNothing();
  }

  lemma NoneWeighsNothing()
    ensures Weights([]) == 0
  {
  }

  lemma EofWeighs(s: Sess, b: Sess, f: Frame)
    requires Incoming(s, b, f) && f.sid != 0 && !Own(s.role, f.sid) && f.kind == FRAME_EOF
    requires f.sid in s.streams && !s.streams[f.sid].reset && NoPause(s)
    ensures var t := HandleEof(Took(s), f.sid, |f.payload|);
      Weighs(s, t, 2) && Load(t) <= Load(s) + 1
  {
    hide Links.Inv, Half, SessInv, LinkOf, Run;
    ReaderHead(s, b, f);
    EofPayload(s.window, f.sid, LinkOf(b, s, f.sid));
    Reader.ReaderEnds(s.window, f.sid, LinkOf(b, s, f.sid));
    NothingHeld(s, b, f);
    EndWeighs(s, f.sid);
  }

  lemma EndWeighs(s: Sess, id: u16)
    requires id in s.streams
    requires var st := s.streams[id]; !st.reset && !st.local && !st.finishedRecv && !st.paused && st.held == []
    ensures var t := HandleEof(Took(s), id, 0); Weighs(s, t, 2) && Load(t) <= Load(s) + 1
  {
    var t, fs := HandleEof(Took(s), id, 0), CreditFrames(id, s.streams[id]);
    CreditWeighs(id, s.streams[id]);
    WeighsThese(s, t, fs, 2);
  }

  lemma WindowWeighs(s: Sess, sid: u16, payload: seq<byte>)
    requires |payload| == 4 && (sid in s.streams ==> s.streams[sid].local)
    ensures var t := HandleWindow(Took(s), sid, payload); Weighs(s, t, 0) && Load(t) <= Load(s) + 1
  {
    hide Grant, Rd32, Weighs;
    if sid in s.streams && !s.streams[sid].reset {
      GrantWeighs(Took(s), sid, Rd32(payload));
      SameSent(s, Took(s), HandleWindow(Took(s), sid, payload));
    } else {
      SameSent(s, s, Took(s));
    }
  }

  lemma GrantWeighs(s: Sess, sid: u16, n: u32)
    requires sid in s.streams
    ensures Grant(s, sid, n).sent == s.sent && Load(Grant(s, sid, n)) <= Load(s) + 1
  {
    hide Add32, Put;
    var st := s.streams[sid];
    PutWeighs(s, sid, st.(sendWindow := Add32(st.sendWindow, n)));
    if !st.finishedSent && st.sendWindow == 0 && Add32(st.sendWindow, n) > 0 {} else {}
  }

  lemma PutWeighs(s: Sess, id: u16, st: Stream)
    ensures Put(s, id, st).sent == s.sent && Put(s, id, st).stack == s.stack && Put(s, id, st).trace == s.trace
  {
  }

  lemma SameSent(s: Sess, t: Sess, u: Sess)
    requires u.sent == t.sent == s.sent
    ensures Weighs(s, u, 0)
  {
    WeighsThese(s, u, [], 0);
  }

  /** A frame that is taken weighs more than what comes of it. */
  lemma FrameWeighs(s: Sess, b: Sess, f: Frame)
    requires Incoming(s, b, f) && Intact(s) && Intact(b) && Accepts(s, b) && NoPause(s) && |s.streams| < MAX_STREAMS
    ensures Encodable(f)
    ensures Weighs(s, Receive(s, f), if f.kind == FRAME_EOF then 2 else 0)
    ensures Load(Receive(s, f)) + (if f.kind == FRAME_EOF then 2 else 0) + 1 <= Load(s) + Weight(f)
  {
    hide Links.Inv, LinkOf, Run, Half, Intact, NoPause, HandleOpen, HandleData, HandleEof, HandleReset, HandleWindow, Weighs, Load;
    assert Sized(f) && (f.sid == 0 <==> f.kind == FRAME_GOAWAY) && f in b.sent by { assert f in b.sent; }
    NoResetSent(b, f);
    if f.sid == 0 {
      GoawayWeighs(s);
    } else if Own(s.role, f.sid) {
      OpenerHead(s, b, f);
      OwnStreams(s, f.sid);
      WindowWeighs(s, f.sid, f.payload);
    } else {
      ReaderHead(s, b, f);
      EofPayload(s.window, f.sid, LinkOf(b, s, f.sid));
      HeadIsKnown(s, b, f);
      NoneReset(s, f.sid);
      if f.kind == FRAME_OPEN { OpenWeighs(s, b, f); }
      else if f.kind == FRAME_DATA { DataWeighs(s, b, f); }
      else { EofWeighs(s, b, f); }
    }
  }

  lemma NoneReset(s: Sess, id: u16)
    requires Intact(s)
    ensures id in s.streams ==> !s.streams[id].reset
  {
  }

  lemma GoawayWeighs(s: Sess)
    ensures Weighs(s, HandleGoaway(Took(s)), 0) && Load(HandleGoaway(Took(s))) <= Load(s) + 1
  {
    SameSent(s, s, HandleGoaway(Took(s)));
  }

  // ---- the other steps ----------------------------------------------------------------

  lemma ReturnWeighs(s: Sess)
    requires s.stack != [] && NoPause(s)
    ensures Weighs(s, Return(s), 2) && Load(Return(s)) + 3 <= Load(s)
  {
    hide CreditConsume, Weighs;
    var p := s.stack[|s.stack| - 1];
    assert p.Delivering?;
    var s1 := s.(stack := s.stack[..|s.stack| - 1]);
    if p.id in s.streams && !s.streams[p.id].reset {
      ConsumeWeighs(s1, p.id, p.n);
      WeighsAlike(s1, s, CreditConsume(s1, p.id, p.n), 2);
    } else {
      SameSent(s, s, s1);
      WeighsLess(s, s1, 0, 2);
    }
  }

  lemma WeighsAlike(s: Sess, s1: Sess, t: Sess, n: nat)
    requires s1.sent == s.sent && Weighs(s, t, n)
    ensures Weighs(s1, t, n)
  {
  }

  lemma WeighsLess(s: Sess, t: Sess, m: nat, n: nat)
    requires Weighs(s, t, m) && m <= n
    ensures Weighs(s, t, n)
  {
  }

  lemma ConsumeWeighs(s: Sess, k: u16, n: u32)
    requires k in s.streams
    ensures var t := CreditConsume(s, k, n); Weighs(s, t, 2) && t.stack == s.stack && t.trace == s.trace
  {
    var st1 := s.streams[k].(creditPending := Add32(s.streams[k].creditPending, n));
    CreditWeighs(k, st1);
    var fs := Consumed(s.window, k, s.streams[k], n).1;
    WeighsThese(s, CreditConsume(s, k, n), fs, 2);
  }

  lemma CloseWeighs(s: Sess)
    ensures Weighs(s, CloseSession(s), 2) && Load(CloseSession(s)) == Load(s)
  {
    var f := Frame(FRAME_GOAWAY, 0, Wr32(ESP_OK));
    WeightsOne(f);
    WeighsThese(s, CloseSession(s), if !s.goawaySent && !s.error then [f] else [], 2);
  }

  lemma ConnectWeighs(s: Sess)
    ensures Weighs(s, Connect(s), 0) && Load(Connect(s)) <= Load(s) + 1
  {
    SameSent(s, s, Connect(s));
  }
}
