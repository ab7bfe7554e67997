/**
 Two sessions joined by reliable FIFO channels. The channel from one session to the other is the part of the
 first one's `sent` that the second has not processed: what is in the outbound queue, on the wire and in the
 peer's input buffer. `Linked` takes the two sessions apart into one `Link` a stream.
 */
module System {
  import opened Options
  import opened Wire
  import opened Engine
  import opened Links

  /** Stream ids a side can hand out before its 16-bit counter wraps. */
  const MAX_OPENS: nat := 32767

  // ---- projections --------------------------------------------------------

  ghost function Of(fs: seq<Frame>, id: u16): seq<Frame> {
    if fs == [] then [] else (if fs[0].sid == id then [fs[0]] else []) + Of(fs[1..], id)
  }

  ghost predicate About(e: Event, id: u16) {
    !e.Connected? && !e.Disconnected? && !e.Failed? && e.id == id
  }

  ghost function EventsOf(es: seq<Event>, id: u16): seq<Event> {
    if es == [] then [] else (if About(es[0], id) then [es[0]] else []) + EventsOf(es[1..], id)
  }

  ghost function PendsOf(ps: seq<Pend>, id: u16): seq<Pend> {
    if ps == [] then [] else (if ps[0].id == id then [ps[0]] else []) + PendsOf(ps[1..], id)
  }

  lemma {:induction false} OfAppend(fs: seq<Frame>, gs: seq<Frame>, id: u16)
    ensures Of(fs + gs, id) == Of(fs, id) + Of(gs, id)
  {
    if fs == [] {
      assert fs + gs == gs;
    } else {
      assert (fs + gs)[1..] == fs[1..] + gs;
      OfAppend(fs[1..], gs, id);
      var h := if fs[0].sid == id then [fs[0]] else [];
      assert h + (Of(fs[1..], id) + Of(gs, id)) == (h + Of(fs[1..], id)) + Of(gs, id);
    }
  }

  lemma {:induction false} OfOwn(fs: seq<Frame>, id: u16)
    ensures (forall f <- fs :: f.sid == id) ==> Of(fs, id) == fs
    ensures (forall f <- fs :: f.sid != id) ==> Of(fs, id) == []
  {
    if fs != [] {
      OfOwn(fs[1..], id);
      assert fs == [fs[0]] + fs[1..];
    }
  }

  lemma {:induction false} EventsAppend(es: seq<Event>, ds: seq<Event>, id: u16)
    ensures EventsOf(es + ds, id) == EventsOf(es, id) + EventsOf(ds, id)
  {
    if es == [] {
      assert es + ds == ds;
    } else {
      assert (es + ds)[1..] == es[1..] + ds;
      EventsAppend(es[1..], ds, id);
      var h := if About(es[0], id) then [es[0]] else [];
      assert h + (EventsOf(es[1..], id) + EventsOf(ds, id)) == (h + EventsOf(es[1..], id)) + EventsOf(ds, id);
    }
  }

  lemma {:induction false} EventsOwn(es: seq<Event>, id: u16)
    ensures (forall e <- es :: About(e, id)) ==> EventsOf(es, id) == es
    ensures (forall e <- es :: !About(e, id)) ==> EventsOf(es, id) == []
  {
    if es != [] {
      EventsOwn(es[1..], id);
      assert es == [es[0]] + es[1..];
    }
  }

  lemma {:induction false} PendsAppend(ps: seq<Pend>, p: Pend, id: u16)
    ensures PendsOf(ps + [p], id) == PendsOf(ps, id) + if p.id == id then [p] else []
  {
    if ps == [] {
      assert [p][1..] == [];
      assert ps + [p] == [p];
    } else {
      assert (ps + [p])[1..] == ps[1..] + [p];
      PendsAppend(ps[1..], p, id);
      var h, t := if ps[0].id == id then [ps[0]] else [], if p.id == id then [p] else [];
      assert h + (PendsOf(ps[1..], id) + t) == (h + PendsOf(ps[1..], id)) + t;
    }
  }

  lemma {:induction false} PendsIn(ps: seq<Pend>, id: u16)
    ensures forall p <- PendsOf(ps, id) :: p in ps && p.id == id
    ensures forall p <- ps :: p.id == id ==> p in PendsOf(ps, id)
  {
    if ps != [] {
      PendsIn(ps[1..], id);
    }
  }

  ghost function Lookup<T>(m: map<u16, T>, id: u16): Option<T> {
    if id in m then Some(m[id]) else None
  }

  /** The stream `id`, opened by `a`, read by `b`. */
  ghost function LinkOf(a: Sess, b: Sess, id: u16): Link
    requires b.rcvd <= |a.sent| && a.rcvd <= |b.sent|
  {
    Link(
      Lookup(a.streams, id),
      Lookup(b.streams, id),
      Run(Unopened, Of(a.sent[..b.rcvd], id)),
      Of(a.sent[b.rcvd..], id),
      Of(b.sent[a.rcvd..], id),
      EventsOf(b.trace, id),
      PendsOf(b.stack, id),
      Lookup(a.opts, id),
      if id in a.wrote then a.wrote[id] else [])
  }

  // ---- the invariant ------------------------------------------------------

  ghost predicate Own(role: Role, id: u16) {
    id != 0 && id % 2 == Base(role) % 2
  }

  /** The next id to hand out, before it is cut to 16 bits. */
  ghost function Limit(s: Sess): nat {
    Base(s.role) + 2 * s.opens
  }

  /** The assumptions on how a session is used. */
  ghost predicate Within(s: Sess) {
    s.opens <= MAX_OPENS && !s.reentered
  }

  ghost predicate SessInv(s: Sess) {
    && Within(s)
    && s.window > 0
    && !s.error
    && s.nextTxId == Limit(s) % 0x1_0000
    && (forall id <- s.streams :: id != 0 && (s.streams[id].local <==> Own(s.role, id)))
    && (forall p <- s.stack :: p.id != 0 && !Own(s.role, p.id))
    && (forall f <- s.sent :: Sized(f) && (f.sid == 0 <==> f.kind == FRAME_GOAWAY))
  }

  ghost predicate Joined(a: Sess, b: Sess) {
    a.role != b.role && a.window == b.window && b.rcvd <= |a.sent| && a.rcvd <= |b.sent|
  }

  ghost predicate HalfAt(a: Sess, b: Sess, id: u16)
    requires Joined(a, b)
  {
    Own(a.role, id) ==>
      && Links.Inv(a.window, id, LinkOf(a, b, id))
      && (id < Limit(a) <==> EndPhase(LinkOf(a, b, id)) != Unopened)
  }

  ghost predicate Half(a: Sess, b: Sess)
    requires Joined(a, b)
  {
    forall id: u16 :: HalfAt(a, b, id)
  }

  ghost predicate Linked(a: Sess, b: Sess) {
    SessInv(a) && SessInv(b) && Joined(a, b) && Half(a, b) && Half(b, a)
  }

  lemma LinkedInitially(role: Role, peer: Role, window: u32)
    requires role != peer && window > 0
    ensures Linked(NewSession(role, window), NewSession(peer, window))
  {
    var a, b := NewSession(role, window), NewSession(peer, window);
    forall id: u16 ensures HalfAt(a, b, id) && HalfAt(b, a, id) {
      assert LinkOf(a, b, id) == NoLink && LinkOf(b, a, id) == NoLink;
    }
  }

  // ---- steps that concern one stream ----------------------------------------

  /** Between `s` and `t` only stream `id` changed: it sent `fs` and logged `es`. */
  ghost predicate Local(s: Sess, t: Sess, id: u16, fs: seq<Frame>, es: seq<Event>) {
    && t.role == s.role && t.window == s.window && t.rcvd == s.rcvd
    && t.sent == s.sent + fs && (forall f <- fs :: f.sid == id)
    && t.trace == s.trace + es && (forall e <- es :: About(e, id))
    && (Limit(t) == Limit(s) || (Limit(t) == Limit(s) + 2 && id == Limit(s)))
    && (forall k: u16 | k != id ::
          && Lookup(t.streams, k) == Lookup(s.streams, k)
          && Lookup(t.opts, k) == Lookup(s.opts, k)
          && Lookup(t.wrote, k) == Lookup(s.wrote, k)
          && PendsOf(t.stack, k) == PendsOf(s.stack, k))
  }

  lemma OtherLinks(s: Sess, t: Sess, b: Sess, id: u16, fs: seq<Frame>, es: seq<Event>, k: u16)
    requires Joined(s, b) && Local(s, t, id, fs, es) && k != id
    ensures LinkOf(t, b, k) == LinkOf(s, b, k) && LinkOf(b, t, k) == LinkOf(b, s, k)
  {
    assert t.sent[..b.rcvd] == s.sent[..b.rcvd];
    assert t.sent[b.rcvd..] == s.sent[b.rcvd..] + fs;
    OfAppend(s.sent[b.rcvd..], fs, k);
    OfOwn(fs, k);
    EventsAppend(s.trace, es, k);
    EventsOwn(es, k);
    assert Lookup(t.wrote, k) == Lookup(s.wrote, k);
    assert Lookup(t.opts, k) == Lookup(s.opts, k);
    assert Lookup(t.streams, k) == Lookup(s.streams, k);
    assert PendsOf(t.stack, k) == PendsOf(s.stack, k);
  }

  lemma OwnLink(s: Sess, t: Sess, b: Sess, id: u16, fs: seq<Frame>, es: seq<Event>)
    requires Joined(s, b) && Local(s, t, id, fs, es)
    ensures LinkOf(t, b, id) == LinkOf(s, b, id).(tx := Lookup(t.streams, id), fwd := LinkOf(s, b, id).fwd + fs,
                                                  opts := Lookup(t.opts, id), wrote := if id in t.wrote then t.wrote[id] else [])
    ensures LinkOf(b, t, id) == LinkOf(b, s, id).(rx := Lookup(t.streams, id), bwd := LinkOf(b, s, id).bwd + fs,
                                                  evs := LinkOf(b, s, id).evs + es, pend := PendsOf(t.stack, id))
  {
    assert t.sent[..b.rcvd] == s.sent[..b.rcvd];
    assert t.sent[b.rcvd..] == s.sent[b.rcvd..] + fs;
    OfAppend(s.sent[b.rcvd..], fs, id);
    OfOwn(fs, id);
    EventsAppend(s.trace, es, id);
    EventsOwn(es, id);
  }

  /** A step of one stream keeps the whole if it keeps that stream. */
  lemma LocalStep(s: Sess, t: Sess, b: Sess, id: u16, fs: seq<Frame>, es: seq<Event>)
    requires Linked(s, b) && Local(s, t, id, fs, es) && SessInv(t)
    requires HalfAt(t, b, id) && HalfAt(b, t, id)
    ensures Linked(t, b)
  {
    hide Links.Inv, LinkOf, EndPhase, SessInv;
    forall k: u16 ensures HalfAt(t, b, k) && HalfAt(b, t, k) {
      if k != id {
        OtherLinks(s, t, b, id, fs, es, k);
        assert HalfAt(s, b, k) && HalfAt(b, s, k);
      }
    }
  }

  lemma OpenerInv(s: Sess, b: Sess, id: u16)
    requires Linked(s, b) && Own(s.role, id)
    ensures Links.Inv(s.window, id, LinkOf(s, b, id))
    ensures id < Limit(s) <==> EndPhase(LinkOf(s, b, id)) != Unopened
    ensures LinkOf(s, b, id).tx == Lookup(s.streams, id)
    ensures LinkOf(s, b, id).wrote == if id in s.wrote then s.wrote[id] else []
    ensures LinkOf(s, b, id).opts == Lookup(s.opts, id)
    ensures id in s.streams ==> id < Limit(s) && id in s.opts
  {
    assert HalfAt(s, b, id);
  }

  lemma ReaderInv(s: Sess, b: Sess, id: u16)
    requires Linked(s, b) && id != 0 && !Own(s.role, id)
    ensures Links.Inv(s.window, id, LinkOf(b, s, id))
    ensures id < Limit(b) <==> EndPhase(LinkOf(b, s, id)) != Unopened
    ensures LinkOf(b, s, id).rx == Lookup(s.streams, id)
    ensures LinkOf(b, s, id).pend == PendsOf(s.stack, id)
  {
    hide Links.Inv, EndPhase, Run, SessInv;
    assert HalfAt(b, s, id) by { PeerOwns(s, b, id); }
  }

  lemma PeerOwns(s: Sess, b: Sess, id: u16)
    requires s.role != b.role && id != 0
    ensures Own(b.role, id) <==> !Own(s.role, id)
  {
  }

  /** What such a step leaves alone at session level, and what its frames look like. */
  ghost predicate Clean(s: Sess, t: Sess, id: u16, fs: seq<Frame>) {
    && t.error == s.error && t.opens == s.opens && t.nextTxId == s.nextTxId && !t.reentered
    && (forall p <- t.stack :: p in s.stack || p.id == id)
    && (Own(s.role, id) ==> t.stack == s.stack)
    && (id in t.streams ==>
          (id in s.streams && t.streams[id].local == s.streams[id].local) || (t.streams[id].local <==> Own(s.role, id)))
    && (forall f <- fs :: Sized(f) && f.kind != FRAME_GOAWAY)
  }

  lemma StillSess(s: Sess, t: Sess, id: u16, fs: seq<Frame>, es: seq<Event>)
    requires SessInv(s) && Local(s, t, id, fs, es) && id != 0
    requires Clean(s, t, id, fs)
    ensures SessInv(t)
  {
    forall k | k in t.streams ensures k != 0 && (t.streams[k].local <==> Own(t.role, k)) {
      if k != id {
        assert Lookup(t.streams, k) == Lookup(s.streams, k);
      }
    }
  }

  /** A step of a stream that `s` opened. */
  lemma OpenerStep(s: Sess, t: Sess, b: Sess, id: u16, fs: seq<Frame>)
    requires Linked(s, b) && Local(s, t, id, fs, []) && Own(s.role, id)
    requires SessInv(t)
    requires Links.Inv(s.window, id, LinkOf(t, b, id))
    requires id < Limit(t) && id in t.opts
    ensures Linked(t, b)
  {
    hide SessInv, RxInv, FramesInv, CreditInv, ContentInv;
    assert HalfAt(t, b, id) && HalfAt(b, t, id);
    LocalStep(s, t, b, id, fs, []);
  }

  /** A step of a stream that `s` reads. */
  lemma ReaderStep(s: Sess, t: Sess, b: Sess, id: u16, fs: seq<Frame>, es: seq<Event>)
    requires Linked(s, b) && Local(s, t, id, fs, es) && id != 0 && !Own(s.role, id)
    requires Clean(s, t, id, fs)
    requires Links.Inv(s.window, id, LinkOf(b, t, id))
    ensures Linked(t, b)
  {
    StillSess(s, t, id, fs, es);
    ReaderInv(s, b, id);
    OwnLink(s, t, b, id, fs, es);
    assert HalfAt(t, b, id) && HalfAt(b, t, id);
    LocalStep(s, t, b, id, fs, es);
  }

  /** Session-level events touch no stream. */
  ghost predicate Silent(s: Sess, t: Sess) {
    && t.role == s.role && t.window == s.window && t.rcvd == s.rcvd && t.sent == s.sent
    && t.opens == s.opens && t.streams == s.streams && t.opts == s.opts && t.wrote == s.wrote && t.stack == s.stack
    && (t.trace == s.trace || exists e: Event :: (forall k: u16 :: !About(e, k)) && t.trace == s.trace + [e])
  }

  lemma SilentStep(s: Sess, t: Sess, b: Sess)
    requires Linked(s, b) && Silent(s, t) && SessInv(t)
    ensures Linked(t, b)
  {
    forall k: u16 ensures HalfAt(t, b, k) && HalfAt(b, t, k) {
      hide Links.Inv, SessInv, Own, EndPhase;
      SilentLinks(s, t, b, k);
      assert HalfAt(s, b, k) && HalfAt(b, s, k);
      hide LinkOf;
    }
  }

  lemma SilentLinks(s: Sess, t: Sess, b: Sess, k: u16)
    requires Joined(s, b) && Silent(s, t)
    ensures LinkOf(t, b, k) == LinkOf(s, b, k) && LinkOf(b, t, k) == LinkOf(b, s, k)
  {
    if t.trace != s.trace {
      var e :| (forall k: u16 :: !About(e, k)) && t.trace == s.trace + [e];
      EventsAppend(s.trace, [e], k);
      EventsOwn([e], k);
    }
  }
}
