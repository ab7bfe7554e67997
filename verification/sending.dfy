/** What the exchange's own stream calls do to its session: the HELLO loop and the pump that sends the card. */
module Sending {
  import opened Wire
  import opened Engine
  import opened Links
  import opened System
  import opened Steps
  import opened Guarantees
  import opened Transfer

  /** From `s` to `t` the application only wrote to its stream `id` or finished it. */
  ghost predicate OnlyWrote(s: Sess, t: Sess, id: u16) {
    && t.role == s.role && t.window == s.window && t.rcvd == s.rcvd && t.nextTxId == s.nextTxId
    && t.opens == s.opens && t.opts == s.opts && t.trace == s.trace && t.stack == s.stack && t.reentered == s.reentered
    && t.closing == s.closing && t.error == s.error
    && t.streams.Keys == s.streams.Keys
    && (forall k <- s.streams ::
          && t.streams[k].local == s.streams[k].local && t.streams[k].paused == s.streams[k].paused
          && t.streams[k].reset == s.streams[k].reset && t.streams[k].finishedRecv == s.streams[k].finishedRecv
          && (k != id ==> t.streams[k] == s.streams[k]))
    && s.sent <= t.sent && (forall f <- t.sent :: f in s.sent || f.kind != FRAME_RESET)
    && (forall k: u16 | k != id :: Lookup(t.wrote, k) == Lookup(s.wrote, k))
  }

  lemma OnlyWroteSame(s: Sess, id: u16)
    ensures OnlyWrote(s, s, id)
  {
  }

  lemma OnlyWroteTwice(s: Sess, t: Sess, u: Sess, id: u16)
    requires OnlyWrote(s, t, id) && OnlyWrote(t, u, id)
    ensures OnlyWrote(s, u, id)
  {
    forall k: u16 | k != id ensures Lookup(u.wrote, k) == Lookup(s.wrote, k) {
      assert Lookup(u.wrote, k) == Lookup(t.wrote, k);
    }
  }

  /** The writing state of stream `id`, if there is one. */
  ghost predicate Unfinished(s: Sess, id: u16) {
    id in s.streams && !s.streams[id].finishedSent
  }

  lemma RecordOnly(s: Sess, t: Sess, id: u16)
    requires id in s.streams && id in t.streams && t.streams == s.streams[id := t.streams[id]]
    requires t.streams[id].local == s.streams[id].local && t.streams[id].paused == s.streams[id].paused
    requires t.streams[id].reset == s.streams[id].reset && t.streams[id].finishedRecv == s.streams[id].finishedRecv
    requires s.sent <= t.sent && forall f <- t.sent :: f in s.sent || f.kind != FRAME_RESET
    requires t.wrote == s.wrote || (id in t.wrote && t.wrote == s.wrote[id := t.wrote[id]])
    requires t == s.(streams := t.streams, wrote := t.wrote, sent := t.sent)
    ensures OnlyWrote(s, t, id)
  {
  }

  lemma LiveWrite(s: Sess, id: u16, data: seq<byte>, n: u32)
    requires id in s.streams && n == Accepted(s.streams[id], data)
    requires s.streams[id].local && !s.streams[id].finishedSent && !s.streams[id].reset
    ensures n <= |data| && n <= s.streams[id].sendWindow
    ensures var t, w := WriteStream(s, id, data), Written(s, id) + data[..n];
      && t.wrote == s.wrote[id := w]
      && t.streams == s.streams[id := s.streams[id].(sendWindow := s.streams[id].sendWindow - n)]
      && t == s.(streams := t.streams, wrote := t.wrote, sent := t.sent)
      && s.sent <= t.sent && (forall f <- t.sent :: f in s.sent || f.kind != FRAME_RESET)
  {
    hide Chunks;
    ChunksFacts(id, data[..n]);
  }

  lemma WriteEffect(s: Sess, id: u16, data: seq<byte>)
    ensures var t := WriteIfOpen(s, id, data);
      && OnlyWrote(s, t, id)
      && Written(t, id) == Written(s, id) + data[..AcceptedOn(s, id, data)]
      && (Unfinished(t, id) <==> Unfinished(s, id))
      && (AcceptedOn(s, id, data) == 0 ==> t.streams == s.streams)
      && (id in s.streams && AcceptedOn(s, id, data) > 0 ==>
            t.streams[id].sendWindow == s.streams[id].sendWindow - AcceptedOn(s, id, data) && t.streams[id].reset == s.streams[id].reset)
  {
    hide OnlyWrote;
    OnlyWroteSame(s, id);
    if id !in s.streams {
    } else if !s.streams[id].local || s.streams[id].finishedSent || s.streams[id].reset {
      assert Accepted(s.streams[id], data) == 0;
    } else {
      hide WriteStream, Accepted;
      LiveWrite(s, id, data, AcceptedOn(s, id, data));
      RecordOnly(s, WriteIfOpen(s, id, data), id);
      assert AcceptedOn(s, id, data) == 0 ==> s.streams[id := s.streams[id]] == s.streams;
    }
  }

  lemma WriteIfOpenKeeps(s: Sess, b: Sess, id: u16, data: seq<byte>)
    requires Linked(s, b)
    ensures Linked(WriteIfOpen(s, id, data), b)
  {
    hide Linked, WriteStream;
    if id in s.streams {
      WriteKeeps(s, b, id, data);
    }
  }

  lemma FinishEffect(s: Sess, id: u16)
    ensures var t := FinishIfOpen(s, id);
      && OnlyWrote(s, t, id) && t.wrote == s.wrote
      && (id in s.streams && s.streams[id].local && !s.streams[id].reset ==> t.streams[id].finishedSent)
  {
    hide OnlyWrote;
    OnlyWroteSame(s, id);
    if id !in s.streams {
    } else if !s.streams[id].local || s.streams[id].finishedSent || s.streams[id].reset {
    } else {
      RecordOnly(s, FinishIfOpen(s, id), id);
    }
  }

  lemma FinishIfOpenKeeps(s: Sess, b: Sess, id: u16)
    requires Linked(s, b)
    ensures Linked(FinishIfOpen(s, id), b)
  {
    hide Linked, FinishStream;
    if id in s.streams {
      FinishKeeps(s, b, id);
    }
  }

  // ---- HELLO --------------------------------------------------------------

  /** As much of `data` as a fresh window takes. */
  function Cut(data: seq<byte>, room: nat): seq<byte> {
    if |data| <= room then data else data[..room]
  }

  /** The HELLO that fits the window goes out whole; a longer one is cut at the window, and the loop gives up. */
  lemma HelloLoopSends(s: Sess, b: Sess, id: u16, h: seq<byte>)
    requires Linked(s, b) && id in s.streams && s.streams[id] == NewStream(true, s.window) && Written(s, id) == [] && |h| > 0
    ensures var t := HelloLoop(s, id, h, 64);
      Linked(t, b) && OnlyWrote(s, t, id) && Written(t, id) == Cut(h, s.window)
  {
    hide Linked, WriteIfOpen, OnlyWrote;
    LinkedWindow(s, b);
    var w := AcceptedOn(s, id, h);
    var s1 := WriteIfOpen(s, id, h);
    WriteEffect(s, id, h);
    WriteIfOpenKeeps(s, b, id, h);
    assert h[..w] == Cut(h, s.window);
    var rest := h[w..];
    if rest == [] {
      assert HelloLoop(s1, id, rest, 63) == s1;
    } else {
      WriteEffect(s1, id, rest);
      WriteIfOpenKeeps(s1, b, id, rest);
      OnlyWroteTwice(s, s1, WriteIfOpen(s1, id, rest), id);
      StillThere(s, s1, id);
      assert AcceptedOn(s1, id, rest) == 0;
      assert HelloLoop(s1, id, rest, 63) == WriteIfOpen(s1, id, rest);
    }
  }

  lemma LinkedWindow(s: Sess, b: Sess)
    requires Linked(s, b)
    ensures s.window > 0 && s.window == b.window && s.role != b.role
  {
  }

  lemma StillThere(s: Sess, t: Sess, id: u16)
    requires OnlyWrote(s, t, id) && id in s.streams
    ensures id in t.streams && t.streams[id].local == s.streams[id].local
  {
  }

  // ---- the card -------------------------------------------------------------

  /** Written to the stream or waiting in the buffer is what was read so far; the stream is finished only at its end. */
  ghost predicate CardInv(o: Outgoing, s: Sess)
    requires PumpOk(o)
  {
    var c, sh := o.card.value, o.stream.value;
    && c in s.streams && s.streams[c].local
    && Written(s, c) + o.buf[o.off..] == sh.pdf[..sh.pos]
    && (s.streams[c].finishedSent ==> o.done)
    && (o.done ==> sh.pos == sh.end && o.off == |o.buf|)
  }

  lemma RefillKeepsCard(o: Outgoing, s: Sess)
    requires PumpOk(o) && o.off == |o.buf| && CardInv(o, s)
    ensures PumpOk(Refilled(o)) && CardInv(Refilled(o), s)
  {
    RefillProgress(o);
    var sh, sh1 := o.stream.value, Refilled(o).stream.value;
    assert o.buf[o.off..] == [];
    assert Refilled(o).buf[0..] == Refilled(o).buf == sh.pdf[sh.pos..sh1.pos];
    assert sh.pdf[..sh.pos] + sh.pdf[sh.pos..sh1.pos] == sh.pdf[..sh1.pos];
  }

  /** One turn of the pump, started from `s`. */
  ghost predicate Pumps(o: Outgoing, s: Sess, p: Pump, b: Sess)
    requires PumpOk(o)
  {
    && PumpOk(p.o) && CardInv(p.o, p.s) && Linked(p.s, b)
    && OnlyWrote(s, p.s, o.card.value)
    && p.o.card == o.card && p.o.stream.value.pdf == o.stream.value.pdf && p.o.stream.value.end == o.stream.value.end
    && (o.done ==> p.o.done)
  }

  /** What a write takes leaves the buffer and has been written. */
  lemma BufferGoesOn(o: Outgoing, s: Sess, t: Sess, w: nat)
    requires PumpOk(o) && CardInv(o, s) && o.off + w <= |o.buf|
    requires var c := o.card.value;
      && c in t.streams && t.streams[c].local && t.streams[c].finishedSent == s.streams[c].finishedSent
      && Written(t, c) == Written(s, c) + o.buf[o.off..][..w]
    ensures CardInv(o.(off := o.off + w), t)
  {
    hide Written, ShareOk;
    SplitAt(Written(s, o.card.value), o.buf, o.off, w);
  }

  lemma SplitAt(said: seq<byte>, buf: seq<byte>, off: nat, w: nat)
    requires off + w <= |buf|
    ensures (said + buf[off..][..w]) + buf[off + w..] == said + buf[off..]
  {
    assert buf[off..] == buf[off..][..w] + buf[off + w..];
  }

  lemma CardGoesOn(o: Outgoing, s: Sess)
    requires PumpOk(o) && CardInv(o, s)
    ensures var id, rest := o.card.value, o.buf[o.off..];
      var t := WriteIfOpen(s, id, rest);
      OnlyWrote(s, t, id) && CardInv(o.(off := o.off + AcceptedOn(s, id, rest)), t)
  {
    assert o.card.value in s.streams && s.streams[o.card.value].local;
    hide WriteIfOpen, AcceptedOn, OnlyWrote, Written, CardInv, ShareOk;
    var id, rest := o.card.value, o.buf[o.off..];
    WriteEffect(s, id, rest);
    StillThere(s, WriteIfOpen(s, id, rest), id);
    BufferGoesOn(o, s, WriteIfOpen(s, id, rest), AcceptedOn(s, id, rest));
  }

  lemma WriteTurnKeeps(p: Pump, b: Sess)
    requires PumpOk(p.o) && CardInv(p.o, p.s) && Linked(p.s, b)
    ensures Pumps(p.o, p.s, WriteTurn(p).p, b)
  {
    hide Linked, WriteIfOpen, AcceptedOn, OnlyWrote, CardInv, ShareOk;
    WriteIfOpenKeeps(p.s, b, p.o.card.value, p.o.buf[p.o.off..]);
    CardGoesOn(p.o, p.s);
  }

  lemma TurnKeeps(p: Pump, b: Sess)
    requires PumpOk(p.o) && CardInv(p.o, p.s) && Linked(p.s, b)
    ensures Pumps(p.o, p.s, PumpTurn(p).p, b)
  {
    hide Linked, WriteTurn, FinishIfOpen, OnlyWrote;
    TurnProgress(p);
    if p.o.off == |p.o.buf| {
      RefillKeepsCard(p.o, p.s);
      var o1 := Refilled(p.o);
      if o1.buf != [] {
        WriteTurnKeeps(p.(o := o1), b);
      } else if Remaining(o1.stream.value) > 0 || o1.stream.value.error {
        OnlyWroteSame(p.s, p.o.card.value);
      } else {
        FinishIfOpenKeeps(p.s, b, p.o.card.value);
        FinishEffect(p.s, p.o.card.value);
        StillThere(p.s, FinishIfOpen(p.s, p.o.card.value), p.o.card.value);
      }
    } else {
      WriteTurnKeeps(p, b);
    }
  }

  lemma {:induction false} PumpSendKeeps(p: Pump, b: Sess)
    requires PumpOk(p.o) && CardInv(p.o, p.s) && Linked(p.s, b)
    ensures Pumps(p.o, p.s, PumpSend(p), b)
    decreases ToSend(p.o)
  {
    hide Linked, PumpTurn, CardInv, ToSend, OnlyWrote;
    TurnProgress(p);
    TurnKeeps(p, b);
    var p1 := PumpTurn(p).p;
    if PumpTurn(p).Again? {
      PumpSendKeeps(p1, b);
      OnlyWroteTwice(p.s, p1.s, PumpSend(p1).s, p.o.card.value);
    }
  }

  /** The pump stops for one of three reasons: the card is sent, it cannot be read, or the window is shut. */
  lemma {:induction false} PumpStopsWithReason(p: Pump)
    requires PumpOk(p.o)
    ensures var r := PumpSend(p);
      r.o.done || r.o.stuck || (r.o.card == p.o.card && r.o.off < |r.o.buf| && !CanWrite(r.s, r.o.card.value))
    decreases ToSend(p.o)
  {
    hide PumpTurn, ToSend;
    TurnProgress(p);
    TurnStopsWithReason(p);
    if PumpTurn(p).Again? {
      PumpStopsWithReason(PumpTurn(p).p);
    }
  }

  lemma TurnStopsWithReason(p: Pump)
    requires PumpOk(p.o)
    ensures var t := PumpTurn(p);
      && t.p.o.card == p.o.card
      && (t.Stop? ==> t.p.o.done || t.p.o.stuck || (t.p.o.off < |t.p.o.buf| && !CanWrite(t.p.s, p.o.card.value)))
  {
    hide WriteTurn, FinishIfOpen;
    if p.o.off == |p.o.buf| {
      RefillProgress(p.o);
      if Refilled(p.o).buf != [] {
        WriteStops(p.(o := Refilled(p.o)));
      }
    } else {
      WriteStops(p);
    }
  }

  lemma WriteStops(p: Pump)
    requires p.o.card.Some? && p.o.off < |p.o.buf|
    ensures var t := WriteTurn(p);
      t.p.o.card == p.o.card && (t.Stop? ==> t.p.o == p.o && !CanWrite(t.p.s, p.o.card.value))
  {
    hide WriteIfOpen;
    WriteEffect(p.s, p.o.card.value, p.o.buf[p.o.off..]);
  }

  // ---- opening ----------------------------------------------------------------

  lemma OpenEffect(s: Sess, b: Sess, o: Opts)
    requires Linked(s, b) && CanOpen(s) && s.opens < MAX_OPENS
    ensures var t, id := OpenStream(s, o), s.nextTxId;
      && Linked(t, b)
      && id !in s.opts && id !in s.streams && Own(s.role, id)
      && t.opens == s.opens + 1 && t.opts == s.opts[id := o] && t.wrote == s.wrote[id := []]
      && t.streams == s.streams[id := NewStream(true, s.window)]
      && t.trace == s.trace && t.stack == s.stack && t.reentered == s.reentered && t.role == s.role && t.window == s.window
  {
    hide Links.Inv, LinkOf, Half;
    OpenKeeps(s, b, o);
    OpenIsLocal(s, o);
    NextIsFresh(s, b);
  }

  lemma NextIsFresh(s: Sess, b: Sess)
    requires Linked(s, b) && s.opens < MAX_OPENS
    ensures s.nextTxId !in s.opts && s.nextTxId !in s.streams && Own(s.role, s.nextTxId)
  {
    var id := s.nextTxId;
    assert Base(s.role) % 2 == (Base(s.role) + 2 * s.opens) % 2;
    OpenerInv(s, b, id);
  }
}
