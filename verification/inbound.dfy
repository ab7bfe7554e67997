/** The input side of a session: a fixed buffer that is filled with what the transport brings and emptied frame by frame. */
module Inbound {
  import opened Wire
  import opened Engine
  import opened Callbacks
  import opened Feed
  import opened Sessions

  /** No whole frame yet, and none that could never fit. */
  predicate Incomplete(bs: seq<byte>) {
    |bs| < HEADER_LEN || (HeaderLen(bs) <= MAX_FRAME_PAYLOAD && |bs| < HEADER_LEN + HeaderLen(bs))
  }

  lemma IncompleteWaits(s: Sess, bs: seq<byte>)
    requires Incomplete(bs)
    ensures Drain(s, bs) == (s, if Halted(s) then [] else bs)
  {
  }

  lemma DrainOne(s: Sess, bs: seq<byte>)
    requires !Halted(s) && |bs| >= HEADER_LEN && HeaderLen(bs) <= MAX_FRAME_PAYLOAD && |bs| >= HEADER_LEN + HeaderLen(bs)
    ensures Drain(s, bs) == Drain(Process(s, FirstFrame(bs)), bs[HEADER_LEN + HeaderLen(bs)..])
  {
  }

  lemma DrainOversize(s: Sess, bs: seq<byte>)
    requires !Halted(s) && |bs| >= HEADER_LEN && HeaderLen(bs) > MAX_FRAME_PAYLOAD
    ensures Drain(s, bs) == (Oversize(s), []) && Halted(Oversize(s))
  {
    OversizeHalts(s);
  }

  lemma DrainHalted(s: Sess, bs: seq<byte>)
    requires Halted(s)
    ensures Drain(s, bs) == (s, [])
  {
  }

  lemma FrameInside(bs: seq<byte>, off: nat, len: nat, plen: u16)
    requires off + HEADER_LEN + plen <= len <= |bs| && plen == HeaderLen(bs[off..len])
    ensures FirstFrame(bs[off..len]) ==
      Frame(bs[off], (bs[off + 1] as int) * 0x100 + bs[off + 2], bs[off + HEADER_LEN..off + HEADER_LEN + plen])
  {
    var rest := bs[off..len];
    assert rest[1..3] == [bs[off + 1], bs[off + 2]];
    SliceOfSlice(bs, off, len, HEADER_LEN, HEADER_LEN + plen);
  }

  class InBuffer {
    const s: Session
    const buf: array<byte>
    var len: nat

    ghost predicate Valid()
      reads this, buf, s, s.out, s.out.buf
    {
      && s.Valid()
      && buf.Length == HEADER_LEN + MAX_FRAME_PAYLOAD
      && buf != s.out.buf
      && len <= buf.Length
      && (!Halted(s.State()) ==> Incomplete(buf[..len]))
    }

    /** The bytes waiting for the rest of their frame; a halted session waits for nothing. */
    ghost function Waiting(): seq<byte>
      reads this, buf, s
      requires len <= buf.Length
    {
      if Halted(s.State()) then [] else buf[..len]
    }

    constructor (s: Session)
      requires s.Valid()
      ensures Valid() && this.s == s && Waiting() == [] && fresh(buf)
    {
      this.s := s;
      buf := new byte[HEADER_LEN + MAX_FRAME_PAYLOAD];
      len := 0;
    }

    /** The session has gone on, and the bytes received were left alone. */
    twostate predicate Apart()
      reads this, buf, s, s.out, s.out.buf
    {
      s.Valid() && buf != s.out.buf && (s.out.buf == old(s.out.buf) || fresh(s.out.buf)) && buf[..] == old(buf[..])
    }

    /** The payload length announced at `off`. */
    method LengthAt(off: nat) returns (plen: u16)
      requires off + HEADER_LEN <= len <= buf.Length
      ensures plen == HeaderLen(buf[off..len])
    {
      plen := (buf[off + 3] as int) * 0x100 + buf[off + 4];
      assert buf[off..len][3..5] == [buf[off + 3], buf[off + 4]];
    }

    /** A frame that could never fit. */
    method Refuse()
      requires s.Valid() && buf != s.out.buf && !Halted(s.State())
      modifies s, s.out, s.out.buf
      ensures Apart() && s.State() == Oversize(old(s.State()))
    {
      hide Callbacks.Dispatch;
      ErrorFrame(s.State(), InvalidSize);
      OversizeIsDispatch(s.State());
      s.ProtocolError(InvalidSize);
    }

    /** The frame at `off` is processed. */
    method TakeFrame(off: nat, plen: u16) returns (next: nat)
      requires s.Valid() && buf != s.out.buf && off + HEADER_LEN + plen <= len <= buf.Length && plen == HeaderLen(buf[off..len])
      modifies s, s.out, s.out.buf
      ensures Apart() && next == off + HEADER_LEN + plen
      ensures s.State() == Process(old(s.State()), FirstFrame(buf[off..len]))
    {
      hide Process, FirstFrame, HeaderLen;
      ghost var rest := buf[off..len];
      var kind := buf[off];
      var sid: u16 := (buf[off + 1] as int) * 0x100 + buf[off + 2];
      var payload := buf[off + HEADER_LEN..off + HEADER_LEN + plen];
      FrameInside(buf[..], off, len, plen);
      assert buf[..][off..len] == rest && payload == buf[..][off + HEADER_LEN..off + HEADER_LEN + plen];
      s.ProcessFrame(Frame(kind, sid, payload));
      next := off + HEADER_LEN + plen;
    }

    /** The frames in the buffer are processed one by one; `off` is how far that went. */
    method ProcessBuffered() returns (off: nat)
      requires s.Valid() && buf != s.out.buf && len <= buf.Length && !Halted(s.State())
      modifies s, s.out, s.out.buf
      ensures s.Valid() && (s.out.buf == old(s.out.buf) || fresh(s.out.buf))
      ensures off <= len && buf[..] == old(buf[..])
      ensures Drain(old(s.State()), buf[..len]) == (s.State(), if Halted(s.State()) then [] else buf[off..len])
      ensures !Halted(s.State()) ==> Incomplete(buf[off..len])
    {
      hide Drain, Process, Oversize, FirstFrame, HeaderLen;
      off := 0;
      ghost var all := buf[..len];
      assert buf[0..len] == all;
      while len - off >= HEADER_LEN
        invariant off <= len && Apart() && buf[..len] == all
        invariant !Halted(s.State())
        invariant Drain(old(s.State()), all) == Drain(s.State(), buf[off..len])
        decreases len - off
      {
        ghost var rest := buf[off..len];
        var plen := LengthAt(off);
        if plen > MAX_FRAME_PAYLOAD {
          DrainOversize(s.State(), rest);
          Refuse();
          return;
        }
        if len - off < HEADER_LEN + plen {
          IncompleteWaits(s.State(), rest);
          return;
        }
        DrainOne(s.State(), rest);
        off := TakeFrame(off, plen);
        assert rest[HEADER_LEN + plen..] == buf[off..len];
        if s.error || s.closing {
          DrainHalted(s.State(), buf[off..len]);
          return;
        }
      }
      IncompleteWaits(s.State(), buf[off..len]);
    }

    /** As much of `data` as there is room for goes to the end of the buffer. */
    method Fill(data: seq<byte>) returns (copy: nat)
      requires len <= buf.Length
      modifies buf, `len
      ensures copy == (if |data| < buf.Length - old(len) then |data| else buf.Length - old(len))
      ensures len == old(len) + copy && buf[..len] == old(buf[..len]) + data[..copy]
    {
      var space := buf.Length - len;
      copy := if |data| < space then |data| else space;
      forall i | 0 <= i < copy {
        buf[len + i] := data[i];
      }
      assert buf[len..len + copy] == data[..copy];
      assert buf[..len + copy] == buf[..len] + buf[len..len + copy];
      len := len + copy;
    }

    /** What is left of the buffer after its first `off` bytes moves to the front. */
    method Compact(off: nat)
      requires off <= len <= buf.Length
      modifies buf, `len
      ensures len == old(len) - off && buf[..len] == old(buf[off..len])
    {
      if off > 0 {
        ghost var rest := buf[off..len];
        forall i | 0 <= i < len - off {
          buf[i] := buf[off + i];
        }
        len := len - off;
        assert buf[..len] == rest;
      }
    }

    /** One turn of feeding: the buffer is filled as far as it goes, its frames are processed, the rest moves to the front. */
    method FeedPart(data: seq<byte>) returns (copy: nat)
      requires Valid() && !Halted(s.State()) && data != []
      modifies this, buf, s, s.out, s.out.buf
      ensures Valid() && (s.out.buf == old(s.out.buf) || fresh(s.out.buf))
      ensures 0 < copy <= |data|
      ensures Drain(s.State(), Waiting() + data[copy..]) == Drain(old(s.State()), old(Waiting()) + data)
    {
      hide Drain, Process, Session.Valid, Session.State;
      ghost var was := Waiting();
      copy := Fill(data);
      assert was + data == (was + data[..copy]) + data[copy..];
      DrainSplit(s.State(), buf[..len], data[copy..]);
      var off := ProcessBuffered();
      Compact(off);
    }

    /** dokan_session_feed. */
    method Feed(data: seq<byte>)
      requires Valid()
      modifies this, buf, s, s.out, s.out.buf
      ensures Valid() && (s.out.buf == old(s.out.buf) || fresh(s.out.buf))
      ensures (s.State(), Waiting()) == Drain(old(s.State()), old(Waiting()) + data)
    {
      hide Drain, Process, Incomplete, Session.Valid;
      var fed := 0;
      assert data[0..] == data;
      while fed < |data| && !s.error && !s.closing
        invariant fed <= |data| && Valid() && (s.out.buf == old(s.out.buf) || fresh(s.out.buf))
        invariant Drain(s.State(), Waiting() + data[fed..]) == Drain(old(s.State()), old(Waiting()) + data)
        decreases |data| - fed
      {
        ghost var ahead := data[fed..];
        var copy := FeedPart(data[fed..]);
        assert ahead[copy..] == data[fed + copy..];
        fed := fed + copy;
      }
      NothingMore(data[fed..]);
    }

    lemma NothingMore(data: seq<byte>)
      requires Valid() && (data == [] || Halted(s.State()))
      ensures Drain(s.State(), Waiting() + data) == (s.State(), Waiting())
    {
      hide Drain;
      if Halted(s.State()) {
        DrainHalted(s.State(), Waiting() + data);
      } else {
        assert Waiting() + data == buf[..len];
        IncompleteWaits(s.State(), buf[..len]);
      }
    }
  }

  lemma OversizeIsDispatch(s: Sess)
    requires !s.error
    ensures SameControl(s, Engine.ProtocolError(s, InvalidSize))
    ensures Oversize(s) == Dispatch(s, Engine.ProtocolError(s, InvalidSize))
  {
    ErrorFrame(s, InvalidSize);
  }
}
