/** The outbound queue: a growable buffer with a head and a tail, drained by a transport that may take only part. */
module Outbound {
  import opened Wire

  /** How much of `q` a flush hands over when successive transport writes accept at most `grants`; and the grants left. */
  function Taken(q: seq<byte>, grants: seq<nat>): (r: (nat, seq<nat>))
    ensures r.0 <= |q|
    decreases |q|
  {
    if q == [] then (0, grants)
    else if grants == [] then (0, [])
    else
      var w := if grants[0] < |q| then grants[0] else |q|;
      if w == 0 then (0, grants[1..])
      else
        var (n, rest) := Taken(q[w..], grants[1..]);
        (w + n, rest)
  }

  /** One transport write. */
  function Granted(len: nat, grants: seq<nat>): nat {
    if grants == [] then 0 else if grants[0] < len then grants[0] else len
  }

  function Later(grants: seq<nat>): seq<nat> {
    if grants == [] then [] else grants[1..]
  }

  lemma TakenStep(q: seq<byte>, k: nat, g: seq<nat>)
    requires k <= |q|
    ensures k == |q| ==> Taken(q[k..], g) == (0, g)
    ensures k < |q| ==>
      var w := Granted(|q| - k, g);
      k + w <= |q| &&
      Taken(q[k..], g) == if w == 0 then (0, Later(g)) else (w + Taken(q[k + w..], Later(g)).0, Taken(q[k + w..], Later(g)).1)
  {
    if k < |q| {
      var w := Granted(|q| - k, g);
      assert q[k..][w..] == q[k + w..];
    }
  }

  function Total(grants: seq<nat>): nat {
    if grants == [] then 0 else grants[0] + Total(grants[1..])
  }

  /**
   A flush asks as often as it takes: it stops only when everything was taken, or when the transport, asked once more, took
   nothing or had no more to say. What was taken is all that was granted, as far as there was anything to take.
   */
  lemma {:induction false} FlushGoesOn(q: seq<byte>, grants: seq<nat>) returns (asked: nat)
    ensures var (n, rest) := Taken(q, grants);
      && asked <= |grants| && rest == grants[asked..]
      && n == (if Total(grants[..asked]) <= |q| then Total(grants[..asked]) else |q|)
      && (forall i :: 0 <= i < asked - 1 ==> grants[i] > 0)
      && (n == |q| || asked == |grants| || (asked > 0 && grants[asked - 1] == 0))
    decreases |q|
  {
    if q == [] || grants == [] {
      asked := 0;
    } else {
      var w := if grants[0] < |q| then grants[0] else |q|;
      if w == 0 {
        asked := 1;
        assert grants[..1] == [grants[0]];
      } else {
        var later := FlushGoesOn(q[w..], grants[1..]);
        asked := later + 1;
        assert grants[..asked][1..] == grants[1..][..later];
      }
    }
  }

  lemma Handed(before: seq<byte>, q: seq<byte>, k: nat, n: nat)
    requires k <= n <= |q|
    ensures (before + q[..k]) + q[k..n] == before + q[..n]
  {
    assert q[..n] == q[..k] + q[k..n];
  }

  class OutQueue {
    var buf: array<byte>
    var head: nat
    var tail: nat
    /** What the next transport writes will accept at most; past its end they accept nothing. */
    var grants: seq<nat>
    /** Everything enqueued so far, and what the transport has taken of it. */
    ghost var enqueued: seq<byte>
    ghost var accepted: seq<byte>

    ghost predicate Valid()
      reads this, buf
    {
      head <= tail <= buf.Length && accepted + buf[head..tail] == enqueued
    }

    /** The bytes still queued. */
    ghost function Queued(): seq<byte>
      reads this, buf
      requires head <= tail <= buf.Length
    {
      buf[head..tail]
    }

    constructor (grants: seq<nat>)
      ensures Valid() && fresh(buf)
      ensures enqueued == accepted == [] && Queued() == [] && this.grants == grants
    {
      buf := new byte[0];
      head, tail := 0, 0;
      enqueued, accepted := [], [];
      this.grants := grants;
    }

    /** write_fn: the transport takes a prefix, possibly nothing. */
    method TransportWrite(len: nat) returns (w: nat)
      requires head + len <= tail <= buf.Length
      modifies `grants, `accepted
      ensures w == Granted(len, old(grants)) <= len && grants == Later(old(grants))
      ensures accepted == old(accepted) + buf[head..head + w]
    {
      if grants == [] {
        w := 0;
      } else {
        w := if grants[0] < len then grants[0] else len;
        grants := grants[1..];
      }
      accepted := accepted + buf[head..head + w];
    }

    /** The loop of out_flush: hands over as long as the transport takes anything. */
    method HandOver() returns (ghost n: nat)
      requires Valid()
      modifies `head, `grants, `accepted
      ensures head == old(head) + n && n <= |old(Queued())|
      ensures accepted == old(accepted) + old(Queued())[..n]
      ensures Taken(old(Queued()), old(grants)) == (n, grants)
    {
      hide Taken, Granted, Later;
      ghost var q, g, before := Queued(), grants, accepted;
      n := 0;
      assert q[0..] == q && q[..0] == [];
      while head < tail
        invariant head == old(head) + n && n <= |q|
        invariant accepted == before + q[..n]
        invariant Taken(q, g) == (n + Taken(q[n..], grants).0, Taken(q[n..], grants).1)
        decreases tail - head
      {
        TakenStep(q, n, grants);
        var w := TransportWrite(tail - head);
        if w == 0 {
          return;
        }
        assert buf[head..head + w] == q[n..n + w];
        Handed(before, q, n, n + w);
        head := head + w;
        n := n + w;
      }
      TakenStep(q, n, grants);
    }

    /** out_flush: once everything was taken, the queue starts at the front again. */
    method Flush()
      requires Valid()
      modifies this
      ensures Valid() && buf == old(buf) && enqueued == old(enqueued)
      ensures var (n, rest) := Taken(old(Queued()), old(grants));
        accepted == old(accepted) + old(Queued())[..n] && Queued() == old(Queued())[n..] && grants == rest
    {
      hide Taken;
      ghost var q, before := Queued(), accepted;
      ghost var n := HandOver();
      assert buf[head..tail] == q[n..];
      Handed(before, q, n, |q|);
      if head == tail {
        head, tail := 0, 0;
      }
    }

    /** Makes room for `need` more bytes: first by moving the queue to the front, then by doubling the capacity. */
    method Reserve(need: nat)
      requires Valid()
      modifies this, buf
      ensures Valid() && (buf == old(buf) || fresh(buf))
      ensures Queued() == old(Queued()) && tail + need <= buf.Length
      ensures enqueued == old(enqueued) && accepted == old(accepted) && grants == old(grants)
    {
      if tail + need > buf.Length {
        if head > 0 {
          ghost var q := Queued();
          forall i | 0 <= i < tail - head {
            buf[i] := buf[head + i];
          }
          head, tail := 0, tail - head;
          assert buf[head..tail] == q;
        }
        if tail + need > buf.Length {
          var cap := if buf.Length == 0 then 256 else buf.Length;
          while cap < tail + need
            invariant cap >= buf.Length && cap > 0
            decreases tail + need - cap
          {
            cap := cap * 2;
          }
          var bigger := new byte[cap];
          forall i | 0 <= i < buf.Length {
            bigger[i] := buf[i];
          }
          assert bigger[head..tail] == buf[head..tail];
          buf := bigger;
        }
      }
    }

    method PutFrame(f: Frame)
      requires Encodable(f) && head <= tail && tail + HEADER_LEN + |f.payload| <= buf.Length
      modifies buf
      ensures buf[tail..tail + HEADER_LEN + |f.payload|] == Encode(f)
      ensures buf[..tail] == old(buf[..tail])
    {
      hide Wr16;
      var p := tail;
      PutHeader(f);
      forall i | 0 <= i < |f.payload| {
        buf[p + 5 + i] := f.payload[i];
      }
      assert buf[p..p + 5] == [f.kind] + Wr16(f.sid) + Wr16(|f.payload|);
      ghost var body := buf[p + 5..p + 5 + |f.payload|];
      forall i | 0 <= i < |f.payload| ensures body[i] == f.payload[i] {
        assert body[i] == buf[p + 5 + i];
      }
      assert body == f.payload;
      assert buf[p..p + 5 + |f.payload|] == buf[p..p + 5] + buf[p + 5..p + 5 + |f.payload|];
    }

    method PutHeader(f: Frame)
      requires Encodable(f) && tail + HEADER_LEN <= buf.Length
      modifies buf
      ensures buf[tail..tail + HEADER_LEN] == [f.kind] + Wr16(f.sid) + Wr16(|f.payload|)
      ensures buf[..tail] == old(buf[..tail])
    {
      var p := tail;
      buf[p], buf[p + 1], buf[p + 2] := f.kind, f.sid / 0x100, f.sid % 0x100;
      buf[p + 3], buf[p + 4] := |f.payload| / 0x100, |f.payload| % 0x100;
    }

    /** The frame goes to the end of the queue. */
    method Append(f: Frame)
      requires Valid() && Encodable(f)
      modifies this, buf
      ensures Valid() && (buf == old(buf) || fresh(buf))
      ensures enqueued == old(enqueued) + Encode(f) && Queued() == old(Queued()) + Encode(f)
      ensures accepted == old(accepted) && grants == old(grants)
    {
      hide Encode;
      var need := HEADER_LEN + |f.payload|;
      Reserve(need);
      ghost var q, before := Queued(), buf[..tail];
      PutFrame(f);
      assert buf[head..tail] == before[head..tail] == q;
      assert buf[head..tail + need] == buf[head..tail] + buf[tail..tail + need];
      tail := tail + need;
      enqueued := enqueued + Encode(f);
      assert accepted + (q + Encode(f)) == (accepted + q) + Encode(f);
    }

    /** enqueue: and the queue is flushed. */
    method Enqueue(f: Frame)
      requires Valid() && Encodable(f)
      modifies this, buf
      ensures Valid() && (buf == old(buf) || fresh(buf))
      ensures enqueued == old(enqueued) + Encode(f)
      ensures var q := old(Queued()) + Encode(f);
        var (n, rest) := Taken(q, old(grants));
        accepted == old(accepted) + q[..n] && Queued() == q[n..] && grants == rest
    {
      hide Encode, Taken;
      Append(f);
      Flush();
    }
  }
}
