/**
 The server's end of a delivery connection, in hub.go: a send buffer of bounded size.
 */
module Hub {
  import opened Bytes
  import opened Mail
  import opened Socket

  const SEND_BUFFER: nat := 64
  const BACKLOG_LIMIT: nat := 500

  /** A connection, its send buffer, and what is on the wire in each direction. */
  datatype Conn = Conn(device: string, closing: bool, mailboxes: set<string>, send: seq<Envelope>,
                       down: set<Envelope>, up: set<ClientFrame>)

  /** Deliver's select: a full buffer closes the connection. */
  function Offered(c: Conn, e: Envelope): Conn {
    if |c.send| < SEND_BUFFER then c.(send := c.send + [e]) else c.(closing := true)
  }

  function First<T>(s: seq<T>, n: nat): seq<T> {
    if |s| <= n then s else s[..n]
  }

  /** drain fills the buffer with the backlog of a mailbox and drops what does not fit. */
  function Drained(c: Conn, backlog: seq<Envelope>): Conn
    requires |c.send| <= SEND_BUFFER
  {
    c.(send := First(c.send + backlog, SEND_BUFFER))
  }

  /** The backlogs of several mailboxes, one after the other, each cut off at the limit. */
  function Backlog(queues: seq<seq<Envelope>>): seq<Envelope> {
    if queues == [] then []
    else Backlog(queues[..|queues| - 1]) + First(queues[|queues| - 1], BACKLOG_LIMIT)
  }

  lemma FirstStep(s: seq<Envelope>, e: Envelope, n: nat)
    ensures First(s + [e], n) == if |First(s, n)| < n then First(s, n) + [e] else First(s, n)
  {
  }

  class Connection {
    const device: string
    var mailboxes: set<string>
    var send: seq<Envelope>
    var closing: bool

    constructor (device: string)
      ensures this.device == device && mailboxes == {} && send == [] && !closing
    {
      this.device, mailboxes, send, closing := device, {}, [], false;
    }

    function Snapshot(down: set<Envelope>, up: set<ClientFrame>): Conn
      reads this
    {
      Conn(device, closing, mailboxes, send, down, up)
    }

    method Register(added: seq<string>)
      modifies `mailboxes
      ensures mailboxes == old(mailboxes) + Elements(added)
    {
      for i := 0 to |added|
        invariant mailboxes == old(mailboxes) + Elements(added[..i])
      {
        assert added[..i + 1] == added[..i] + [added[i]];
        mailboxes := mailboxes + {added[i]};
      }
      assert added[..|added|] == added;
    }

    method Offer(e: Envelope, ghost down: set<Envelope>, ghost up: set<ClientFrame>) returns (delivered: bool)
      modifies `send, `closing
      ensures Snapshot(down, up) == Offered(old(Snapshot(down, up)), e)
      ensures delivered <==> e in send && |send| == |old(send)| + 1
    {
      delivered := |send| < SEND_BUFFER;
      if delivered {
        send := send + [e];
      } else {
        closing := true;
      }
    }

    /** The buffer takes the first envelopes of all the backlogs together, and nothing after them. */
    method Drain(queues: seq<seq<Envelope>>)
      requires |send| <= SEND_BUFFER
      modifies `send
      ensures send == First(old(send) + Backlog(queues), SEND_BUFFER)
    {
      assert old(send) + Backlog(queues[..0]) == old(send);
      for j := 0 to |queues|
        invariant send == First(old(send) + Backlog(queues[..j]), SEND_BUFFER)
      {
        var queued := First(queues[j], BACKLOG_LIMIT);
        ghost var before := old(send) + Backlog(queues[..j]);
        assert before + queued[..0] == before;
        for i := 0 to |queued|
          invariant send == First(before + queued[..i], SEND_BUFFER)
        {
          FirstStep(before + queued[..i], queued[i], SEND_BUFFER);
          assert before + queued[..i + 1] == before + queued[..i] + [queued[i]];
          if |send| < SEND_BUFFER {
            send := send + [queued[i]];
          }
        }
        assert queued[..|queued|] == queued;
        assert queues[..j + 1][..j] == queues[..j];
        assert before + queued == old(send) + Backlog(queues[..j + 1]);
      }
      assert queues[..|queues|] == queues;
    }
  }

  /** Draining several mailboxes one by one, as subscribing does, is draining them together. */
  lemma {:induction false} DrainsCompose(c: Conn, queues: seq<seq<Envelope>>)
    requires |c.send| <= SEND_BUFFER && queues != []
    ensures var n := |queues| - 1;
            Drained(Drained(c, Backlog(queues[..n])), First(queues[n], BACKLOG_LIMIT)) == Drained(c, Backlog(queues))
  {
    var n := |queues| - 1;
    var a, b := c.send + Backlog(queues[..n]), First(queues[n], BACKLOG_LIMIT);
    assert c.send + Backlog(queues) == a + b;
    assert First(First(a, SEND_BUFFER) + b, SEND_BUFFER) == First(a + b, SEND_BUFFER);
  }

  lemma {:induction false} BacklogPart(queues: seq<seq<Envelope>>, n: nat)
    requires n < |queues|
    ensures var before := Backlog(queues[..n]); var part := First(queues[n], BACKLOG_LIMIT);
            before + part <= Backlog(queues)
    decreases |queues|
  {
    var m := |queues| - 1;
    if n == m {
      assert Backlog(queues) == Backlog(queues[..n]) + First(queues[n], BACKLOG_LIMIT);
    } else {
      BacklogPart(queues[..m], n);
      assert queues[..m][..n] == queues[..n];
    }
  }

  lemma BacklogOfCut(queues: seq<seq<Envelope>>, n: nat, k: nat)
    requires n < |queues| && k < |queues[n]|
    ensures Backlog(queues[..n] + [queues[n][..k]]) == Backlog(queues[..n]) + First(queues[n][..k], BACKLOG_LIMIT)
  {
    var cut := queues[..n] + [queues[n][..k]];
    assert cut[..|cut| - 1] == queues[..n];
  }

  lemma CutShort(q: seq<Envelope>, k: nat)
    requires k < |q|
    ensures First(q[..k], BACKLOG_LIMIT) <= First(q, BACKLOG_LIMIT)
    ensures |First(q[..k], BACKLOG_LIMIT)| == if k < BACKLOG_LIMIT then k else BACKLOG_LIMIT
    ensures k < BACKLOG_LIMIT ==> k < |First(q, BACKLOG_LIMIT)| && First(q, BACKLOG_LIMIT)[k] == q[k]
  {
  }

  lemma SameStart(a: seq<Envelope>, b: seq<Envelope>, n: nat)
    requires a <= b && n <= |a|
    ensures First(a, n) == First(b, n)
  {
  }

  /** A subscription drains the k-th envelope of its n-th mailbox exactly if it and everything before it, in the
      buffer, in the mailboxes before and in its own, fits the buffer. Nothing enqueued behind it matters, and
      while the first SEND_BUFFER envelopes stay queued nothing behind them is drained. */
  lemma HeadOfLine(c: Conn, queues: seq<seq<Envelope>>, n: nat, k: nat)
    requires |c.send| <= SEND_BUFFER && n < |queues| && k < |queues[n]|
    ensures var place := |c.send| + |Backlog(queues[..n])| + k; var sent := Drained(c, Backlog(queues)).send;
            && c.send <= sent && |sent| <= SEND_BUFFER
            && (place < SEND_BUFFER ==> place < |sent| && sent[place] == queues[n][k])
            && (place >= SEND_BUFFER ==> sent == Drained(c, Backlog(queues[..n] + [queues[n][..k]])).send)
  {
    hide Backlog;
    BacklogPart(queues, n);
    var before := Backlog(queues[..n]);
    var place := |c.send| + |before| + k;
    var all := c.send + Backlog(queues);
    BacklogOfCut(queues, n, k);
    CutShort(queues[n], k);
    if place < SEND_BUFFER {
      assert all[place] == (before + First(queues[n], BACKLOG_LIMIT))[|before| + k];
    } else {
      var cut := before + First(queues[n][..k], BACKLOG_LIMIT);
      assert cut <= before + First(queues[n], BACKLOG_LIMIT) <= Backlog(queues);
      assert c.send + cut <= all;
      SameStart(c.send + cut, all, SEND_BUFFER);
    }
  }
}
