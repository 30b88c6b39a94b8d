/**
 Mail can always come through: from whatever state the run is in, a new connection delivers what is queued near the
 head of one of our mailboxes, and its ack then destroys it.
 */
module DeliveryProgress {
  import opened Bytes
  import opened Mail
  import opened Socket
  import opened Hub
  import opened Delivery

  lemma {:induction false} LeadsConcat(y: Net, a: seq<Step>, m: Net, b: seq<Step>, z: Net)
    requires Leads(y, a, m) && Leads(m, b, z)
    ensures Leads(y, a + b, z)
    decreases |a|
  {
    hide After, Enabled;
    if a == [] {
      assert a + b == b;
    } else {
      LeadsConcat(After(y, a[0]), a[1..], m, b, z);
      assert (a + b)[0] == a[0] && (a + b)[1..] == a[1..] + b;
    }
  }

  lemma LeadsOne(y: Net, x: Step)
    requires Enabled(y, x)
    ensures Leads(y, [x], After(y, x))
  {
    hide After, Enabled;
    assert [x][1..] == [];
  }

  // ----- a new connection -----

  /** The state in which connection k of ours is open and has drained a mailbox. */
  ghost predicate OpenAndDrained(y: Net, z: Net, k: nat, mailbox: string) {
    && z.mail == y.mail && z.me == y.me && z.owner == y.owner && z.handled == y.handled
    && z.client.ws == Some(k) && z.client.ready && !z.client.closedByUs && z.client.inbox == y.client.inbox
    && k in z.conns && mailbox in z.conns[k].mailboxes && z.conns[k].device == y.me
    && z.conns[k].send == First(First(Get(y.mail.queue, mailbox), BACKLOG_LIMIT), SEND_BUFFER)
  }

  function Greeting(y: Net, k: nat, mailbox: string): seq<Step> {
    [Connect(k, y.me)] + ([Opened] + [Drain(k, mailbox)])
  }

  lemma Greets(y: Net, k: nat, mailbox: string) returns (z: Net)
    requires k !in y.conns && y.client.ws != Some(k) && y.Owns(y.me, mailbox)
    ensures Leads(y, Greeting(y, k, mailbox), z) && OpenAndDrained(y, z, k, mailbox)
  {
    hide Leads, PendingFrames, Kept, First;
    var y1 := After(y, Connect(k, y.me));
    var y2 := After(y1, Opened);
    z := After(y2, Drain(k, mailbox));
    assert [] + First(Get(y.mail.queue, mailbox), BACKLOG_LIMIT) == First(Get(y.mail.queue, mailbox), BACKLOG_LIMIT);
    LeadsOne(y2, Drain(k, mailbox));
    LeadsOne(y1, Opened);
    LeadsOne(y, Connect(k, y.me));
    LeadsConcat(y1, [Opened], y2, [Drain(k, mailbox)], z);
    LeadsConcat(y, [Connect(k, y.me)], y1, [Opened] + [Drain(k, mailbox)], z);
  }

  // ----- the write loop -----

  function Writes(k: nat, n: nat): seq<Step> {
    if n == 0 then [] else [Write(k)] + Writes(k, n - 1)
  }

  lemma {:induction false} WritesOut(y: Net, k: nat, n: nat) returns (z: Net)
    requires k in y.conns && n <= |y.conns[k].send|
    ensures Leads(y, Writes(k, n), z)
    ensures k in z.conns && z == y.WithConn(k, z.conns[k])
    ensures var c := y.conns[k]; z.conns[k] == c.(send := c.send[n..], down := c.down + Elements(c.send[..n]))
    decreases n
  {
    hide Leads;
    var c := y.conns[k];
    if n == 0 {
      z := y;
      NoSteps(y);
      assert c.send[0..] == c.send && Elements(c.send[..0]) == {} && c.down + {} == c.down;
    } else {
      var m := After(y, Write(k));
      z := WritesOut(m, k, n - 1);
      LeadsOne(y, Write(k));
      LeadsConcat(y, [Write(k)], m, Writes(k, n - 1), z);
      assert c.send[1..][n - 1..] == c.send[n..];
      ElementsFromFirst(c.send, n);
      assert c.down + {c.send[0]} + Elements(c.send[1..][..n - 1]) == c.down + Elements(c.send[..n]);
    }
  }

  lemma NoSteps(y: Net)
    ensures Leads(y, [], y)
  {
  }

  lemma ElementsFromFirst(s: seq<Envelope>, n: nat)
    requires 0 < n <= |s|
    ensures Elements(s[..n]) == {s[0]} + Elements(s[1..][..n - 1])
  {
    assert s[..n] == [s[0]] + s[1..][..n - 1];
  }

  // ----- at the client, and back -----

  function Homecoming(k: nat, e: Envelope): seq<Step> {
    [Arrive(k, e)] + ([Handle(true)] + [AckArrives(k, AckFrame(e.mailbox, {e.id}))])
  }

  lemma Returns(y: Net, k: nat, e: Envelope) returns (z: Net)
    requires k in y.conns && e in y.conns[k].down && y.conns[k].device == y.me && e.mailbox in y.conns[k].mailboxes
    requires y.client.ws == Some(k) && y.client.ready && !y.client.closedByUs && y.client.inbox == []
    ensures Leads(y, Homecoming(k, e), z)
    ensures z.handled == y.handled + {e} && z.mail.log == y.mail.log && !Pends(z.client.pending, e.mailbox, e.id)
    ensures Get(z.mail.queue, e.mailbox) == Unacked(Get(y.mail.queue, e.mailbox), {e.id})
  {
    hide Leads, Tracked, Untracked, Unacked;
    var f := AckFrame(e.mailbox, {e.id});
    var y1 := After(y, Arrive(k, e));
    assert y1.client.inbox == [e];
    var y2 := After(y1, Handle(true));
    assert f in y2.conns[k].up;
    z := After(y2, AckArrives(k, f));
    LeadsOne(y2, AckArrives(k, f));
    LeadsOne(y1, Handle(true));
    LeadsOne(y, Arrive(k, e));
    LeadsConcat(y1, [Handle(true)], y2, [AckArrives(k, f)], z);
    LeadsConcat(y, [Arrive(k, e)], y1, [Handle(true)] + [AckArrives(k, f)], z);
  }

  /** Any of the first 64 envelopes of a mailbox of ours can be received, handled and destroyed over one new
      connection, whatever has happened before; the others stay queued, in order. */
  lemma MailComesThrough(y: Net, k: nat, mailbox: string, n: nat) returns (steps: seq<Step>, z: Net)
    requires Inv(y) && k !in y.conns && y.client.ws != Some(k) && y.client.inbox == [] && y.Owns(y.me, mailbox)
    requires n < SEND_BUFFER && n < |Get(y.mail.queue, mailbox)|
    ensures var e := Get(y.mail.queue, mailbox)[n];
            && Leads(y, steps, z) && Inv(z) && e in z.handled
            && Get(z.mail.queue, mailbox) == Unacked(Get(y.mail.queue, mailbox), {e.id})
            && !Pends(z.client.pending, mailbox, e.id)
  {
    hide Leads, Inv, Unacked, Get, Pends;
    var e := Get(y.mail.queue, mailbox)[n];
    QueuedMailbox(y, mailbox, n);
    var y1 := Greets(y, k, mailbox);
    var sent := y1.conns[k].send;
    assert n < |sent| && sent[n] == e;
    var y2 := WritesOut(y1, k, n + 1);
    assert e == sent[..n + 1][n] && e in Elements(sent[..n + 1]);
    z := Returns(y2, k, e);
    LeadsConcat(y1, Writes(k, n + 1), y2, Homecoming(k, e), z);
    LeadsConcat(y, Greeting(y, k, mailbox), y1, Writes(k, n + 1) + Homecoming(k, e), z);
    steps := Greeting(y, k, mailbox) + (Writes(k, n + 1) + Homecoming(k, e));
    RunKeepsInv(y, steps, z);
  }

  lemma QueuedMailbox(y: Net, mailbox: string, n: nat)
    requires Inv(y) && n < |Get(y.mail.queue, mailbox)|
    ensures Get(y.mail.queue, mailbox)[n].mailbox == mailbox
  {
    hide Unacked;
    QueueIsLogged(y.mail, mailbox);
  }

  /** Opening a connection asks for every mailbox subscribed to, and the server then serves those that are ours. */
  lemma SubscriptionsComeBack(y: Net, k: nat)
    requires y.client.ws == Some(k) && k in y.conns && y.conns[k].device == y.me && y.client.subscribed != {}
    ensures var f := SubscribeFrame(y.client.subscribed); var z := After(y, Opened);
            && Enabled(z, SubscribeArrives(k, f))
            && forall mb :: mb in y.client.subscribed && y.Owns(y.me, mb) ==> mb in After(z, SubscribeArrives(k, f)).conns[k].mailboxes
  {
    hide PendingFrames, Kept;
    assert SubscribeFrame(y.client.subscribed) in After(y, Opened).conns[k].up;
  }

  // ----- what a connection takes on -----

  /** An envelope pushed to a connection that listens on its mailbox is in the buffer, behind all that was there, or the
      connection is to be closed; it is never dropped in silence. */
  lemma PushReachesOrCloses(y: Net, e: Envelope, k: nat)
    requires Enabled(y, Push(e)) && k in y.conns && e.mailbox in y.conns[k].mailboxes && |y.conns[k].send| <= SEND_BUFFER
    ensures var before, after := y.conns[k], After(y, Push(e)).conns[k];
            if |before.send| == SEND_BUFFER then after.closing && after.send == before.send
            else after.send == before.send + [e] && after.closing == before.closing
  {
  }

  /** What a connection has in its buffer or on the wire stays there as long as it lives, in order, and a connection that
      is to be closed is not reprieved. */
  lemma TakenOnStays(y: Net, x: Step, k: nat, e: Envelope)
    requires Inv(y) && Enabled(y, x) && k in y.conns && k in After(y, x).conns
    ensures var before, after := y.conns[k], After(y, x).conns[k];
            && (e in before.send || e in before.down ==> e in after.send || e in after.down)
            && (before.closing ==> after.closing) && before.device == after.device && before.mailboxes <= after.mailboxes
  {
    hide AfterHandled, AfterOpened, AfterMessage, AfterSubscribe, Acked, Swept, Enqueued, QueueInv, AckInv, FateInv;
    if x.Write? && x.k == k {
      var c := y.conns[k];
      assert c.send == [c.send[0]] + c.send[1..];
    }
    if x.Drain? && x.k == k {
      assert ConnInv(y, y.conns[k]);
      DrainKeeps(y.conns[k], First(Get(y.mail.queue, x.mailbox), BACKLOG_LIMIT));
    }
  }

  lemma DrainKeeps(c: Conn, backlog: seq<Envelope>)
    requires |c.send| <= SEND_BUFFER
    ensures c.send <= Drained(c, backlog).send
  {
  }

  /** Only the connection that is current delivers to the client, and only while the client has not closed it; a stale
      one cannot. */
  lemma OnlyTheCurrentDelivers(y: Net, x: Step)
    requires Enabled(y, x) && After(y, x).client.inbox != y.client.inbox
    ensures || (x.Handle? && After(y, x).client.inbox == y.client.inbox[1..])
            || (x.Arrive? && y.client.ws == Some(x.k) && !y.client.closedByUs && After(y, x).client.inbox == y.client.inbox + [x.e])
  {
    hide Acked, Swept, Enqueued, Offered, Drained, Tracked, Untracked, Kept, PendingFrames;
  }

  /** Once the connection has closed, or we have closed it, the client sends nothing and takes nothing in until there is
      another one. */
  lemma ClosedIsSilent(y: Net, shut: bool, x: Step)
    requires var z := After(y, if shut then ClientShuts else ClientCloses); Enabled(z, x) && !(x.Connect? && x.device == z.me)
    ensures var z := After(y, if shut then ClientShuts else ClientCloses); var after := After(z, x).client;
            && (shut ==> z.client.closedByUs) && z.client.pending == y.client.pending && z.client.inbox == y.client.inbox
            && after.ws.None? && Emitted(z, x) == {}
            && (after.inbox == z.client.inbox || (x.Handle? && after.inbox == z.client.inbox[1..]))
  {
    hide Acked, Swept, Enqueued, Offered, Drained, Tracked, Untracked;
  }

  // ----- what a connection was asked for -----

  ghost predicate Asked(c: Conn, mailbox: string) {
    exists f :: f in c.up && f.SubscribeFrame? && mailbox in f.mailboxes
  }

  /** Over an open connection the client has asked for every mailbox that it subscribes to. */
  ghost predicate AskedInv(y: Net) {
    var c := y.client;
    c.ws.Some? && c.ready && c.ws.value in y.conns ==> forall mb :: mb in c.subscribed ==> Asked(y.conns[c.ws.value], mb)
  }

  /** What is emitted adds to what was asked for. */
  lemma EmitAsks(z: Net, out: Out)
    requires out.client.ws.Some? && out.client.ready && out.client.ws.value in z.conns ==>
               forall mb :: mb in out.client.subscribed ==>
                 Asked(z.conns[out.client.ws.value], mb) || exists f :: f in out.frames && f.SubscribeFrame? && mb in f.mailboxes
    ensures AskedInv(z.Emit(out))
  {
    var w, ws := z.Emit(out), out.client.ws;
    if out.client.ready && ws.Some? && ws.value in w.conns {
      forall mb | mb in out.client.subscribed
        ensures Asked(w.conns[ws.value], mb)
      {
        if Asked(z.conns[ws.value], mb) {
          var f :| f in z.conns[ws.value].up && f.SubscribeFrame? && mb in f.mailboxes;
          assert f in w.conns[ws.value].up;
        } else {
          var f :| f in out.frames && f.SubscribeFrame? && mb in f.mailboxes;
          assert f in w.conns[ws.value].up;
        }
      }
    }
  }

  lemma QuietAsks(y: Net, z: Net)
    requires AskedInv(y) && z.client.subscribed == y.client.subscribed
    requires z.client.ready ==> y.client.ready && z.client.ws == y.client.ws
    requires forall k :: k in z.conns && z.client.ready && z.client.ws == Some(k) ==> k in y.conns && z.conns[k].up == y.conns[k].up
    ensures AskedInv(z)
  {
    if z.client.ready && z.client.ws.Some? && z.client.ws.value in z.conns {
      var k := z.client.ws.value;
      forall mb | mb in z.client.subscribed
        ensures Asked(z.conns[k], mb)
      {
        assert Asked(y.conns[k], mb);
      }
    }
  }

  lemma HandledAsks(y: Net, e: Envelope)
    requires AskedInv(y) && y.client.inbox != []
    ensures AskedInv(y.(handled := y.handled + {e}).Emit(AfterHandled(y.client.(inbox := y.client.inbox[1..]), e)))
  {
    hide Tracked, Untracked, Net.Emit, Asked;
    EmitAsks(y.(handled := y.handled + {e}), AfterHandled(y.client.(inbox := y.client.inbox[1..]), e));
  }

  lemma OpenedAsks(y: Net)
    requires y.client.ws.Some?
    ensures AskedInv(y.Emit(AfterOpened(y.client)))
  {
    hide Net.Emit, Asked, AfterOpened;
    OpenedStays(y.client);
    forall mb | mb in y.client.subscribed
      ensures exists f :: f in AfterOpened(y.client).frames && f.SubscribeFrame? && mb in f.mailboxes
    {
      OpeningSubscribesAgain(y.client, mb);
    }
    OpenedSubscribed(y.client);
    EmitAsks(y, AfterOpened(y.client));
  }

  lemma OpenedSubscribed(c: Client)
    requires c.ws.Some?
    ensures AfterOpened(c).client.subscribed == c.subscribed
  {
  }

  lemma SubscribeAsks(y: Net, mailboxes: set<string>)
    requires AskedInv(y)
    ensures AskedInv(y.Emit(AfterSubscribe(y.client, mailboxes)))
  {
    hide Net.Emit, Asked;
    var out := AfterSubscribe(y.client, mailboxes);
    if y.client.ws.Some? && y.client.ready {
      assert SubscribeFrame(mailboxes) in out.frames;
    }
    EmitAsks(y, out);
  }

  /** In every run the client asks for all that it subscribes to: when a connection opens, and when it subscribes to more. */
  lemma StepKeepsAsked(y: Net, x: Step)
    requires Inv(y) && Enabled(y, x) && AskedInv(y)
    ensures AskedInv(After(y, x))
  {
    hide QueueInv, AckInv, FateInv, ConnInv, Asked, AskedInv, Net.Emit, AfterHandled, AfterOpened, AfterSubscribe, Acked, Swept, Enqueued, First, Get;
    match x {
      case Handle(succeeds) =>
        if succeeds {
          HandledAsks(y, y.client.inbox[0]);
        } else {
          QuietAsks(y, After(y, x));
        }
      case Opened => OpenedAsks(y);
      case Subscribe(mailboxes) => SubscribeAsks(y, mailboxes);
      case _ => QuietAsks(y, After(y, x));
    }
  }
}
