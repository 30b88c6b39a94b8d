/**
 Delivery of mail from the server's queue to one device, in hub.go, memory.go and socket.ts together. Connections
 may die at any point and several may live side by side; what travels on them may be lost, delayed or
 overtaken. Mail leaves the queue only when the device has handled it.
 */
module Delivery {
  import opened Bytes
  import opened Mail
  import opened Socket
  import opened Hub

  function Get(m: map<string, seq<Envelope>>, mailbox: string): seq<Envelope> {
    if mailbox in m then m[mailbox] else []
  }

  function IdsOf(m: map<string, set<string>>, mailbox: string): set<string> {
    if mailbox in m then m[mailbox] else {}
  }

  /** `log` is everything ever enqueued, `acked` the ids that acks destroyed, and `swept` those that outlived their
      time, all from before `horizon`. */
  datatype Mailroom = Mailroom(queue: map<string, seq<Envelope>>, log: map<string, seq<Envelope>>,
                               acked: map<string, set<string>>, swept: map<string, set<string>>, horizon: int)

  /** `handled` is what the client's handler accepted, and `lost` the acks that went down with a connection which the
      server dropped. `owner` names the device a mailbox was registered for. */
  datatype Net = Net(owner: map<string, string>, me: string, mail: Mailroom, conns: map<nat, Conn>, client: Client,
                     handled: set<Envelope>, lost: set<(string, string)>)
  {
    predicate Owns(device: string, mailbox: string) {
      mailbox in owner && owner[mailbox] == device
    }

    function Mailboxes(device: string): set<string> {
      set mb | mb in owner && owner[mb] == device
    }

    /** What the client sends on its current connection; it is lost if the server has dropped that one. */
    function Emit(out: Out): Net {
      var ws := out.client.ws;
      if ws.None? || ws.value !in conns then this.(client := out.client, lost := lost + AcksIn(out.frames))
      else this.(client := out.client, conns := conns[ws.value := conns[ws.value].(up := conns[ws.value].up + out.frames)])
    }

    function WithConn(k: nat, c: Conn): Net {
      this.(conns := conns[k := c])
    }
  }

  function Enqueued(m: Mailroom, e: Envelope): Mailroom {
    m.(queue := m.queue[e.mailbox := Get(m.queue, e.mailbox) + [e]], log := m.log[e.mailbox := Get(m.log, e.mailbox) + [e]])
  }

  function Acked(m: Mailroom, mailbox: string, ids: set<string>): Mailroom {
    var q := Get(m.queue, mailbox);
    m.(queue := m.queue[mailbox := Unacked(q, ids)], acked := m.acked[mailbox := IdsOf(m.acked, mailbox) + ids * Ids(q)])
  }

  function Swept(m: Mailroom, mailbox: string, cutoff: int): Mailroom {
    var q := Get(m.queue, mailbox);
    m.(queue := m.queue[mailbox := Unexpired(q, cutoff)],
       swept := m.swept[mailbox := IdsOf(m.swept, mailbox) + ExpiredIds(q, cutoff)],
       horizon := if cutoff > m.horizon then cutoff else m.horizon)
  }

  datatype Step =
    | Enqueue(e: Envelope)
    | Push(e: Envelope)                          // Deliver, to every live connection that listens
    | Connect(k: nat, device: string)
    | Drain(k: nat, mailbox: string)
    | Write(k: nat)                              // one turn of the write loop
    | Arrive(k: nat, e: Envelope)
    | Handle(succeeds: bool)
    | Opened
    | Subscribe(mailboxes: set<string>)
    | AckArrives(k: nat, f: ClientFrame)
    | SubscribeArrives(k: nat, f: ClientFrame)
    | Unregister(k: nat)
    | Sweep(mailbox: string, cutoff: int)
    | ClientCloses
    | ClientShuts
    | Foreign(k: nat, f: ClientFrame)            // another device sends whatever it likes

  predicate Enabled(y: Net, x: Step) {
    match x
    case Enqueue(e) => forall o :: o in Get(y.mail.log, e.mailbox) ==> o.id != e.id
    case Push(e) => e in Get(y.mail.log, e.mailbox)
    case Connect(k, device) => k !in y.conns && y.client.ws != Some(k)
    case Drain(k, mailbox) => k in y.conns && mailbox in y.conns[k].mailboxes && |y.conns[k].send| <= SEND_BUFFER
    case Write(k) => k in y.conns && y.conns[k].send != []
    case Arrive(k, e) => k in y.conns && e in y.conns[k].down && y.conns[k].device == y.me
    case Handle(_) => y.client.inbox != []
    case Opened => y.client.ws.Some?
    case Subscribe(_) => true
    case AckArrives(k, f) => k in y.conns && f in y.conns[k].up && f.AckFrame?
    case SubscribeArrives(k, f) => k in y.conns && f in y.conns[k].up && f.SubscribeFrame?
    case Unregister(k) => true
    case Sweep(_, _) => true
    case ClientCloses => true
    case ClientShuts => true
    case Foreign(k, f) => k in y.conns && y.conns[k].device != y.me
  }

  function After(y: Net, x: Step): Net
    requires Enabled(y, x)
  {
    match x
    case Enqueue(e) => y.(mail := Enqueued(y.mail, e))
    case Push(e) =>
      y.(conns := map k | k in y.conns :: if e.mailbox in y.conns[k].mailboxes then Offered(y.conns[k], e) else y.conns[k])
    case Connect(k, device) =>
      y.WithConn(k, Conn(device, false, y.Mailboxes(device), [], {}, {}))
       .(client := if device == y.me then y.client.(ws := Some(k), ready := false, closedByUs := false) else y.client)
    case Drain(k, mailbox) => y.WithConn(k, Drained(y.conns[k], First(Get(y.mail.queue, mailbox), BACKLOG_LIMIT)))
    case Write(k) =>
      var c := y.conns[k];
      y.WithConn(k, c.(send := c.send[1..], down := c.down + {c.send[0]}))
    case Arrive(k, e) => y.(client := AfterMessage(y.client, k, e))
    case Handle(succeeds) =>
      var e, rest := y.client.inbox[0], y.client.(inbox := y.client.inbox[1..]);
      if succeeds then y.(handled := y.handled + {e}).Emit(AfterHandled(rest, e)) else y.(client := rest)
    case Opened => y.Emit(AfterOpened(y.client))
    case Subscribe(mailboxes) => y.Emit(AfterSubscribe(y.client, mailboxes))
    case AckArrives(k, f) =>
      if f.ids == {} || f.mailbox !in y.conns[k].mailboxes then y
      else y.(mail := Acked(y.mail, f.mailbox, f.ids))
    case SubscribeArrives(k, f) =>
      var c := y.conns[k];
      y.WithConn(k, c.(mailboxes := c.mailboxes + (f.mailboxes * y.Mailboxes(c.device))))
    case Unregister(k) =>
      y.(conns := y.conns - {k},
         lost := y.lost + if k in y.conns && y.conns[k].device == y.me then AcksIn(y.conns[k].up) else {})
    case Sweep(mailbox, cutoff) => y.(mail := Swept(y.mail, mailbox, cutoff))
    case ClientCloses => y.(client := AfterClosed(y.client))
    case ClientShuts => y.(client := AfterShut(y.client))
    case Foreign(k, f) => y.WithConn(k, y.conns[k].(up := y.conns[k].up + {f}))
  }

  // ----- the invariant -----

  function Gone(m: Mailroom, mailbox: string): set<string> {
    IdsOf(m.acked, mailbox) + IdsOf(m.swept, mailbox)
  }

  /** Ids do not repeat. */
  ghost predicate LogInv(log: map<string, seq<Envelope>>) {
    && (forall mb, e :: e in Get(log, mb) ==> e.mailbox == mb)
    && (forall mb, a, b :: a in Get(log, mb) && b in Get(log, mb) && a.id == b.id ==> a == b)
  }

  /** The queue is everything ever enqueued, in order, less what was acked or swept. */
  ghost predicate QueueInv(m: Mailroom) {
    && LogInv(m.log)
    && (forall mb :: Get(m.queue, mb) == Unacked(Get(m.log, mb), Gone(m, mb)))
    && (forall mb :: Gone(m, mb) <= Ids(Get(m.log, mb)))
    && (forall mb, e :: e in Get(m.log, mb) && e.id in IdsOf(m.swept, mb) ==> e.serverTs < m.horizon)
  }

  ghost predicate HandledId(y: Net, mailbox: string, id: string) {
    exists e :: e in y.handled && e.mailbox == mailbox && e.id == id
  }

  ghost predicate AckedHandled(y: Net) {
    forall mb, id :: y.Owns(y.me, mb) && id in IdsOf(y.mail.acked, mb) ==> HandledId(y, mb, id)
  }

  ghost predicate PendingHandled(y: Net) {
    forall mb, id :: Pends(y.client.pending, mb, id) ==> HandledId(y, mb, id)
  }

  ghost predicate FrameHandled(y: Net, f: ClientFrame) {
    f.AckFrame? ==> forall id :: id in f.ids ==> HandledId(y, f.mailbox, id)
  }

  ghost predicate UpHandled(y: Net) {
    forall k, f :: k in y.conns && y.conns[k].device == y.me && f in y.conns[k].up ==> FrameHandled(y, f)
  }

  /** Mail that was destroyed, acks that are pending, and acks on their way: the client handled each envelope. */
  ghost predicate AckInv(y: Net) {
    AckedHandled(y) && PendingHandled(y) && UpHandled(y)
  }

  /** The ack is on its way on a connection of ours. */
  ghost predicate Travels(y: Net, mailbox: string, id: string) {
    exists k :: k in y.conns && y.conns[k].device == y.me && (mailbox, id) in AcksIn(y.conns[k].up)
  }

  /** Where the ack of a handled envelope may be. */
  ghost predicate Traced(y: Net, mailbox: string, id: string) {
    Pends(y.client.pending, mailbox, id) || Travels(y, mailbox, id) || (mailbox, id) in y.lost
  }

  /** No ack is forgotten: it is pending, or on its way, or went down with its connection. */
  ghost predicate FateInv(y: Net) {
    forall e :: e in y.handled ==> Traced(y, e.mailbox, e.id)
  }

  ghost predicate ConnInv(y: Net, c: Conn) {
    && c.mailboxes <= y.Mailboxes(c.device) && |c.send| <= SEND_BUFFER
    && (forall e :: e in c.send ==> e in Get(y.mail.log, e.mailbox))
    && (forall e :: e in c.down ==> e in Get(y.mail.log, e.mailbox))
  }

  /** Only enqueued envelopes are on their way, and connections serve only what their device owns. */
  ghost predicate WireInv(y: Net) {
    && (forall k :: k in y.conns ==> ConnInv(y, y.conns[k]))
    && (forall e :: e in y.client.inbox ==> e in Get(y.mail.log, e.mailbox))
    && (forall e :: e in y.handled ==> e in Get(y.mail.log, e.mailbox))
    && (y.client.ws.Some? && y.client.ws.value in y.conns ==> y.conns[y.client.ws.value].device == y.me)
  }

  ghost predicate Inv(y: Net) {
    QueueInv(y.mail) && AckInv(y) && FateInv(y) && WireInv(y)
  }

  /** Every envelope ever sent to one of our mailboxes is still queued, or was handled, or has outlived its time. */
  lemma Conservation(y: Net, e: Envelope)
    requires Inv(y) && y.Owns(y.me, e.mailbox) && e in Get(y.mail.log, e.mailbox) && e.serverTs >= y.mail.horizon
    ensures e in Get(y.mail.queue, e.mailbox) || e in y.handled
  {
    UnackedMembers(Get(y.mail.log, e.mailbox), Gone(y.mail, e.mailbox));
    if e !in Get(y.mail.queue, e.mailbox) {
      var h :| h in y.handled && h.mailbox == e.mailbox && h.id == e.id;
      assert h in Get(y.mail.log, e.mailbox);
    }
  }

  // ----- every step keeps it -----

  lemma EnqueueKeepsQueue(m: Mailroom, e: Envelope)
    requires QueueInv(m) && forall o :: o in Get(m.log, e.mailbox) ==> o.id != e.id
    ensures QueueInv(Enqueued(m, e))
  {
    hide Unacked, Get, Gone, LogInv;
    var log := Get(m.log, e.mailbox);
    LogGrows(m.log, e);
    GetUpdated(m.queue, e.mailbox, Get(m.queue, e.mailbox) + [e]);
    GetUpdated(m.log, e.mailbox, log + [e]);
    UnackedAppend(log, e, Gone(m, e.mailbox));
    SameGone(m, Enqueued(m, e));
    SweptIsGone(m);
    assert e.id !in Ids(log);
    IdsAppend(log, e);
  }

  lemma LogGrows(log: map<string, seq<Envelope>>, e: Envelope)
    requires LogInv(log) && forall o :: o in Get(log, e.mailbox) ==> o.id != e.id
    ensures LogInv(log[e.mailbox := Get(log, e.mailbox) + [e]])
  {
    hide Get;
    var more := log[e.mailbox := Get(log, e.mailbox) + [e]];
    GetUpdated(log, e.mailbox, Get(log, e.mailbox) + [e]);
    forall mb, o | o in Get(more, mb)
      ensures o in Get(log, mb) || (mb == e.mailbox && o == e)
    {
    }
  }

  lemma SameGone(m: Mailroom, z: Mailroom)
    requires z.acked == m.acked && z.swept == m.swept
    ensures forall mb :: Gone(z, mb) == Gone(m, mb)
  {
  }

  lemma IdsAppend(q: seq<Envelope>, e: Envelope)
    ensures Ids(q + [e]) == Ids(q) + {e.id}
  {
  }

  lemma SweptIsGone(m: Mailroom)
    ensures forall mb :: IdsOf(m.swept, mb) <= Gone(m, mb)
  {
  }

  /** Some of what is queued in one mailbox is destroyed. */
  lemma DestroyKeepsQueue(m: Mailroom, z: Mailroom, mailbox: string, ids: set<string>)
    requires QueueInv(m) && z.log == m.log && ids <= Ids(Get(m.queue, mailbox))
    requires z.queue == m.queue[mailbox := Unacked(Get(m.queue, mailbox), ids)]
    requires Gone(z, mailbox) == Gone(m, mailbox) + ids && forall mb :: mb != mailbox ==> Gone(z, mb) == Gone(m, mb)
    requires forall mb, e :: e in Get(z.log, mb) && e.id in IdsOf(z.swept, mb) ==> e.serverTs < z.horizon
    ensures QueueInv(z)
  {
    hide Unacked, Gone, Get, LogInv;
    UnackedTwice(Get(m.log, mailbox), Gone(m, mailbox), ids);
    UnackedMembers(Get(m.log, mailbox), Gone(m, mailbox));
    assert Ids(Get(m.queue, mailbox)) <= Ids(Get(m.log, mailbox));
    GetUpdated(m.queue, mailbox, Unacked(Get(m.queue, mailbox), ids));
  }

  lemma GetUpdated(m: map<string, seq<Envelope>>, mailbox: string, q: seq<Envelope>)
    ensures forall mb :: Get(m[mailbox := q], mb) == if mb == mailbox then q else Get(m, mb)
  {
    forall mb
      ensures Get(m[mailbox := q], mb) == if mb == mailbox then q else Get(m, mb)
    {
    }
  }

  lemma AckKeepsQueue(m: Mailroom, mailbox: string, ids: set<string>)
    requires QueueInv(m)
    ensures QueueInv(Acked(m, mailbox, ids))
  {
    hide Unacked, Get, LogInv;
    var z, q := Acked(m, mailbox, ids), Get(m.queue, mailbox);
    UnackedPresent(q, ids, Ids(q));
    assert Gone(z, mailbox) == Gone(m, mailbox) + ids * Ids(q);
    DestroyKeepsQueue(m, z, mailbox, ids * Ids(q));
  }

  lemma SweepKeepsQueue(m: Mailroom, mailbox: string, cutoff: int)
    requires QueueInv(m)
    ensures QueueInv(Swept(m, mailbox, cutoff))
  {
    hide Unacked, Unexpired, Get;
    var z, q := Swept(m, mailbox, cutoff), Get(m.queue, mailbox);
    QueueIsLogged(m, mailbox);
    SweepIsAck(q, cutoff);
    assert Gone(z, mailbox) == Gone(m, mailbox) + ExpiredIds(q, cutoff);
    forall mb, e | e in Get(z.log, mb) && e.id in IdsOf(z.swept, mb)
      ensures e.serverTs < z.horizon
    {
      if mb == mailbox && e.id !in IdsOf(m.swept, mb) {
        var x :| x in q && x.serverTs < cutoff && x.id == e.id;
      }
    }
    DestroyKeepsQueue(m, z, mailbox, ExpiredIds(q, cutoff));
  }

  lemma QueueIsLogged(m: Mailroom, mailbox: string)
    requires QueueInv(m)
    ensures forall e :: e in Get(m.queue, mailbox) ==> e in Get(m.log, mailbox)
    ensures forall a, b :: a in Get(m.queue, mailbox) && b in Get(m.queue, mailbox) && a.id == b.id ==> a == b
  {
    hide Unacked;
    UnackedMembers(Get(m.log, mailbox), Gone(m, mailbox));
  }

  /** Growing the log and the handled set, and nothing else, keeps what is known about the rest. */
  ghost predicate Extends(z: Net, y: Net) {
    && z.owner == y.owner && z.me == y.me && y.handled <= z.handled
    && forall e: Envelope :: e in Get(y.mail.log, e.mailbox) ==> e in Get(z.mail.log, e.mailbox)
  }

  lemma StepExtends(y: Net, x: Step)
    requires Enabled(y, x)
    ensures Extends(After(y, x), y)
  {
    hide Get, Acked, Swept, Enqueued, Offered, Drained, AfterMessage, AfterHandled, AfterOpened, AfterSubscribe, AfterClosed,
      AfterShut, Extends;
    LogsAfter(y.mail);
    LogExtends(After(y, x), y, if x.Enqueue? then Some(x.e) else None);
  }

  lemma LogExtends(z: Net, y: Net, added: Option<Envelope>)
    requires z.owner == y.owner && z.me == y.me && y.handled <= z.handled
    requires z.mail.log == if added.Some? then Enqueued(y.mail, added.value).log else y.mail.log
    ensures Extends(z, y)
  {
  }

  lemma LogsAfter(m: Mailroom)
    ensures forall mailbox, ids :: Acked(m, mailbox, ids).log == m.log
    ensures forall mailbox, cutoff :: Swept(m, mailbox, cutoff).log == m.log
  {
  }

  lemma StepKeepsQueue(y: Net, x: Step)
    requires Inv(y) && Enabled(y, x)
    ensures QueueInv(After(y, x).mail)
  {
    hide AckInv, WireInv, QueueInv, Enqueued, Acked, Swept, Offered, Drained, AfterMessage, AfterHandled, AfterOpened,
      AfterSubscribe, AfterClosed, AfterShut;
    match x {
      case Enqueue(e) => EnqueueKeepsQueue(y.mail, e);
      case AckArrives(k, f) => AckKeepsQueue(y.mail, f.mailbox, f.ids);
      case Sweep(mailbox, cutoff) => SweepKeepsQueue(y.mail, mailbox, cutoff);
      case _ =>
    }
  }

  lemma HandledStays(z: Net, y: Net, mailbox: string, id: string)
    requires y.handled <= z.handled && HandledId(y, mailbox, id)
    ensures HandledId(z, mailbox, id)
  {
    var e :| e in y.handled && e.mailbox == mailbox && e.id == id;
    assert e in z.handled;
  }

  /** What a client sends is handled if what it had pending was, and the envelope just finished. */
  lemma EmitKeepsAcks(z: Net, out: Out)
    requires AckedHandled(z) && UpHandled(z)
    requires forall mb, id :: Pends(out.client.pending, mb, id) ==> HandledId(z, mb, id)
    requires forall f :: f in out.frames ==> FrameHandled(z, f)
    ensures AckInv(z.Emit(out))
  {
    hide HandledId, FrameHandled;
    var w := z.Emit(out);
    forall mb, id | HandledId(z, mb, id)
      ensures HandledId(w, mb, id)
    {
      HandledStays(w, z, mb, id);
    }
    forall f | FrameHandled(z, f)
      ensures FrameHandled(w, f)
    {
      FrameStays(w, z, f);
    }
  }

  lemma FrameStays(z: Net, y: Net, f: ClientFrame)
    requires y.handled <= z.handled && FrameHandled(y, f)
    ensures FrameHandled(z, f)
  {
    hide HandledId;
    if f.AckFrame? {
      forall id | id in f.ids
        ensures HandledId(z, f.mailbox, id)
      {
        HandledStays(z, y, f.mailbox, id);
      }
    }
  }

  lemma HandleKeepsAcks(y: Net, succeeds: bool)
    requires Inv(y) && Enabled(y, Handle(succeeds))
    ensures AckInv(After(y, Handle(succeeds)))
  {
    hide QueueInv, WireInv, Untracked, Tracked, HandledId, FrameHandled, Net.Emit;
    var e, rest := y.client.inbox[0], y.client.(inbox := y.client.inbox[1..]);
    if succeeds {
      var z := y.(handled := y.handled + {e});
      assert HandledId(z, e.mailbox, e.id) by {
        JustHandled(z, e);
      }
      GrowthKeepsAcks(z, y);
      FrameOfOne(z, e.mailbox, e.id);
      EmitKeepsAcks(z, AfterHandled(rest, e));
    } else {
      GrowthKeepsAcks(y.(client := rest), y);
    }
  }

  lemma FrameOfOne(z: Net, mailbox: string, id: string)
    requires HandledId(z, mailbox, id)
    ensures FrameHandled(z, AckFrame(mailbox, {id}))
  {
    hide HandledId;
  }

  lemma JustHandled(z: Net, e: Envelope)
    requires e in z.handled
    ensures HandledId(z, e.mailbox, e.id)
  {
  }

  /** A step that sends nothing and acknowledges nothing. */
  lemma GrowthKeepsAcks(z: Net, y: Net)
    requires AckInv(y) && z.owner == y.owner && z.me == y.me && y.handled <= z.handled
    requires z.mail.acked == y.mail.acked && z.client.pending == y.client.pending
    requires forall k :: k in z.conns && z.conns[k].device == y.me ==>
               z.conns[k].up == {} || (k in y.conns && y.conns[k].device == y.me && z.conns[k].up == y.conns[k].up)
    ensures AckInv(z)
  {
    hide HandledId, FrameHandled;
    forall mb, id | HandledId(y, mb, id)
      ensures HandledId(z, mb, id)
    {
      HandledStays(z, y, mb, id);
    }
    forall f | FrameHandled(y, f)
      ensures FrameHandled(z, f)
    {
      FrameStays(z, y, f);
    }
  }

  lemma OpenedKeepsAcks(y: Net)
    requires Inv(y) && Enabled(y, Opened)
    ensures AckInv(After(y, Opened))
  {
    hide QueueInv, WireInv, HandledId, Net.Emit;
    var out := AfterOpened(y.client);
    forall f | f in out.frames
      ensures FrameHandled(y, f)
    {
      if f.AckFrame? {
        assert f.mailbox in y.client.pending && f.ids == y.client.pending[f.mailbox];
        forall id | id in f.ids
          ensures HandledId(y, f.mailbox, id)
        {
          assert Pends(y.client.pending, f.mailbox, id);
        }
      }
    }
    EmitKeepsAcks(y, out);
  }

  lemma SubscribeKeepsAcks(y: Net, mailboxes: set<string>)
    requires Inv(y)
    ensures AckInv(After(y, Subscribe(mailboxes)))
  {
    hide QueueInv, WireInv, HandledId, Net.Emit;
    EmitKeepsAcks(y, AfterSubscribe(y.client, mailboxes));
  }

  /** Only an ack on a connection of the mailbox's own device destroys mail, and that device is us. */
  lemma AckArrivesKeepsAcks(y: Net, k: nat, f: ClientFrame)
    requires Inv(y) && Enabled(y, AckArrives(k, f))
    ensures AckInv(After(y, AckArrives(k, f)))
  {
    hide QueueInv, HandledId, Unacked;
    var z := After(y, AckArrives(k, f));
    forall mb, id | HandledId(y, mb, id)
      ensures HandledId(z, mb, id)
    {
      HandledStays(z, y, mb, id);
    }
    if f.ids != {} && f.mailbox in y.conns[k].mailboxes && y.Owns(y.me, f.mailbox) {
      assert ConnInv(y, y.conns[k]);
      assert y.conns[k].device == y.me;
      assert FrameHandled(y, f);
    }
    AckArrivesFrames(y, z);
  }

  lemma AckArrivesFrames(y: Net, z: Net)
    requires UpHandled(y) && z.conns == y.conns && z.me == y.me && y.handled <= z.handled
    ensures UpHandled(z)
  {
    hide FrameHandled;
    forall f | FrameHandled(y, f)
      ensures FrameHandled(z, f)
    {
      FrameStays(z, y, f);
    }
  }

  lemma StepKeepsAcks(y: Net, x: Step)
    requires Inv(y) && Enabled(y, x)
    ensures AckInv(After(y, x))
  {
    hide QueueInv, WireInv, AckInv, Unacked, First, AfterHandled, AfterOpened, Net.Emit;
    match x {
      case Handle(succeeds) => HandleKeepsAcks(y, succeeds);
      case Opened => OpenedKeepsAcks(y);
      case Subscribe(mailboxes) => SubscribeKeepsAcks(y, mailboxes);
      case AckArrives(k, f) => AckArrivesKeepsAcks(y, k, f);
      case _ => GrowthKeepsAcks(After(y, x), y);
    }
  }

  // ----- where acks are -----

  lemma EmitTraces(z: Net, out: Out, mailbox: string, id: string)
    requires out.client.ws.Some? && out.client.ws.value in z.conns ==> z.conns[out.client.ws.value].device == z.me
    ensures Pends(out.client.pending, mailbox, id) || (mailbox, id) in AcksIn(out.frames) ==> Traced(z.Emit(out), mailbox, id)
    ensures Travels(z, mailbox, id) || (mailbox, id) in z.lost ==> Traced(z.Emit(out), mailbox, id)
  {
    var w, ws := z.Emit(out), out.client.ws;
    if (mailbox, id) in AcksIn(out.frames) && ws.Some? && ws.value in z.conns {
      assert (mailbox, id) in AcksIn(w.conns[ws.value].up);
    }
    if Travels(z, mailbox, id) {
      var k :| k in z.conns && z.conns[k].device == z.me && (mailbox, id) in AcksIn(z.conns[k].up);
      assert (mailbox, id) in AcksIn(w.conns[k].up);
    }
  }

  /** What the client sends in one step. */
  function Emitted(y: Net, x: Step): set<ClientFrame>
    requires Enabled(y, x)
  {
    match x
    case Handle(succeeds) =>
      if succeeds then AfterHandled(y.client.(inbox := y.client.inbox[1..]), y.client.inbox[0]).frames else {}
    case Opened => AfterOpened(y.client).frames
    case Subscribe(mailboxes) => AfterSubscribe(y.client, mailboxes).frames
    case _ => {}
  }

  /** A pending ack stays pending until a frame carries it. */
  lemma PendingUntilSent(y: Net, x: Step, mailbox: string, id: string)
    requires Enabled(y, x) && Pends(y.client.pending, mailbox, id)
    ensures Pends(After(y, x).client.pending, mailbox, id) || (mailbox, id) in AcksIn(Emitted(y, x))
  {
    hide Tracked, Untracked, Acked, Swept, Enqueued, Drained, Offered, AfterHandled, AfterOpened;
    match x {
      case Handle(succeeds) =>
        AckSentOrKept(y.client.(inbox := y.client.inbox[1..]), y.client.inbox[0]);
      case Opened => OpeningTraces(y.client, mailbox, id);
      case _ =>
    }
  }

  lemma OpeningTraces(c: Client, mailbox: string, id: string)
    requires c.ws.Some? && Pends(c.pending, mailbox, id)
    ensures (mailbox, id) in AcksIn(AfterOpened(c).frames)
  {
    hide Kept;
    assert AckFrame(mailbox, c.pending[mailbox]) in AfterOpened(c).frames;
  }

  /** A step that leaves the client's acks alone. */
  lemma QuietTraces(y: Net, z: Net, mailbox: string, id: string)
    requires Traced(y, mailbox, id) && z.me == y.me && z.client.pending == y.client.pending && y.lost <= z.lost
    requires forall k :: k in y.conns && y.conns[k].device == y.me ==>
               if k in z.conns then z.conns[k].device == y.me && z.conns[k].up == y.conns[k].up
               else AcksIn(y.conns[k].up) <= z.lost
    ensures Traced(z, mailbox, id)
  {
    hide AcksIn;
  }

  lemma StepTraces(y: Net, x: Step, mailbox: string, id: string)
    requires Inv(y) && Enabled(y, x) && Traced(y, mailbox, id)
    ensures Traced(After(y, x), mailbox, id)
  {
    hide QueueInv, AckInv, FateInv, Traced, Travels, ConnInv, AfterHandled, AfterOpened, AcksIn, Net.Emit, Pends;
    TracedCases(y, mailbox, id);
    match x {
      case Handle(succeeds) =>
        var e, rest := y.client.inbox[0], y.client.(inbox := y.client.inbox[1..]);
        if succeeds {
          AckSentOrKept(rest, e);
          EmitStays(rest, e);
          EmitTraces(y.(handled := y.handled + {e}), AfterHandled(rest, e), mailbox, id);
        } else {
          QuietTraces(y, y.(client := rest), mailbox, id);
        }
      case Opened =>
        OpenedStays(y.client);
        if Pends(y.client.pending, mailbox, id) {
          OpeningTraces(y.client, mailbox, id);
        }
        EmitTraces(y, AfterOpened(y.client), mailbox, id);
      case Subscribe(mailboxes) => EmitTraces(y, AfterSubscribe(y.client, mailboxes), mailbox, id);
      case _ => QuietTraces(y, After(y, x), mailbox, id);
    }
  }

  lemma TracedCases(y: Net, mailbox: string, id: string)
    requires Traced(y, mailbox, id)
    ensures Pends(y.client.pending, mailbox, id) || Travels(y, mailbox, id) || (mailbox, id) in y.lost
    ensures forall z: Net :: z.me == y.me && z.conns == y.conns && Travels(y, mailbox, id) ==> Travels(z, mailbox, id)
  {
  }

  lemma EmitStays(c: Client, e: Envelope)
    ensures AfterHandled(c, e).client.ws == c.ws
  {
  }

  lemma OpenedStays(c: Client)
    requires c.ws.Some?
    ensures AfterOpened(c).client.ws == c.ws
  {
  }

  lemma StepKeepsFate(y: Net, x: Step)
    requires Inv(y) && Enabled(y, x)
    ensures FateInv(After(y, x))
  {
    hide Inv, Traced;
    var z := After(y, x);
    forall e | e in z.handled
      ensures Traced(z, e.mailbox, e.id)
    {
      if e in y.handled {
        WasTraced(y, e);
        StepTraces(y, x, e.mailbox, e.id);
      } else {
        HandledTraces(y, x, e);
      }
    }
  }

  lemma WasTraced(y: Net, e: Envelope)
    requires Inv(y) && e in y.handled
    ensures Traced(y, e.mailbox, e.id)
  {
  }

  /** The envelope handled in this step. */
  lemma HandledTraces(y: Net, x: Step, e: Envelope)
    requires Inv(y) && Enabled(y, x) && e in After(y, x).handled && e !in y.handled
    ensures Traced(After(y, x), e.mailbox, e.id)
  {
    hide QueueInv, AckInv, FateInv, Traced, ConnInv, AfterHandled, AcksIn, Net.Emit, Pends;
    OnlyHandling(y, x);
    var rest := y.client.(inbox := y.client.inbox[1..]);
    AckSentOrKept(rest, e);
    EmitStays(rest, e);
    EmitTraces(y.(handled := y.handled + {e}), AfterHandled(rest, e), e.mailbox, e.id);
  }

  lemma OnlyHandling(y: Net, x: Step)
    requires Enabled(y, x) && !(After(y, x).handled <= y.handled)
    ensures x == Handle(true) && After(y, x).handled == y.handled + {y.client.inbox[0]}
  {
    hide AfterHandled, AfterOpened, Acked, Swept, Enqueued, Drained, Offered;
  }

  // ----- the wires -----

  lemma ConnStays(z: Net, y: Net, c: Conn)
    requires Extends(z, y) && ConnInv(y, c)
    ensures ConnInv(z, c)
  {
    hide Get;
    assert z.Mailboxes(c.device) == y.Mailboxes(c.device);
  }

  /** One connection changes, or is new. */
  lemma OneConnKeepsWires(z: Net, y: Net, k: nat)
    requires WireInv(y) && Extends(z, y) && k in z.conns && ConnInv(z, z.conns[k])
    requires forall i :: i in z.conns && i != k ==> i in y.conns && z.conns[i] == y.conns[i]
    requires k in y.conns ==> z.conns[k].device == y.conns[k].device
    requires z.client == y.client && z.handled == y.handled
    requires y.client.ws == Some(k) ==> k in y.conns
    ensures WireInv(z)
  {
    hide ConnInv, Get;
    forall i | i in z.conns && i != k
      ensures ConnInv(z, z.conns[i])
    {
      ConnStays(z, y, y.conns[i]);
    }
  }

  lemma PrefixMembers<T>(s: seq<T>, n: nat)
    ensures forall x :: x in First(s, n) ==> x in s
    ensures |First(s, n)| <= n
  {
  }

  lemma DrainKeepsConn(y: Net, k: nat, mailbox: string)
    requires Inv(y) && Enabled(y, Drain(k, mailbox))
    ensures ConnInv(y, After(y, Drain(k, mailbox)).conns[k])
  {
    hide Get, Unacked, AckInv;
    var c, q := y.conns[k], Get(y.mail.queue, mailbox);
    UnackedMembers(Get(y.mail.log, mailbox), Gone(y.mail, mailbox));
    PrefixMembers(q, BACKLOG_LIMIT);
    PrefixMembers(c.send + First(q, BACKLOG_LIMIT), SEND_BUFFER);
  }

  lemma OfferKeepsConn(y: Net, c: Conn, e: Envelope)
    requires ConnInv(y, c) && e in Get(y.mail.log, e.mailbox)
    ensures ConnInv(y, Offered(c, e))
  {
  }

  lemma PushKeepsWires(y: Net, e: Envelope)
    requires Inv(y) && Enabled(y, Push(e))
    ensures WireInv(After(y, Push(e)))
  {
    hide ConnInv, QueueInv, AckInv, Offered, Get;
    var z := After(y, Push(e));
    forall k | k in z.conns
      ensures ConnInv(z, z.conns[k]) && z.conns[k].device == y.conns[k].device
    {
      OfferKeepsConn(y, y.conns[k], e);
      OfferDevice(y.conns[k], e);
      ConnStays(z, y, z.conns[k]);
    }
  }

  lemma OfferDevice(c: Conn, e: Envelope)
    ensures Offered(c, e).device == c.device
  {
  }

  /** Only the client moves. */
  lemma ClientKeepsWires(z: Net, y: Net)
    requires WireInv(y) && Extends(z, y)
    requires forall k :: k in z.conns ==> k in y.conns && z.conns[k].(up := {}) == y.conns[k].(up := {})
    requires forall e :: e in z.client.inbox ==> e in Get(y.mail.log, e.mailbox)
    requires forall e :: e in z.handled ==> e in Get(y.mail.log, e.mailbox)
    requires z.client.ws == y.client.ws || z.client.ws.None?
    ensures WireInv(z)
  {
    hide Get;
    forall k | k in z.conns
      ensures ConnInv(z, z.conns[k])
    {
      ConnStays(z, y, y.conns[k]);
    }
  }

  lemma ConnectKeepsWires(y: Net, k: nat, device: string)
    requires Inv(y) && Enabled(y, Connect(k, device))
    ensures WireInv(After(y, Connect(k, device)))
  {
    hide Get, QueueInv, AckInv;
    var z := After(y, Connect(k, device));
    forall i | i in z.conns && i != k
      ensures ConnInv(z, z.conns[i])
    {
      ConnStays(z, y, y.conns[i]);
    }
  }

  lemma EnqueueKeepsWires(y: Net, e: Envelope)
    requires Inv(y) && Enabled(y, Enqueue(e))
    ensures WireInv(After(y, Enqueue(e)))
  {
    hide Get, QueueInv, AckInv;
    StepExtends(y, Enqueue(e));
    var z := After(y, Enqueue(e));
    forall k | k in z.conns
      ensures ConnInv(z, z.conns[k])
    {
      ConnStays(z, y, y.conns[k]);
    }
  }

  lemma StepKeepsWires(y: Net, x: Step)
    requires Inv(y) && Enabled(y, x)
    ensures WireInv(After(y, x))
  {
    hide QueueInv, AckInv, Unacked, First, AfterHandled, AfterOpened, Get, ConnInv;
    StepExtends(y, x);
    var z := After(y, x);
    match x {
      case Enqueue(e) => EnqueueKeepsWires(y, e);
      case Push(e) => PushKeepsWires(y, e);
      case Connect(k, device) => ConnectKeepsWires(y, k, device);
      case Drain(k, mailbox) =>
        DrainKeepsConn(y, k, mailbox);
        ConnStays(z, y, z.conns[k]);
        OneConnKeepsWires(z, y, k);
      case Write(k) =>
        ShiftedConn(y, z, k, x);
        OneConnKeepsWires(z, y, k);
      case SubscribeArrives(k, f) =>
        ShiftedConn(y, z, k, x);
        OneConnKeepsWires(z, y, k);
      case Foreign(k, f) =>
        ShiftedConn(y, z, k, x);
        OneConnKeepsWires(z, y, k);
      case Arrive(k, e) => ArriveKeepsWires(y, k, e);
      case Handle(succeeds) => HandleKeepsWires(y, succeeds);
      case _ => ClientSteps(y, x);
    }
  }

  lemma ShiftedConn(y: Net, z: Net, k: nat, x: Step)
    requires Inv(y) && Enabled(y, x) && z == After(y, x)
    requires x == Write(k) || (x.SubscribeArrives? && x.k == k) || (x.Foreign? && x.k == k)
    ensures k in z.conns && ConnInv(z, z.conns[k])
  {
    hide Get, QueueInv, AckInv;
    assert ConnInv(y, y.conns[k]);
  }

  lemma ArriveKeepsWires(y: Net, k: nat, e: Envelope)
    requires Inv(y) && Enabled(y, Arrive(k, e))
    ensures WireInv(After(y, Arrive(k, e)))
  {
    hide QueueInv, AckInv, Get;
    assert ConnInv(y, y.conns[k]);
    ClientKeepsWires(y.(client := AfterMessage(y.client, k, e)), y);
  }

  lemma HandleKeepsWires(y: Net, succeeds: bool)
    requires Inv(y) && Enabled(y, Handle(succeeds))
    ensures WireInv(After(y, Handle(succeeds)))
  {
    hide QueueInv, AckInv, Get, Tracked, Untracked, ConnInv;
    ClientKeepsWires(After(y, Handle(succeeds)), y);
  }

  lemma ClientSteps(y: Net, x: Step)
    requires Inv(y) && Enabled(y, x)
    requires x.Opened? || x.Subscribe? || x.AckArrives? || x.Unregister? || x.Sweep? || x.ClientCloses? || x.ClientShuts?
    ensures WireInv(After(y, x))
  {
    hide QueueInv, AckInv, Unacked, Get, PendingFrames, Kept, ConnInv;
    StepExtends(y, x);
    ClientKeepsWires(After(y, x), y);
  }

  lemma StepKeepsInv(y: Net, x: Step)
    requires Inv(y) && Enabled(y, x)
    ensures Inv(After(y, x))
  {
    hide QueueInv, AckInv, FateInv, WireInv, After, Enabled;
    StepKeepsQueue(y, x);
    StepKeepsAcks(y, x);
    StepKeepsFate(y, x);
    StepKeepsWires(y, x);
  }

  // ----- whole runs -----

  function Begin(owner: map<string, string>, me: string): Net {
    Net(owner, me, Mailroom(map[], map[], map[], map[], 0), map[], Client(None, false, false, map[], {}, []), {}, {})
  }

  ghost predicate Leads(y: Net, steps: seq<Step>, z: Net)
    decreases |steps|
  {
    if steps == [] then z == y else Enabled(y, steps[0]) && Leads(After(y, steps[0]), steps[1..], z)
  }

  lemma {:induction false} RunKeepsInv(y: Net, steps: seq<Step>, z: Net)
    requires Inv(y) && Leads(y, steps, z)
    ensures Inv(z)
    decreases |steps|
  {
    hide Inv, After, Enabled;
    if steps == [] {
    } else {
      StepKeepsInv(y, steps[0]);
      RunKeepsInv(After(y, steps[0]), steps[1..], z);
    }
  }

  /** Nothing is lost: after any run, each envelope enqueued for our device and not swept for its age is queued
      still or was handled, every ack pending or on its way is for a handled envelope, every handled envelope's ack is
      pending, on its way, or went down with a connection that the server dropped, and what is queued is in order. */
  lemma NothingIsLost(owner: map<string, string>, me: string, steps: seq<Step>, z: Net)
    requires Leads(Begin(owner, me), steps, z)
    ensures forall e: Envelope :: z.Owns(z.me, e.mailbox) && e in Get(z.mail.log, e.mailbox) && e.serverTs >= z.mail.horizon ==>
              e in Get(z.mail.queue, e.mailbox) || e in z.handled
    ensures AckInv(z) && FateInv(z)
    ensures forall mb :: Get(z.mail.queue, mb) == Unacked(Get(z.mail.log, mb), Gone(z.mail, mb))
  {
    hide Leads, WireInv, HandledId, UpHandled, PendingHandled, AckedHandled, Traced;
    assert Inv(Begin(owner, me)) by {
      BeginInv(owner, me);
    }
    RunKeepsInv(Begin(owner, me), steps, z);
    forall e: Envelope | z.Owns(z.me, e.mailbox) && e in Get(z.mail.log, e.mailbox) && e.serverTs >= z.mail.horizon
      ensures e in Get(z.mail.queue, e.mailbox) || e in z.handled
    {
      Conservation(z, e);
    }
  }

  lemma BeginInv(owner: map<string, string>, me: string)
    ensures Inv(Begin(owner, me))
  {
  }

  /** An ack that is still pending when a connection of ours opens destroys its envelope as soon as the frame
      that replays it arrives. */
  lemma ReplayDestroys(y: Net, k: nat, mailbox: string, id: string)
    requires Inv(y) && y.client.ws == Some(k) && k in y.conns && mailbox in y.conns[k].mailboxes
    requires Pends(y.client.pending, mailbox, id)
    ensures var z := After(y, Opened); var f := AckFrame(mailbox, y.client.pending[mailbox]);
            && Enabled(z, AckArrives(k, f))
            && forall e :: e in Get(After(z, AckArrives(k, f)).mail.queue, mailbox) ==> e.id != id
  {
    hide Inv, Unacked, Kept;
    var f := AckFrame(mailbox, y.client.pending[mailbox]);
    assert f in AfterOpened(y.client).frames;
    UnackedMembers(Get(y.mail.queue, mailbox), f.ids);
  }
}
