/**
 The client's end of a delivery connection, in socket.ts: envelopes are handled one at a time, and an ack that
 could not be sent is kept and sent again on the next connection.
 */
module Socket {
  import opened Bytes
  import opened Mail

  datatype ClientFrame = SubscribeFrame(mailboxes: set<string>) | AckFrame(mailbox: string, ids: set<string>)

  type PendingAcks = map<string, set<string>>

  /** `ws` is the number of the current connection, `ready` whether it is open, and `inbox` holds the envelopes
      received but not handled yet. */
  datatype Client = Client(ws: Option<nat>, ready: bool, closedByUs: bool, pending: PendingAcks, subscribed: set<string>,
                           inbox: seq<Envelope>)

  datatype Out = Out(client: Client, frames: set<ClientFrame>)

  /** The mailbox and id of every ack in the map. */
  predicate Pends(pending: PendingAcks, mailbox: string, id: string) {
    mailbox in pending && id in pending[mailbox]
  }

  function Tracked(pending: PendingAcks, mailbox: string, id: string): (r: PendingAcks)
    ensures forall mb, x :: Pends(r, mb, x) <==> Pends(pending, mb, x) || (mb == mailbox && x == id)
  {
    pending[mailbox := {id} + if mailbox in pending then pending[mailbox] else {}]
  }

  function Untracked(pending: PendingAcks, mailbox: string, id: string): (r: PendingAcks)
    ensures forall mb, x :: Pends(r, mb, x) <==> Pends(pending, mb, x) && !(mb == mailbox && x == id)
  {
    if mailbox !in pending then pending
    else if pending[mailbox] - {id} == {} then
      assert forall x :: x in pending[mailbox] ==> x in pending[mailbox] - {id} || x == id;
      pending - {mailbox}
    else pending[mailbox := pending[mailbox] - {id}]
  }

  /** The handler returned: remember the ack, and forget it again if it could be sent. */
  function AfterHandled(c: Client, e: Envelope): Out {
    var tracked := Tracked(c.pending, e.mailbox, e.id);
    if c.ws.Some? && c.ready then
      Out(c.(pending := Untracked(tracked, e.mailbox, e.id)), {AckFrame(e.mailbox, {e.id})})
    else Out(c.(pending := tracked), {})
  }

  function PendingFrames(pending: PendingAcks): set<ClientFrame> {
    set mb | mb in pending && pending[mb] != {} :: AckFrame(mb, pending[mb])
  }

  /** What is left of the map when the mailboxes in `todo` are still to be sent: those, and the empty sets. */
  function Kept(pending: PendingAcks, todo: set<string>): PendingAcks {
    map mb | mb in pending && (mb in todo || pending[mb] == {}) :: pending[mb]
  }

  /** The current connection opened: subscribe again, and send every ack that did not make it out before. */
  function AfterOpened(c: Client): Out
    requires c.ws.Some?
  {
    Out(c.(ready := true, pending := Kept(c.pending, {})),
        (if c.subscribed == {} then {} else {SubscribeFrame(c.subscribed)}) + PendingFrames(c.pending))
  }

  /** An envelope from connection `conn`: a closed or replaced connection delivers no more. */
  function AfterMessage(c: Client, conn: nat, e: Envelope): Client {
    if c.closedByUs || c.ws != Some(conn) then c else c.(inbox := c.inbox + [e])
  }

  function AfterSubscribe(c: Client, mailboxes: set<string>): Out {
    Out(c.(subscribed := c.subscribed + mailboxes), if c.ws.Some? && c.ready then {SubscribeFrame(mailboxes)} else {})
  }

  function AfterClosed(c: Client): Client {
    c.(ws := None, ready := false)
  }

  function AfterShut(c: Client): Client {
    c.(ws := None, ready := false, closedByUs := true)
  }

  /** Opening a connection sends every pending ack and leaves none behind. */
  lemma OpeningReplaysAll(c: Client)
    requires c.ws.Some?
    ensures forall mb, id :: !Pends(AfterOpened(c).client.pending, mb, id)
    ensures forall mb, id :: Pends(c.pending, mb, id) <==>
              exists f :: f in AfterOpened(c).frames && f.AckFrame? && f.mailbox == mb && id in f.ids
  {
    var r := AfterOpened(c);
    forall mb, id | Pends(c.pending, mb, id)
      ensures exists f :: f in r.frames && f.AckFrame? && f.mailbox == mb && id in f.ids
    {
      assert AckFrame(mb, c.pending[mb]) in r.frames;
    }
  }

  /** The acks that these frames carry, by mailbox and id. */
  function AcksIn(frames: set<ClientFrame>): set<(string, string)> {
    set f, id | f in frames && f.AckFrame? && id in f.ids :: (f.mailbox, id)
  }

  /** No ack is forgotten: that of a handled envelope is sent or pending, and what was pending still is, or is sent.
      It is sent exactly if the connection is open. */
  lemma AckSentOrKept(c: Client, e: Envelope)
    ensures var r := AfterHandled(c, e);
            && (AcksIn(r.frames) == if c.ws.Some? && c.ready then {(e.mailbox, e.id)} else {})
            && (forall mb, id :: Pends(r.client.pending, mb, id) <==>
                  (Pends(c.pending, mb, id) || (mb, id) == (e.mailbox, e.id)) && (mb, id) !in AcksIn(r.frames))
  {
    hide Tracked, Untracked;
  }

  /** Opening a connection subscribes to all that was subscribed before, and to nothing else. */
  lemma OpeningSubscribesAgain(c: Client, mailbox: string)
    requires c.ws.Some?
    ensures mailbox in c.subscribed <==>
              exists f :: f in AfterOpened(c).frames && f.SubscribeFrame? && mailbox in f.mailboxes
    ensures AfterOpened(c).client.ready && AfterOpened(c).client.subscribed == c.subscribed
  {
    hide Kept;
    if mailbox in c.subscribed {
      assert SubscribeFrame(c.subscribed) in AfterOpened(c).frames;
    }
  }

  // ----- the object that the source mutates -----

  lemma ElementsOfFew<T>(x: T)
    ensures Elements<T>([]) == {} && Elements([x]) == {x}
  {
  }

  lemma PendingSplit(pending: PendingAcks, todo: set<string>, mailbox: string)
    requires mailbox in todo && mailbox in pending
    ensures PendingFrames(pending - (todo - {mailbox}))
         == PendingFrames(pending - todo) + if pending[mailbox] == {} then {} else {AckFrame(mailbox, pending[mailbox])}
  {
    var less, more := pending - todo, pending - (todo - {mailbox});
    assert more == less[mailbox := pending[mailbox]];
    forall f | f in PendingFrames(less)
      ensures f in PendingFrames(more)
    {
      assert f.mailbox in less && more[f.mailbox] == less[f.mailbox];
    }
    if pending[mailbox] != {} {
      assert AckFrame(mailbox, more[mailbox]) in PendingFrames(more);
    }
  }

  lemma KeptAll(pending: PendingAcks)
    ensures Kept(pending, pending.Keys) == pending && PendingFrames(pending - pending.Keys) == {}
  {
  }

  lemma KeptStep(pending: PendingAcks, todo: set<string>, mailbox: string)
    requires mailbox in todo && mailbox in pending
    ensures mailbox in Kept(pending, todo) && Kept(pending, todo)[mailbox] == pending[mailbox]
    ensures Kept(pending, todo - {mailbox})
         == if pending[mailbox] == {} then Kept(pending, todo) else Kept(pending, todo) - {mailbox}
  {
  }

  class TildraSocket {
    var ws: Option<nat>
    var ready: bool
    var closedByUs: bool
    var pendingAcks: PendingAcks
    var subscribed: set<string>
    var queue: seq<Envelope>

    function Snapshot(): Client
      reads this
    {
      Client(ws, ready, closedByUs, pendingAcks, subscribed, queue)
    }

    constructor ()
      ensures Snapshot() == Client(None, false, false, map[], {}, [])
    {
      ws, ready, closedByUs, pendingAcks, subscribed, queue := None, false, false, map[], {}, [];
    }

    method Open(conn: nat)
      modifies this
      ensures Snapshot() == old(Snapshot()).(ws := Some(conn), ready := false)
    {
      ws, ready := Some(conn), false;
    }

    method Track(mailbox: string, id: string)
      modifies `pendingAcks
      ensures pendingAcks == Tracked(old(pendingAcks), mailbox, id)
    {
      var ids := if mailbox in pendingAcks then pendingAcks[mailbox] else {};
      pendingAcks := pendingAcks[mailbox := {id} + ids];
    }

    method Untrack(mailbox: string, id: string)
      modifies `pendingAcks
      ensures pendingAcks == Untracked(old(pendingAcks), mailbox, id)
    {
      if mailbox in pendingAcks {
        var ids := pendingAcks[mailbox] - {id};
        pendingAcks := if ids == {} then pendingAcks - {mailbox} else pendingAcks[mailbox := ids];
      }
    }

    method SendAck(mailbox: string, ids: set<string>) returns (sent: Option<ClientFrame>)
      ensures sent == if ids == {} || ws.None? || !ready then None else Some(AckFrame(mailbox, ids))
    {
      return if ids == {} || ws.None? || !ready then None else Some(AckFrame(mailbox, ids));
    }

    method Ack(e: Envelope) returns (frames: seq<ClientFrame>)
      modifies `pendingAcks
      ensures Out(Snapshot(), Elements(frames)) == AfterHandled(old(Snapshot()), e)
    {
      hide Tracked, Untracked;
      Track(e.mailbox, e.id);
      var sent := SendAck(e.mailbox, {e.id});
      if sent.Some? {
        Untrack(e.mailbox, e.id);
        frames := [sent.value];
      } else {
        frames := [];
      }
    }

    method OnOpen() returns (frames: seq<ClientFrame>)
      requires ws.Some?
      modifies this
      ensures Out(Snapshot(), Elements(frames)) == AfterOpened(old(Snapshot()))
    {
      hide PendingFrames, Kept, Elements;
      ready := true;
      KeptAll(pendingAcks);
      frames := if subscribed == {} then [] else [SubscribeFrame(subscribed)];
      ElementsOfFew(SubscribeFrame(subscribed));
      ghost var first := Elements(frames);
      var todo := pendingAcks.Keys;
      while todo != {}
        invariant Snapshot() == old(Snapshot()).(ready := true, pending := pendingAcks)
        invariant todo <= old(pendingAcks).Keys
        invariant pendingAcks == Kept(old(pendingAcks), todo)
        invariant Elements(frames) == first + PendingFrames(old(pendingAcks) - todo)
        decreases todo
      {
        var mailbox :| mailbox in todo;
        KeptStep(old(pendingAcks), todo, mailbox);
        var sent := SendAck(mailbox, pendingAcks[mailbox]);
        PendingSplit(old(pendingAcks), todo, mailbox);
        if sent.Some? {
          ElementsOfAppend(frames, sent.value);
          frames := frames + [sent.value];
          pendingAcks := pendingAcks - {mailbox};
        }
        todo := todo - {mailbox};
      }
      assert old(pendingAcks) - {} == old(pendingAcks);
    }

    method OnMessage(conn: nat, e: Envelope)
      modifies `queue
      ensures Snapshot() == AfterMessage(old(Snapshot()), conn, e)
    {
      if closedByUs || ws != Some(conn) {
        return;
      }
      queue := queue + [e];
    }

    /** Take the next envelope off the processing chain. `handled` tells whether the handler returned. */
    method HandleMessage(handled: bool) returns (frames: seq<ClientFrame>)
      requires queue != []
      modifies this
      ensures var rest := old(Snapshot()).(inbox := old(queue)[1..]);
              Out(Snapshot(), Elements(frames)) == if handled then AfterHandled(rest, old(queue)[0]) else Out(rest, {})
    {
      var e := queue[0];
      queue := queue[1..];
      frames := [];
      if handled {
        frames := Ack(e);
      }
    }

    method Subscribe(mailboxes: seq<string>) returns (frames: seq<ClientFrame>)
      modifies `subscribed
      ensures Out(Snapshot(), Elements(frames)) == AfterSubscribe(old(Snapshot()), Elements(mailboxes))
    {
      for i := 0 to |mailboxes|
        invariant subscribed == old(subscribed) + Elements(mailboxes[..i])
      {
        assert mailboxes[..i + 1] == mailboxes[..i] + [mailboxes[i]];
        subscribed := subscribed + {mailboxes[i]};
      }
      assert mailboxes[..|mailboxes|] == mailboxes;
      frames := if ws.None? || !ready then [] else [SubscribeFrame(Elements(mailboxes))];
    }

    method OnClose()
      modifies this
      ensures Snapshot() == AfterClosed(old(Snapshot()))
    {
      ws, ready := None, false;
    }

    method Close()
      modifies this
      ensures Snapshot() == AfterShut(old(Snapshot()))
    {
      closedByUs, ws, ready := true, None, false;
    }
  }
}
