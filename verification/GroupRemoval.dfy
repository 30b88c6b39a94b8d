/**
 The cascade that one removal sets off. The remover rotates its sender key and tells the others; each of them,
 on the first distribution that reaches it, rotates and tells the others in turn. Distributions may arrive in
 any order, and so may what the remaining devices sent before the removal. The devices that were removed send none.
 */
module GroupRemoval {
  import opened Bytes
  import opened GroupMembership

  /** `announced` records the epoch that each device gave to its fresh sender key, `delivered` what has arrived. */
  datatype World = World(devices: map<Member, Device>, flight: set<Packet>, announced: map<Member, nat>, delivered: set<Packet>)

  function Deliver(w: World, p: Packet): World
    requires p.recipient in w.devices
  {
    var d := w.devices[p.recipient];
    var r := AfterInvite(p.recipient, d, p.from, p.invite);
    World(w.devices[p.recipient := r.device], w.flight - {p} + r.packets,
          if r.device.generation == d.generation then w.announced
          else w.announced[p.recipient := Known(r.device.group).epoch],
          w.delivered + {p})
  }

  /** One removal of the set `gone` by `remover`, from agreed membership and epoch. `stale` is what is still on its way
      from before. */
  datatype Removal = Removal(before: map<Member, Device>, all: set<Member>, epoch: nat, gone: set<Member>, remover: Member,
                             stale: set<Packet>) {
    ghost predicate Agreed() {
      && remover in all && gone <= all && gone != {} && all <= before.Keys
      && forall d :: d in all ==> before[d].group == Some(Group(all, epoch))
    }

    /** A distribution of a sender key from before the removal: of an older epoch with any list, or of this one. */
    ghost predicate Old(p: Packet)
      requires all <= before.Keys
    {
      && p.from in Remaining() && p.recipient in Remaining() && p.from != p.recipient
      && p.invite.epoch <= epoch && (p.invite.epoch == epoch ==> p.invite.members <= all)
      && p.invite.chain.generation <= before[p.from].generation
    }

    ghost predicate Valid() {
      Agreed() && remover !in gone && forall p :: p in stale ==> Old(p)
    }

    function Remaining(): set<Member> {
      all - gone
    }

    function Begin(): World
      requires remover in before
    {
      var r := AfterRemoval(remover, before[remover], gone);
      World(before[remover := r.device], r.packets + stale, map[remover := Known(r.device.group).epoch], {})
    }

    /** The sender key that a remaining device creates in answer to the removal. */
    function FreshChain(a: Member): Chain
      requires a in before
    {
      Chain(a, before[a].generation + 1)
    }

    function FreshPacket(a: Member, b: Member, announced: map<Member, nat>): Packet
      requires a in before && a in announced
    {
      Packet(a, b, Invite(FreshChain(a), Remaining(), announced[a]))
    }
  }

  // ----- what one distribution does -----

  /** A device that has not heard of the removal yet. */
  ghost predicate Waiting(c: Removal, b: Member, d: Device)
    requires b in c.before
  {
    d.group == Some(Group(c.all, c.epoch)) && d.generation == c.before[b].generation
  }

  /** The first one makes the device rotate. Its answer carries one more than the epoch it adopted. */
  lemma FirstInvite(c: Removal, b: Member, d: Device, a: Member, chain: Chain, e: nat)
    requires c.Valid() && b in c.Remaining() && a in c.Remaining() && e > c.epoch && Waiting(c, b, d)
    ensures var r := AfterInvite(b, d, a, Invite(chain, c.Remaining(), e));
            && r.device == Device(Some(Group(c.Remaining(), e + 1)), d.generation + 1, d.receivers[a := chain] - c.gone)
            && r.packets == PacketsTo(b, r.device, c.Remaining() - {b})
  {
    hide PacketsTo;
    var invite := Invite(chain, c.Remaining(), e);
    var ours := Known(d.group);
    assert Merged(b, ours, a, invite) == c.Remaining();
    assert RemovedBy(b, ours, a, invite) == c.gone;
  }

  /** Any later one is taken in without another rotation, whatever its epoch. */
  lemma LaterInvite(c: Removal, d: Device, b: Member, a: Member, chain: Chain, e: nat)
    requires d.group.Some? && d.group.value.members == c.Remaining() && b in c.Remaining() && a in c.Remaining()
    ensures var r := AfterInvite(b, d, a, Invite(chain, c.Remaining(), e)); var ours := d.group.value.epoch;
            && r.device == Device(Some(Group(c.Remaining(), if e > ours then e else ours)), d.generation, d.receivers[a := chain])
            && r.packets == {}
  {
    hide PacketsTo;
    var invite := Invite(chain, c.Remaining(), e);
    assert Merged(b, d.group.value, a, invite) == c.Remaining();
    assert RemovedBy(b, d.group.value, a, invite) == {};
  }

  /** One from before the removal changes neither list nor epoch, whether the device has rotated or not: but its
      chain takes the place of the one that was there. */
  lemma StaleInvite(c: Removal, d: Device, p: Packet)
    requires c.Valid() && p in c.stale
    requires Waiting(c, p.recipient, d) || RotatedGroup(c, d)
    ensures AfterInvite(p.recipient, d, p.from, p.invite) == Reply(TakenIn(d, p), {})
  {
    hide PacketsTo;
    assert c.Old(p);
    if p.invite.epoch == d.group.value.epoch {
      EqualInviteJoins(p.recipient, d, p.from, p.invite);
    } else {
      OlderInviteIgnored(p.recipient, d, p.from, p.invite);
    }
    var r := AfterInvite(p.recipient, d, p.from, p.invite).device;
    assert r.group.value.members == d.group.value.members;
  }

  function TakenIn(d: Device, p: Packet): Device {
    d.(receivers := d.receivers[p.from := p.invite.chain])
  }

  // ----- the invariant -----

  /** A remaining device that has rotated. */
  ghost predicate RotatedInv(c: Removal, w: World, d: Member)
    requires d in c.before && d in w.devices && d in w.announced
  {
    var device := w.devices[d];
    && device.generation == c.before[d].generation + 1
    && device.group.Some? && device.group.value.members == c.Remaining()
    && device.receivers.Keys !! c.gone
    && w.announced[d] <= device.group.value.epoch
    && exists x :: x in w.announced && w.announced[x] == device.group.value.epoch
  }

  /** The fresh sender key of a has reached b. */
  ghost predicate Landed(c: Removal, w: World, a: Member, b: Member)
    requires a in c.before && a in w.announced && b in w.devices
  {
    var device := w.devices[b];
    && c.FreshPacket(a, b, w.announced) in w.delivered
    && b in w.announced && device.group.Some? && w.announced[a] <= device.group.value.epoch
  }

  ghost predicate EpochsInv(c: Removal, w: World) {
    && w.announced.Keys <= c.Remaining() && c.remover in w.announced
    && (forall a :: a in w.announced ==> c.epoch < w.announced[a] <= c.epoch + |w.announced|)
    && forall a :: a in w.announced && a != c.remover ==> c.epoch + 1 < w.announced[a]
  }

  ghost predicate DevicesInv(c: Removal, w: World)
    requires c.all <= c.before.Keys
  {
    && w.devices.Keys == c.before.Keys
    && (forall d :: d in w.devices && d !in c.Remaining() ==> w.devices[d] == c.before[d])
    && (forall d :: d in w.devices && d !in w.announced && d in c.Remaining() ==> Waiting(c, d, w.devices[d]))
    && forall d :: d in w.announced && d in c.all ==> RotatedInv(c, w, d)
  }

  /** A fresh sender key of a device that has rotated, for another one that remains. */
  ghost predicate IsFresh(c: Removal, w: World, p: Packet)
    requires c.all <= c.before.Keys
  {
    && p.from in w.announced && p.from in c.Remaining() && p.recipient in c.Remaining() && p.from != p.recipient
    && p == c.FreshPacket(p.from, p.recipient, w.announced)
  }

  /** Only those are in flight, and what was in flight before. */
  ghost predicate FlightInv(c: Removal, w: World)
    requires c.all <= c.before.Keys
  {
    forall p :: p in w.flight ==> IsFresh(c, w, p) || p in c.stale
  }

  ghost predicate ReachInv(c: Removal, w: World)
    requires c.all <= c.before.Keys && w.devices.Keys == c.before.Keys
  {
    forall a, b :: a in w.announced && a in c.Remaining() && b in c.Remaining() && a != b ==>
      c.FreshPacket(a, b, w.announced) in w.flight || Landed(c, w, a, b)
  }

  ghost predicate Inv(c: Removal, w: World) {
    c.Valid() && EpochsInv(c, w) && DevicesInv(c, w) && FlightInv(c, w) && ReachInv(c, w)
  }

  lemma BeginEffect(c: Removal)
    requires c.Valid()
    ensures var w := c.Begin(); var d := c.before[c.remover];
            var next := Device(Some(Group(c.Remaining(), c.epoch + 1)), d.generation + 1, d.receivers - c.gone);
            && w.devices == c.before[c.remover := next] && w.announced == map[c.remover := c.epoch + 1] && w.delivered == {}
            && w.flight == PacketsTo(c.remover, next, c.Remaining() - {c.remover}) + c.stale
  {
    hide PacketsTo;
    assert Known(c.before[c.remover].group).members * c.gone == c.gone;
    assert Known(c.before[c.remover].group).members - c.gone == c.Remaining();
  }

  lemma PacketsAre(self: Member, d: Device, recipients: set<Member>)
    ensures forall p :: p in PacketsTo(self, d, recipients)
                        <==> p.from == self && p.recipient in recipients && p.invite == InviteOf(self, d)
  {
  }

  lemma BeginRotated(c: Removal)
    requires c.Valid()
    ensures c.remover in c.Begin().devices && RotatedInv(c, c.Begin(), c.remover)
  {
    hide PacketsTo, Removal.Begin;
    BeginEffect(c);
    assert c.Begin().announced[c.remover] == c.epoch + 1;
  }

  lemma BeginWaiting(c: Removal)
    requires c.Valid()
    ensures forall d :: d in c.Remaining() ==> Waiting(c, d, c.before[d])
    ensures c.remover in c.Remaining()
  {
  }

  lemma BeginDevices(c: Removal)
    requires c.Valid()
    ensures EpochsInv(c, c.Begin()) && DevicesInv(c, c.Begin())
  {
    hide PacketsTo, Removal.Begin, RotatedInv, Waiting;
    BeginEffect(c);
    BeginWaiting(c);
    BeginRotated(c);
    assert c.Begin().devices.Keys == c.before.Keys;
  }

  lemma BeginInv(c: Removal)
    requires c.Valid()
    ensures Inv(c, c.Begin())
  {
    hide PacketsTo, Removal.Begin, RotatedInv, Landed, EpochsInv, DevicesInv;
    BeginDevices(c);
    BeginEffect(c);
    PacketsAre(c.remover, c.Begin().devices[c.remover], c.Remaining() - {c.remover});
  }

  // ----- one delivery -----

  lemma FreshFacts(c: Removal, w: World, p: Packet)
    requires Inv(c, w) && p in w.flight && p !in c.stale
    ensures c.Valid() && w.devices.Keys == c.before.Keys && p.recipient in w.devices && p.from in w.announced
    ensures p.from in c.Remaining() && p.recipient in c.Remaining() && p.from != p.recipient
    ensures p == c.FreshPacket(p.from, p.recipient, w.announced) && w.announced[p.from] > c.epoch
    ensures p.recipient !in w.announced ==> Waiting(c, p.recipient, w.devices[p.recipient])
    ensures p.recipient in w.announced ==> RotatedInv(c, w, p.recipient)
  {
    hide RotatedInv, ReachInv;
  }

  lemma StaleFacts(c: Removal, w: World, p: Packet)
    requires Inv(c, w) && p in c.stale
    ensures c.Valid() && c.Old(p) && w.devices.Keys == c.before.Keys && p.recipient in w.devices
    ensures p.recipient !in w.announced ==> Waiting(c, p.recipient, w.devices[p.recipient])
    ensures p.recipient in w.announced ==> RotatedInv(c, w, p.recipient) && RotatedGroup(c, w.devices[p.recipient])
  {
    hide RotatedInv, ReachInv, FlightInv;
    if p.recipient in w.announced {
      EpochAbove(c, w, p.recipient);
    }
  }

  predicate RotatedGroup(c: Removal, d: Device) {
    d.group.Some? && d.group.value.members == c.Remaining() && d.group.value.epoch > c.epoch
  }

  lemma EpochAbove(c: Removal, w: World, d: Member)
    requires EpochsInv(c, w) && d in c.before && d in w.devices && d in w.announced && RotatedInv(c, w, d)
    ensures RotatedGroup(c, w.devices[d])
  {
  }

  function FirstState(c: Removal, d: Device, a: Member, e: nat): Device
    requires a in c.before
  {
    Device(Some(Group(c.Remaining(), e + 1)), d.generation + 1, d.receivers[a := c.FreshChain(a)] - c.gone)
  }

  function LaterState(c: Removal, d: Device, a: Member, e: nat): Device
    requires a in c.before && d.group.Some?
  {
    Device(Some(Group(c.Remaining(), if e > d.group.value.epoch then e else d.group.value.epoch)),
           d.generation, d.receivers[a := c.FreshChain(a)])
  }

  /** Delivery to a device that has not rotated yet. */
  lemma FirstEffect(c: Removal, w: World, p: Packet)
    requires Inv(c, w) && p in w.flight && p !in c.stale && p.recipient !in w.announced
    ensures p.recipient in w.devices && p.recipient in c.before && p.from in c.before && p.from in w.announced
    ensures var b := p.recipient; var e := w.announced[p.from]; var next := FirstState(c, w.devices[b], p.from, e);
            Deliver(w, p) == World(w.devices[b := next], w.flight - {p} + PacketsTo(b, next, c.Remaining() - {b}),
                                   w.announced[b := e + 1], w.delivered + {p})
  {
    hide PacketsTo, Inv, RotatedInv, AfterInvite;
    FreshFacts(c, w, p);
    FirstInvite(c, p.recipient, w.devices[p.recipient], p.from, c.FreshChain(p.from), w.announced[p.from]);
  }

  /** Delivery to a device that has. */
  lemma LaterEffect(c: Removal, w: World, p: Packet)
    requires Inv(c, w) && p in w.flight && p !in c.stale && p.recipient in w.announced
    ensures p.recipient in w.devices && p.from in c.before && w.devices[p.recipient].group.Some?
    ensures Deliver(w, p) == World(w.devices[p.recipient := LaterState(c, w.devices[p.recipient], p.from, w.announced[p.from])],
                                   w.flight - {p}, w.announced, w.delivered + {p})
  {
    hide PacketsTo, Inv, AfterInvite;
    FreshFacts(c, w, p);
    LaterInvite(c, w.devices[p.recipient], p.recipient, p.from, c.FreshChain(p.from), w.announced[p.from]);
    assert w.flight - {p} + {} == w.flight - {p};
  }

  /** Delivery of what was sent before the removal. */
  lemma StaleEffect(c: Removal, w: World, p: Packet)
    requires Inv(c, w) && p in w.flight && p in c.stale
    ensures p.recipient in w.devices
    ensures Deliver(w, p) == World(w.devices[p.recipient := TakenIn(w.devices[p.recipient], p)], w.flight - {p}, w.announced, w.delivered + {p})
  {
    hide PacketsTo, AfterInvite, Inv, RotatedInv, Waiting, RotatedGroup;
    StaleFacts(c, w, p);
    StaleInvite(c, w.devices[p.recipient], p);
    assert w.flight - {p} + {} == w.flight - {p};
  }

  lemma FirstKeepsEpochs(c: Removal, w: World, p: Packet)
    requires Inv(c, w) && p in w.flight && p !in c.stale && p.recipient !in w.announced && p.recipient in w.devices
    ensures EpochsInv(c, Deliver(w, p))
  {
    hide PacketsTo, Deliver, ReachInv, DevicesInv, FirstState;
    FirstEffect(c, w, p);
    var z := Deliver(w, p);
    assert z.announced.Keys == w.announced.Keys + {p.recipient};
    assert |z.announced| == |z.announced.Keys| == |w.announced| + 1;
  }

  lemma OthersStayRotated(c: Removal, w: World, z: World, d: Member)
    requires d in c.before && d in w.devices && d in w.announced && RotatedInv(c, w, d)
    requires d in z.devices && z.devices[d] == w.devices[d]
    requires forall x :: x in w.announced ==> x in z.announced && z.announced[x] == w.announced[x]
    ensures RotatedInv(c, z, d)
  {
    var x :| x in w.announced && w.announced[x] == w.devices[d].group.value.epoch;
    assert z.announced[x] == w.announced[x];
  }

  lemma FirstStateRotated(c: Removal, z: World, d: Device, b: Member, a: Member, e: nat)
    requires a in c.before && b in c.before && a !in c.gone && b in z.devices && b in z.announced && Waiting(c, b, d)
    requires z.devices[b] == FirstState(c, d, a, e) && z.announced[b] == e + 1
    ensures RotatedInv(c, z, b)
  {
  }

  lemma FirstKeepsDevices(c: Removal, w: World, p: Packet)
    requires Inv(c, w) && p in w.flight && p !in c.stale && p.recipient !in w.announced && p.recipient in w.devices
    ensures DevicesInv(c, Deliver(w, p))
  {
    hide PacketsTo, Deliver, EpochsInv, FlightInv, ReachInv, RotatedInv, FirstState;
    FreshFacts(c, w, p);
    FirstEffect(c, w, p);
    var z := Deliver(w, p);
    FirstStateRotated(c, z, w.devices[p.recipient], p.recipient, p.from, w.announced[p.from]);
    forall d | d in z.announced && d in c.all && d != p.recipient
      ensures RotatedInv(c, z, d)
    {
      OthersStayRotated(c, w, z, d);
    }
  }

  lemma FirstKeepsFlight(c: Removal, w: World, p: Packet)
    requires Inv(c, w) && p in w.flight && p !in c.stale && p.recipient !in w.announced && p.recipient in w.devices
    ensures FlightInv(c, Deliver(w, p))
  {
    hide PacketsTo, Deliver, ReachInv, RotatedInv;
    FreshFacts(c, w, p);
    FirstEffect(c, w, p);
    PacketsAre(p.recipient, Deliver(w, p).devices[p.recipient], c.Remaining() - {p.recipient});
  }

  lemma FirstKeepsReach(c: Removal, w: World, p: Packet)
    requires Inv(c, w) && p in w.flight && p !in c.stale && p.recipient !in w.announced && p.recipient in w.devices
    requires Deliver(w, p).devices.Keys == c.before.Keys
    ensures ReachInv(c, Deliver(w, p))
  {
    hide PacketsTo, Deliver, RotatedInv, EpochsInv, FlightInv;
    FreshFacts(c, w, p);
    FirstEffect(c, w, p);
    var z := Deliver(w, p);
    PacketsAre(p.recipient, z.devices[p.recipient], c.Remaining() - {p.recipient});
    forall a, b | a in z.announced && a in c.Remaining() && b in c.Remaining() && a != b
      ensures c.FreshPacket(a, b, z.announced) in z.flight || Landed(c, z, a, b)
    {
      if a != p.recipient {
        assert c.FreshPacket(a, b, z.announced) == c.FreshPacket(a, b, w.announced);
      }
    }
  }

  lemma LaterStateRotated(c: Removal, w: World, z: World, b: Member, a: Member)
    requires a in c.before && a !in c.gone && a in w.announced && b in c.before && b in w.devices && b in w.announced
    requires RotatedInv(c, w, b) && z.announced == w.announced
    requires b in z.devices && z.devices[b] == LaterState(c, w.devices[b], a, w.announced[a])
    ensures RotatedInv(c, z, b)
  {
  }

  lemma LaterKeepsDevices(c: Removal, w: World, p: Packet)
    requires Inv(c, w) && p in w.flight && p !in c.stale && p.recipient in w.announced && p.recipient in w.devices
    ensures DevicesInv(c, Deliver(w, p))
  {
    hide Deliver, EpochsInv, FlightInv, ReachInv, RotatedInv, LaterState;
    FreshFacts(c, w, p);
    LaterEffect(c, w, p);
    var z := Deliver(w, p);
    LaterStateRotated(c, w, z, p.recipient, p.from);
    forall d | d in z.announced && d in c.all && d != p.recipient
      ensures RotatedInv(c, z, d)
    {
      OthersStayRotated(c, w, z, d);
    }
  }

  lemma LaterKeepsReach(c: Removal, w: World, p: Packet)
    requires Inv(c, w) && p in w.flight && p !in c.stale && p.recipient in w.announced && p.recipient in w.devices
    requires Deliver(w, p).devices.Keys == c.before.Keys
    ensures ReachInv(c, Deliver(w, p))
  {
    hide Deliver, RotatedInv, EpochsInv, FlightInv;
    FreshFacts(c, w, p);
    LaterEffect(c, w, p);
    var z := Deliver(w, p);
    forall a, b | a in z.announced && a in c.Remaining() && b in c.Remaining() && a != b
      ensures c.FreshPacket(a, b, z.announced) in z.flight || Landed(c, z, a, b)
    {
      assert c.FreshPacket(a, b, w.announced) in w.flight || Landed(c, w, a, b);
    }
  }

  lemma LaterKeepsRest(c: Removal, w: World, p: Packet)
    requires Inv(c, w) && p in w.flight && p !in c.stale && p.recipient in w.announced && p.recipient in w.devices
    ensures EpochsInv(c, Deliver(w, p)) && FlightInv(c, Deliver(w, p))
  {
    hide Deliver, RotatedInv, ReachInv, LaterState;
    LaterEffect(c, w, p);
  }

  lemma StaleStateRotated(c: Removal, w: World, z: World, p: Packet)
    requires c.Valid() && p in c.stale && c.Old(p) && p.recipient in w.devices && p.recipient in w.announced && RotatedInv(c, w, p.recipient)
    requires z.announced == w.announced && p.recipient in z.devices && z.devices[p.recipient] == TakenIn(w.devices[p.recipient], p)
    ensures RotatedInv(c, z, p.recipient)
  {
  }

  lemma StaleKeepsDevices(c: Removal, w: World, p: Packet)
    requires Inv(c, w) && p in w.flight && p in c.stale && p.recipient in w.devices
    ensures EpochsInv(c, Deliver(w, p)) && DevicesInv(c, Deliver(w, p))
  {
    hide Deliver, FlightInv, ReachInv, RotatedInv;
    StaleFacts(c, w, p);
    StaleEffect(c, w, p);
    var z := Deliver(w, p);
    if p.recipient in w.announced {
      StaleStateRotated(c, w, z, p);
    }
    forall d | d in z.announced && d in c.all && d != p.recipient
      ensures RotatedInv(c, z, d)
    {
      OthersStayRotated(c, w, z, d);
    }
  }

  lemma OldIsNotFresh(c: Removal, w: World, p: Packet)
    requires c.Valid() && p in c.stale
    ensures !IsFresh(c, w, p)
  {
    assert c.Old(p);
  }

  lemma StaleKeepsReach(c: Removal, w: World, p: Packet)
    requires Inv(c, w) && p in w.flight && p in c.stale && p.recipient in w.devices
    requires Deliver(w, p).devices.Keys == c.before.Keys
    ensures FlightInv(c, Deliver(w, p)) && ReachInv(c, Deliver(w, p))
  {
    hide Deliver, RotatedInv, EpochsInv;
    StaleFacts(c, w, p);
    StaleEffect(c, w, p);
    OldIsNotFresh(c, w, p);
    var z := Deliver(w, p);
    forall a, b | a in z.announced && a in c.Remaining() && b in c.Remaining() && a != b
      ensures c.FreshPacket(a, b, z.announced) in z.flight || Landed(c, z, a, b)
    {
      assert IsFresh(c, w, c.FreshPacket(a, b, w.announced));
      assert c.FreshPacket(a, b, w.announced) in w.flight || Landed(c, w, a, b);
    }
  }

  lemma DeliverKeepsInv(c: Removal, w: World, p: Packet)
    requires Inv(c, w) && p in w.flight && p.recipient in w.devices
    ensures Inv(c, Deliver(w, p))
  {
    hide Deliver, EpochsInv, FlightInv, ReachInv, RotatedInv, Landed;
    if p in c.stale {
      StaleKeepsDevices(c, w, p);
      StaleKeepsReach(c, w, p);
    } else if p.recipient in w.announced {
      LaterKeepsRest(c, w, p);
      LaterKeepsDevices(c, w, p);
      LaterKeepsReach(c, w, p);
    } else {
      FirstKeepsEpochs(c, w, p);
      FirstKeepsDevices(c, w, p);
      FirstKeepsFlight(c, w, p);
      FirstKeepsReach(c, w, p);
    }
  }

  // ----- how long it takes -----

  lemma {:induction false} PacketsCount(self: Member, d: Device, recipients: set<Member>)
    ensures |PacketsTo(self, d, recipients)| == |recipients|
    decreases |recipients|
  {
    if recipients == {} {
    } else {
      var m :| m in recipients;
      PacketsCount(self, d, recipients - {m});
      assert PacketsTo(self, d, recipients) == PacketsTo(self, d, recipients - {m}) + {Packet(self, m, InviteOf(self, d))};
    }
  }

  /** The deliveries still to come, when `flying` packets are in flight and `rotated` of n devices have rotated. */
  function Outstanding(n: nat, flying: nat, rotated: nat): int {
    flying + (n - rotated) * (n - 1)
  }

  lemma OneRotation(n: nat, flying: nat, rotated: nat)
    requires flying > 0 && n > 0
    ensures Outstanding(n, flying - 1 + (n - 1), rotated + 1) == Outstanding(n, flying, rotated) - 1
  {
    assert (n - (rotated + 1)) * (n - 1) == (n - rotated) * (n - 1) - (n - 1);
  }

  function Left(c: Removal, w: World): int {
    Outstanding(|c.Remaining()|, |w.flight|, |w.announced|)
  }

  lemma FirstCounts(c: Removal, w: World, p: Packet)
    requires Inv(c, w) && p in w.flight && p !in c.stale && p.recipient in w.devices && p.recipient !in w.announced
    ensures var z := Deliver(w, p);
            |z.flight| == |w.flight| - 1 + (|c.Remaining()| - 1) && |z.announced| == |w.announced| + 1
  {
    hide Deliver, DevicesInv, ReachInv, EpochsInv, PacketsTo;
    FreshFacts(c, w, p);
    FirstEffect(c, w, p);
    var b, z := p.recipient, Deliver(w, p);
    var added := PacketsTo(b, z.devices[b], c.Remaining() - {b});
    PacketsAre(b, z.devices[b], c.Remaining() - {b});
    PacketsCount(b, z.devices[b], c.Remaining() - {b});
    forall q | q in added
      ensures q !in w.flight
    {
      NotInFlightYet(c, w, b, z.devices[b], q);
    }
    assert z.announced.Keys == w.announced.Keys + {b};
    assert |z.announced| == |z.announced.Keys|;
  }

  /** Nobody has seen the fresh sender key of a device that has not rotated. */
  lemma NotInFlightYet(c: Removal, w: World, b: Member, next: Device, q: Packet)
    requires Inv(c, w) && b in c.Remaining() && b in c.before && b !in w.announced
    requires next.generation == c.before[b].generation + 1 && q.from == b && q.invite == InviteOf(b, next)
    ensures q !in w.flight
  {
    hide DevicesInv, ReachInv, EpochsInv;
    OldChains(c);
  }

  lemma OldChains(c: Removal)
    requires c.Valid()
    ensures forall p :: p in c.stale ==> p.from in c.before && p.invite.chain.generation <= c.before[p.from].generation
  {
    assert forall p :: p in c.stale ==> c.Old(p);
  }

  lemma DeliverCounts(c: Removal, w: World, p: Packet)
    requires Inv(c, w) && p in w.flight && p.recipient in w.devices
    ensures Left(c, Deliver(w, p)) == Left(c, w) - 1
  {
    hide Deliver, Inv, Outstanding, RotatedInv, FirstState, LaterState, TakenIn;
    if p in c.stale {
      StaleEffect(c, w, p);
      FewerInFlight(|c.Remaining()|, |w.flight|, |w.announced|);
    } else if p.recipient in w.announced {
      LaterEffect(c, w, p);
      FewerInFlight(|c.Remaining()|, |w.flight|, |w.announced|);
    } else {
      RemainsSome(c, w, p);
      FirstCounts(c, w, p);
      OneRotation(|c.Remaining()|, |w.flight|, |w.announced|);
    }
  }

  lemma RemainsSome(c: Removal, w: World, p: Packet)
    requires Inv(c, w) && p in w.flight
    ensures |c.Remaining()| > 0 && |w.flight| > 0
  {
    RemoverRemains(c);
  }

  lemma FewerInFlight(n: nat, flying: nat, rotated: nat)
    requires flying > 0
    ensures Outstanding(n, flying - 1, rotated) == Outstanding(n, flying, rotated) - 1
  {
  }

  lemma BeginFlight(c: Removal)
    requires c.Valid()
    ensures |c.Begin().flight| == |c.Remaining()| - 1 + |c.stale| && |c.Begin().announced| == 1 && |c.Remaining()| > 0
  {
    hide PacketsTo, Removal.Begin;
    BeginEffect(c);
    var others := c.Remaining() - {c.remover};
    PacketsCount(c.remover, c.Begin().devices[c.remover], others);
    assert c.Remaining() == others + {c.remover} by {
      RemoverRemains(c);
    }
    var first := PacketsTo(c.remover, c.Begin().devices[c.remover], others);
    assert first !! c.stale by {
      FirstAreFresh(c, first);
    }
  }

  lemma FirstAreFresh(c: Removal, first: set<Packet>)
    requires c.Valid() && c.remover in c.before && c.remover in c.Begin().devices
    requires first == PacketsTo(c.remover, c.Begin().devices[c.remover], c.Remaining() - {c.remover})
    ensures first !! c.stale
  {
    hide Removal.Begin;
    BeginEffect(c);
    OldChains(c);
  }

  lemma RemoverRemains(c: Removal)
    requires c.Valid()
    ensures c.remover in c.Remaining()
  {
  }

  lemma BeginCounts(c: Removal)
    requires c.Valid()
    ensures Left(c, c.Begin()) == |c.Remaining()| * (|c.Remaining()| - 1) + |c.stale|
  {
    hide Removal.Begin, Removal.Valid, Outstanding;
    BeginFlight(c);
    FirstOfAll(|c.Remaining()|, |c.stale|);
  }

  lemma FirstOfAll(n: nat, more: nat)
    requires n > 0
    ensures Outstanding(n, n - 1 + more, 1) == n * (n - 1) + more
  {
  }

  // ----- whole runs -----

  /** Delivering the packets in this order leads from w to z. */
  ghost predicate Leads(w: World, ps: seq<Packet>, z: World)
    decreases |ps|
  {
    if ps == [] then z == w
    else ps[0] in w.flight && ps[0].recipient in w.devices && Leads(Deliver(w, ps[0]), ps[1..], z)
  }

  lemma {:induction false} RunKeepsInv(c: Removal, w: World, ps: seq<Packet>, z: World)
    requires Inv(c, w) && Leads(w, ps, z)
    ensures Inv(c, z) && |ps| + Left(c, z) == Left(c, w)
    decreases |ps|
  {
    hide Inv, Deliver, Left;
    if ps == [] {
    } else {
      DeliverKeepsInv(c, w, ps[0]);
      DeliverCounts(c, w, ps[0]);
      RunKeepsInv(c, Deliver(w, ps[0]), ps[1..], z);
    }
  }

  /** However the distributions are ordered, at most n(n - 1) are ever delivered besides those from before the removal,
      n devices remaining, and none is ever addressed to a removed device. */
  lemma CascadeTerminates(c: Removal, ps: seq<Packet>, z: World)
    requires c.Valid() && Leads(c.Begin(), ps, z)
    ensures |ps| <= |c.Remaining()| * (|c.Remaining()| - 1) + |c.stale|
    ensures forall p :: p in z.flight ==> p.recipient !in c.gone && p.from !in c.gone
  {
    hide Removal.Begin, EpochsInv, DevicesInv, ReachInv, Leads;
    assert forall p :: p in c.stale ==> c.Old(p);
    BeginInv(c);
    BeginCounts(c);
    RunKeepsInv(c, c.Begin(), ps, z);
    AnnouncedBound(c, z);
    NotNegative(|c.Remaining()| - |z.announced|, |c.Remaining()| - 1);
  }

  lemma NotNegative(x: int, y: int)
    requires x >= 0 && y >= 0
    ensures x * y >= 0
  {
  }

  lemma AnnouncedBound(c: Removal, w: World)
    requires Inv(c, w)
    ensures 1 <= |w.announced| <= |c.Remaining()|
  {
    hide DevicesInv, FlightInv, ReachInv;
    SubsetSize(w.announced.Keys, c.Remaining());
    SubsetSize({c.remover}, w.announced.Keys);
  }

  lemma SubsetSize<T>(a: set<T>, b: set<T>)
    requires a <= b
    ensures |a| <= |b|
  {
    assert b == a + (b - a);
  }

  /** The last distribution from one device to another among these. */
  function LastOf(ps: seq<Packet>, a: Member, b: Member): Option<Packet> {
    if ps == [] then None
    else
      var later := LastOf(ps[1..], a, b);
      if later.Some? then later else if ps[0].from == a && ps[0].recipient == b then Some(ps[0]) else None
  }

  /** What device d holds of device a: the chain of the last distribution to arrive, which is the fresh one unless that
      was sent before the removal. */
  ghost predicate HoldsLast(c: Removal, ps: seq<Packet>, z: World, a: Member, d: Member)
    requires a in c.before && d in z.devices
  {
    var last := LastOf(ps, a, d);
    && last.Some? && a in z.devices[d].receivers && z.devices[d].receivers[a] == last.value.invite.chain
    && (last.value.invite.chain == c.FreshChain(a) <==> last.value !in c.stale)
  }

  /** What a remaining device has reached once nothing is in flight. */
  ghost predicate SettledDevice(c: Removal, ps: seq<Packet>, z: World, d: Member, e: nat)
    requires c.all <= c.before.Keys && d in c.Remaining()
  {
    && d in z.devices && z.devices[d].group == Some(Group(c.Remaining(), e))
    && z.devices[d].generation == c.before[d].generation + 1
    && z.devices[d].receivers.Keys !! c.gone
    && forall a :: a in c.Remaining() && a != d ==> HoldsLast(c, ps, z, a, d)
  }

  lemma EveryoneRotated(c: Removal, z: World)
    requires Inv(c, z) && z.flight == {}
    ensures z.announced.Keys == c.Remaining()
  {
    hide RotatedInv;
    forall b | b in c.Remaining() && b != c.remover
      ensures b in z.announced
    {
      assert Landed(c, z, c.remover, b);
    }
  }

  /** The epochs of two remaining devices cannot differ: each has reached the other's. */
  lemma EpochCaughtUp(c: Removal, z: World, a: Member, b: Member)
    requires Inv(c, z) && z.flight == {} && a in c.Remaining() && b in c.Remaining() && a in z.announced && b in z.announced
    ensures a in z.devices && b in z.devices && z.devices[a].group.Some? && z.devices[b].group.Some?
    ensures z.devices[a].group.value.epoch <= z.devices[b].group.value.epoch
  {
    hide FlightInv, EpochsInv;
    assert RotatedInv(c, z, a) && RotatedInv(c, z, b);
    var x :| x in z.announced && z.announced[x] == z.devices[a].group.value.epoch;
    AnnouncerRemains(c, z, x);
    if x != b {
      assert Landed(c, z, x, b);
    }
  }

  lemma AnnouncerRemains(c: Removal, z: World, x: Member)
    requires Inv(c, z) && x in z.announced
    ensures x in c.Remaining()
  {
  }

  lemma EpochBound(c: Removal, z: World, a: Member)
    requires Inv(c, z) && a in c.Remaining() && a in z.announced
    ensures a in z.devices && z.devices[a].group.Some?
    ensures c.epoch < z.devices[a].group.value.epoch <= c.epoch + |c.Remaining()|
  {
    hide FlightInv, ReachInv;
    assert RotatedInv(c, z, a);
    AnnouncedBound(c, z);
  }

  lemma SettledCount(c: Removal, ps: seq<Packet>, z: World)
    requires c.Valid() && Leads(c.Begin(), ps, z) && z.flight == {}
    ensures |ps| == |c.Remaining()| * (|c.Remaining()| - 1) + |c.stale|
  {
    hide Removal.Begin, Inv, Leads, Outstanding;
    BeginInv(c);
    BeginCounts(c);
    RunKeepsInv(c, c.Begin(), ps, z);
    EveryoneRotated(c, z);
    assert |z.announced| == |z.announced.Keys| == |c.Remaining()|;
    NothingOutstanding(|c.Remaining()|);
  }

  lemma NothingOutstanding(n: nat)
    ensures Outstanding(n, 0, n) == 0
  {
  }

  /** Once nothing is in flight, n(n - 1) distributions were delivered besides those from before the removal, every
      remaining device has rotated exactly once, and all agree on members and epoch, and hold no sender key of a
      removed device and each other's fresh ones, where none from before the removal came in last. The epoch is the one that the remover announced only if nobody else remains. */
  lemma CascadeSettles(c: Removal, ps: seq<Packet>, z: World) returns (e: nat)
    requires c.Valid() && Leads(c.Begin(), ps, z) && z.flight == {}
    ensures |ps| == |c.Remaining()| * (|c.Remaining()| - 1) + |c.stale|
    ensures c.epoch < e <= c.epoch + |c.Remaining()| && (e == c.epoch + 1 <==> c.Remaining() == {c.remover})
    ensures forall d :: d in c.Remaining() ==> SettledDevice(c, ps, z, d, e)
  {
    hide Removal.Begin, RotatedInv, EpochsInv, DevicesInv, FlightInv, ReachInv, Leads, Left, SettledDevice;
    SettledCount(c, ps, z);
    BeginInv(c);
    RunKeepsInv(c, c.Begin(), ps, z);
    EveryoneRotated(c, z);
    EpochBound(c, z, c.remover);
    e := z.devices[c.remover].group.value.epoch;
    RunDelivers(c.Begin(), ps, z);
    BeginEffect(c);
    forall d | d in c.Remaining()
      ensures SettledDevice(c, ps, z, d, e)
    {
      DeviceSettles(c, ps, z, d);
    }
    EpochGrows(c, ps, z, e);
  }

  /** Any other device announces more than the remover did. */
  lemma EpochGrows(c: Removal, ps: seq<Packet>, z: World, e: nat)
    requires Inv(c, z) && z.announced.Keys == c.Remaining() && c.epoch < e <= c.epoch + |c.Remaining()|
    requires forall d :: d in c.Remaining() ==> SettledDevice(c, ps, z, d, e)
    ensures e == c.epoch + 1 <==> c.Remaining() == {c.remover}
  {
    hide RotatedInv, FlightInv, ReachInv;
    RemoverRemains(c);
    if d :| d in c.Remaining() && d != c.remover {
      assert RotatedInv(c, z, d);
      assert SettledDevice(c, ps, z, d, e);
      AnnouncedLow(c, z, d);
    } else {
      assert c.Remaining() == {c.remover};
    }
  }

  lemma AnnouncedLow(c: Removal, z: World, d: Member)
    requires d in c.before && d in z.devices && d in z.announced && RotatedInv(c, z, d)
    ensures z.devices[d].group.Some? && z.announced[d] <= z.devices[d].group.value.epoch
  {
  }

  lemma DeviceSettles(c: Removal, ps: seq<Packet>, z: World, d: Member)
    requires Inv(c, z) && z.flight == {} && z.announced.Keys == c.Remaining() && d in c.Remaining()
    requires c.Valid() && Leads(c.Begin(), ps, z) && z.delivered == Elements(ps)
    ensures c.remover in z.devices && z.devices[c.remover].group.Some?
    ensures SettledDevice(c, ps, z, d, z.devices[c.remover].group.value.epoch)
  {
    hide RotatedInv, EpochsInv, DevicesInv, FlightInv, ReachInv, HoldsLast, Removal.Begin, Leads;
    EpochCaughtUp(c, z, c.remover, d);
    EpochCaughtUp(c, z, d, c.remover);
    RotatedFacts(c, z, d);
    forall a | a in c.Remaining() && a != d
      ensures HoldsLast(c, ps, z, a, d)
    {
      BeginInv(c);
      LastIsHeld(c, ps, z, a, d);
    }
  }

  lemma RotatedFacts(c: Removal, z: World, d: Member)
    requires Inv(c, z) && d in c.Remaining() && d in z.announced
    ensures d in z.devices && z.devices[d].group.Some? && z.devices[d].group.value.members == c.Remaining()
    ensures z.devices[d].generation == c.before[d].generation + 1 && z.devices[d].receivers.Keys !! c.gone
  {
    assert RotatedInv(c, z, d);
  }

  // ----- which chains are held -----

  lemma {:induction false} RunDelivers(w: World, ps: seq<Packet>, z: World)
    requires Leads(w, ps, z)
    ensures z.delivered == w.delivered + Elements(ps)
    decreases |ps|
  {
    if ps == [] {
      assert w.delivered + Elements([]) == w.delivered;
    } else {
      RunDelivers(Deliver(w, ps[0]), ps[1..], z);
      assert Elements(ps) == {ps[0]} + Elements(ps[1..]) by {
        assert ps == [ps[0]] + ps[1..];
      }
      assert w.delivered + {ps[0]} + Elements(ps[1..]) == w.delivered + Elements(ps);
    }
  }

  lemma DeliverChains(c: Removal, w: World, p: Packet, a: Member, b: Member)
    requires Inv(c, w) && p in w.flight && a in c.Remaining() && b in c.Remaining() && a != b && b in w.devices
    ensures b in Deliver(w, p).devices
    ensures var before, after := w.devices[b].receivers, Deliver(w, p).devices[b].receivers;
            if p.from == a && p.recipient == b then a in after && after[a] == p.invite.chain
            else (a in after <==> a in before) && (a in before ==> after[a] == before[a])
  {
    hide Deliver, RotatedInv, EpochsInv, DevicesInv, ReachInv, PacketsTo;
    if p in c.stale {
      StaleEffect(c, w, p);
    } else if p.recipient in w.announced {
      FreshFacts(c, w, p);
      LaterEffect(c, w, p);
    } else {
      FreshFacts(c, w, p);
      FirstEffect(c, w, p);
    }
  }

  lemma {:induction false} RunChains(c: Removal, w: World, ps: seq<Packet>, z: World, a: Member, b: Member)
    requires Inv(c, w) && Leads(w, ps, z) && a in c.Remaining() && b in c.Remaining() && a != b && b in w.devices
    ensures b in z.devices
    ensures var last := LastOf(ps, a, b); var before, after := w.devices[b].receivers, z.devices[b].receivers;
            if last.Some? then a in after && after[a] == last.value.invite.chain
            else (a in after <==> a in before) && (a in before ==> after[a] == before[a])
    decreases |ps|
  {
    hide Inv, Deliver;
    if ps == [] {
    } else {
      DeliverChains(c, w, ps[0], a, b);
      DeliverKeepsInv(c, w, ps[0]);
      RunChains(c, Deliver(w, ps[0]), ps[1..], z, a, b);
    }
  }

  lemma {:induction false} LastOfIs(ps: seq<Packet>, a: Member, b: Member)
    ensures LastOf(ps, a, b).Some? ==> LastOf(ps, a, b).value in ps && LastOf(ps, a, b).value.from == a && LastOf(ps, a, b).value.recipient == b
    ensures LastOf(ps, a, b).None? ==> forall p :: p in ps ==> !(p.from == a && p.recipient == b)
    decreases |ps|
  {
    if ps == [] {
    } else {
      LastOfIs(ps[1..], a, b);
      assert ps == [ps[0]] + ps[1..];
    }
  }

  /** Only what was in flight is delivered. */
  lemma {:induction false} DeliveredWasFresh(c: Removal, w: World, ps: seq<Packet>, z: World)
    requires Inv(c, w) && Leads(w, ps, z)
    ensures forall p :: p in ps && p !in c.stale ==> p.from in c.before && p.invite.chain == c.FreshChain(p.from)
    decreases |ps|
  {
    hide Inv, Deliver;
    if ps == [] {
    } else {
      DeliverKeepsInv(c, w, ps[0]);
      DeliveredWasFresh(c, Deliver(w, ps[0]), ps[1..], z);
      if ps[0] !in c.stale {
        FreshFacts(c, w, ps[0]);
      }
      assert ps == [ps[0]] + ps[1..];
    }
  }

  lemma LastIsHeld(c: Removal, ps: seq<Packet>, z: World, a: Member, d: Member)
    requires c.Valid() && Leads(c.Begin(), ps, z) && z.delivered == Elements(ps) && Inv(c, c.Begin())
    requires Inv(c, z) && z.flight == {} && z.announced.Keys == c.Remaining() && a in c.Remaining() && d in c.Remaining() && a != d
    requires d in z.devices
    ensures HoldsLast(c, ps, z, a, d)
  {
    hide Removal.Begin, RotatedInv, EpochsInv, DevicesInv, FlightInv, Leads;
    assert Landed(c, z, a, d);
    assert c.FreshPacket(a, d, z.announced) in ps;
    LastOfIs(ps, a, d);
    BeginEffect(c);
    RunChains(c, c.Begin(), ps, z, a, d);
    DeliveredWasFresh(c, c.Begin(), ps, z);
    var last := LastOf(ps, a, d).value;
    if last in c.stale {
      assert c.Old(last);
    }
  }

  /** A distribution from before the removal that comes in after the fresh one puts the old chain back, with which the
      sender's new messages cannot be read. */
  lemma LateDistributionUndoes(c: Removal, w: World, p: Packet)
    requires Inv(c, w) && p in w.flight && p in c.stale
    ensures p.recipient in Deliver(w, p).devices && p.from in c.before
    ensures var held := Deliver(w, p).devices[p.recipient].receivers;
            p.from in held && held[p.from] == p.invite.chain != c.FreshChain(p.from)
  {
    hide Deliver, RotatedInv, EpochsInv, DevicesInv, ReachInv, FlightInv;
    assert c.Old(p);
    StaleEffect(c, w, p);
  }

  // ----- why the remover must stay -----

  /** A device that removes itself is put back by the first device that hears of it. */
  lemma LeavingIsUndone(c: Removal, p: Packet)
    requires c.Agreed() && c.remover in c.gone && p in AfterRemoval(c.remover, c.before[c.remover], c.gone).packets
    requires p.recipient in c.Begin().devices
    ensures var d := Deliver(c.Begin(), p).devices[p.recipient]; d.group.Some? && c.remover in d.group.value.members
  {
    hide PacketsTo;
    var d := c.before[c.remover];
    assert Known(d.group).members * c.gone == c.gone;
    PacketsAre(c.remover, c.Begin().devices[c.remover], Known(d.group).members - c.gone - {c.remover});
  }

  /** And what a removed device sent before the removal puts it back where it comes in afterwards, however old it is. */
  lemma RemovedSenderReturns(c: Removal, w: World, b: Member, r: Member, invite: Invite)
    requires Inv(c, w) && b in c.Remaining() && b in w.announced && b in w.devices && r in c.gone && invite.epoch <= c.epoch
    ensures AfterInvite(b, w.devices[b], r, invite).device.group.Some?
    ensures AfterInvite(b, w.devices[b], r, invite).device.group.value.members == c.Remaining() + {r}
  {
    hide ReachInv, FlightInv, RotatedInv;
    EpochAbove(c, w, b);
    OlderInviteIgnored(b, w.devices[b], r, invite);
  }
}
