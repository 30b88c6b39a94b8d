/**
 Membership of a group as one device keeps it, in manager.ts: what an arriving sender-key distribution does
 to the member list and the epoch, and how a removal rotates the device's own sender key.
 */
module GroupMembership {
  import opened Bytes

  datatype Member = Member(accountId: string, deviceId: string)

  /** The sender keys a device creates are told apart by their number. */
  datatype Chain = Chain(owner: Member, generation: nat)

  datatype Group = Group(members: set<Member>, epoch: nat)

  datatype Invite = Invite(chain: Chain, members: set<Member>, epoch: nat)

  datatype Packet = Packet(from: Member, recipient: Member, invite: Invite)

  /** The stored group, how many sender keys we created, and the chains of the others. */
  datatype Device = Device(group: Option<Group>, generation: nat, receivers: map<Member, Chain>)

  function Known(group: Option<Group>): Group {
    if group.Some? then group.value else Group({}, 0)
  }

  /** A newer epoch replaces the list, an equal one is joined, an older one is ignored. Whoever sent the
      invite is a member, and so are we. */
  function Merged(self: Member, ours: Group, from: Member, invite: Invite): set<Member> {
    {from, self} + if invite.epoch > ours.epoch then invite.members
                   else if invite.epoch == ours.epoch then ours.members + invite.members
                   else ours.members
  }

  function RemovedBy(self: Member, ours: Group, from: Member, invite: Invite): set<Member> {
    if invite.epoch > ours.epoch then ours.members - Merged(self, ours, from, invite) else {}
  }

  function InviteOf(self: Member, d: Device): Invite {
    Invite(Chain(self, d.generation), Known(d.group).members, Known(d.group).epoch)
  }

  function PacketsTo(self: Member, d: Device, recipients: set<Member>): set<Packet> {
    set m | m in recipients :: Packet(self, m, InviteOf(self, d))
  }

  datatype Reply = Reply(device: Device, packets: set<Packet>)

  function AfterRotation(self: Member, d: Device, group: Group, removed: set<Member>): Reply {
    var next := Device(Some(Group(group.members, group.epoch + 1)), d.generation + 1, d.receivers - removed);
    Reply(next, PacketsTo(self, next, group.members - {self}))
  }

  /** acceptSenderKey */
  function AfterInvite(self: Member, d: Device, from: Member, invite: Invite): Reply {
    var ours := Known(d.group);
    var removed := RemovedBy(self, ours, from, invite);
    var group := Group(Merged(self, ours, from, invite), if invite.epoch > ours.epoch then invite.epoch else ours.epoch);
    var next := Device(Some(group), d.generation, d.receivers[from := invite.chain]);
    if removed == {} then Reply(next, {}) else AfterRotation(self, next, group, removed)
  }

  /** removeGroupMember and removeGroupAccount: nothing happens if nobody in `gone` is a member. */
  function AfterRemoval(self: Member, d: Device, gone: set<Member>): Reply {
    var removed := Known(d.group).members * gone;
    if removed == {} then Reply(d, {})
    else AfterRotation(self, d, Group(Known(d.group).members - gone, Known(d.group).epoch), removed)
  }

  function Account(members: set<Member>, accountId: string): set<Member> {
    set m | m in members && m.accountId == accountId
  }

  // ----- what an arriving distribution may do to the list -----

  /** The sender's chain is the last one that arrived; nobody else's is lost but that of a device that was removed. */
  lemma ChainsAfterInvite(self: Member, d: Device, from: Member, invite: Invite, m: Member)
    ensures var r := AfterInvite(self, d, from, invite).device;
            && (m == from ==> m in r.receivers && r.receivers[m] == invite.chain)
            && (m != from && m in d.receivers && m !in RemovedBy(self, Known(d.group), from, invite) ==>
                  m in r.receivers && r.receivers[m] == d.receivers[m])
            && (m in r.receivers ==> m == from || m in d.receivers)
            && (m in RemovedBy(self, Known(d.group), from, invite) ==> m !in r.receivers)
  {
    hide PacketsTo;
  }

  /** A device that was removed while another was away is not brought back by what the other's contacts sent before:
      of an older epoch only the sender is taken to be a member, and nothing is sent. */
  lemma OlderInviteIgnored(self: Member, d: Device, from: Member, invite: Invite)
    requires d.group.Some? && invite.epoch < d.group.value.epoch
    ensures var r := AfterInvite(self, d, from, invite);
            && r.packets == {} && r.device.generation == d.generation
            && r.device.group == Some(Group(d.group.value.members + {self, from}, d.group.value.epoch))
  {
    hide PacketsTo;
    assert {from, self} + d.group.value.members == d.group.value.members + {self, from};
  }

  /** At one epoch lists are joined: leaving somebody out removes nobody, and whoever is listed becomes a member. */
  lemma EqualInviteJoins(self: Member, d: Device, from: Member, invite: Invite)
    requires d.group.Some? && invite.epoch == d.group.value.epoch
    ensures var r := AfterInvite(self, d, from, invite);
            && r.packets == {} && r.device.generation == d.generation && r.device.group.Some?
            && r.device.group.value.epoch == d.group.value.epoch
            && forall m :: m in r.device.group.value.members <==>
                 m in d.group.value.members || m in invite.members || m == self || m == from
  {
    hide PacketsTo;
  }

  /** A newer epoch declares the list, the sender and ourselves apart; it costs a rotation, at one epoch more, exactly
      if it leaves out somebody whom we knew. */
  lemma NewerInviteDeclares(self: Member, d: Device, from: Member, invite: Invite)
    requires invite.epoch > Known(d.group).epoch
    ensures var r := AfterInvite(self, d, from, invite); var rotates := !(Known(d.group).members <= invite.members + {self, from});
            && r.device.group == Some(Group(invite.members + {self, from}, if rotates then invite.epoch + 1 else invite.epoch))
            && r.device.generation == (if rotates then d.generation + 1 else d.generation)
            && forall p :: p in r.packets <==>
                 rotates && p == Packet(self, p.recipient, InviteOf(self, r.device))
                 && p.recipient in invite.members + {from} - {self}
  {
    var ours := Known(d.group);
    var removed := RemovedBy(self, ours, from, invite);
    assert Merged(self, ours, from, invite) == invite.members + {self, from};
    assert removed == {} <==> ours.members <= invite.members + {self, from};
  }

  // ----- an account is more than a device -----

  /** Removing an account cuts all its devices off at once: nobody else goes, none of them is sent the new sender key,
      and none of theirs is kept. If it has no device in the group, nothing happens. */
  lemma AccountIsCutOff(self: Member, d: Device, accountId: string, m: Member)
    requires self.accountId != accountId
    ensures var members := Known(d.group).members;
            var r := AfterRemoval(self, d, Account(members, accountId)); var any := exists x :: x in members && x.accountId == accountId;
            && (!any ==> r == Reply(d, {}))
            && (any ==>
                  && r.device.group.Some? && r.device.group.value.epoch == Known(d.group).epoch + 1
                  && r.device.generation == d.generation + 1
                  && (m in r.device.group.value.members <==> m in members && m.accountId != accountId)
                  && (m in r.device.receivers <==> m in d.receivers && !(m in members && m.accountId == accountId))
                  && (Packet(self, m, InviteOf(self, r.device)) in r.packets <==> m in members && m.accountId != accountId && m != self)
                  && forall p :: p in r.packets ==> p.recipient.accountId != accountId)
  {
    var members := Known(d.group).members;
    var gone := Account(members, accountId);
    assert members * gone == gone;
    if x :| x in members && x.accountId == accountId {
      assert x in gone;
    } else {
      assert gone == {};
    }
  }

  /** Removed device by device, the account's other devices are sent the new key on the way. */
  lemma DeviceByDeviceTells(self: Member, d: Device, first: Member, second: Member)
    requires first in Known(d.group).members && second in Known(d.group).members
    requires first.accountId == second.accountId && first != second && second != self
    ensures var r := AfterRemoval(self, d, {first}); Packet(self, second, InviteOf(self, r.device)) in r.packets
  {
    assert Known(d.group).members * {first} == {first};
  }

  // ----- the object that the source mutates -----

  datatype StoredGroup = StoredGroup(members: seq<Member>, epoch: nat)

  lemma NobodyTold(self: Member, d: Device)
    ensures PacketsTo(self, d, Elements([])) == {}
  {
  }

  class GroupDevice {
    const self: Member
    const groupId: string
    var group: Option<StoredGroup>
    var generation: nat
    var receivers: map<Member, Chain>

    constructor (self: Member, groupId: string)
      ensures this.self == self && this.groupId == groupId && Snapshot() == Device(None, 0, map[])
    {
      this.self, this.groupId, group, generation, receivers := self, groupId, None, 0, map[];
    }

    function Snapshot(): Device
      reads this
    {
      Device(if group.Some? then Some(Group(Elements(group.value.members), group.value.epoch)) else None, generation, receivers)
    }

    /** Every member on the list but ourselves. */
    method DistributeSenderKey(members: seq<Member>) returns (recipients: seq<Member>)
      ensures Elements(recipients) == Elements(members) - {self}
    {
      recipients := [];
      for i := 0 to |members|
        invariant Elements(recipients) == Elements(members[..i]) - {self}
      {
        ElementsOfPrefix(members, i);
        if members[i] != self {
          ElementsOfAppend(recipients, members[i]);
          recipients := recipients + [members[i]];
        }
      }
      assert members[..|members|] == members;
    }

    method RotateAfterRemoval(stored: StoredGroup, removed: seq<Member>) returns (recipients: seq<Member>)
      modifies this
      ensures Reply(Snapshot(), PacketsTo(self, Snapshot(), Elements(recipients)))
           == AfterRotation(self, old(Snapshot()), Group(Elements(stored.members), stored.epoch), Elements(removed))
    {
      group := Some(stored.(epoch := stored.epoch + 1));
      for i := 0 to |removed|
        invariant generation == old(generation) && group == Some(stored.(epoch := stored.epoch + 1))
        invariant receivers == old(receivers) - Elements(removed[..i])
      {
        ElementsOfPrefix(removed, i);
        receivers := receivers - {removed[i]};
      }
      assert removed[..|removed|] == removed;
      generation := generation + 1;
      recipients := DistributeSenderKey(stored.members);
    }

    /** The list with the new members added at its end. */
    method JoinMembers(base: seq<Member>, more: seq<Member>) returns (members: seq<Member>)
      ensures Elements(members) == Elements(base) + Elements(more)
    {
      members := base;
      for i := 0 to |more|
        invariant Elements(members) == Elements(base) + Elements(more[..i])
      {
        ElementsOfPrefix(more, i);
        if more[i] !in members {
          ElementsOfAppend(members, more[i]);
          members := members + [more[i]];
        }
      }
      assert more[..|more|] == more;
    }

    method Missing(before: seq<Member>, after: seq<Member>) returns (missing: seq<Member>)
      ensures Elements(missing) == Elements(before) - Elements(after)
    {
      missing := [];
      for i := 0 to |before|
        invariant Elements(missing) == Elements(before[..i]) - Elements(after)
      {
        ElementsOfPrefix(before, i);
        if before[i] !in after {
          ElementsOfAppend(missing, before[i]);
          missing := missing + [before[i]];
        }
      }
      assert before[..|before|] == before;
    }

    /** `named` is the group of the distribution inside the invite. */
    method AcceptSenderKey(from: Member, named: string, chain: Chain, listed: seq<Member>, epoch: nat)
      returns (accepted: bool, recipients: seq<Member>)
      modifies this
      ensures accepted <==> named == groupId
      ensures Reply(Snapshot(), PacketsTo(self, Snapshot(), Elements(recipients)))
           == if accepted then AfterInvite(self, old(Snapshot()), from, Invite(chain, Elements(listed), epoch))
              else Reply(old(Snapshot()), {})
    {
      NobodyTold(self, Snapshot());
      if named != groupId {
        return false, [];
      }
      accepted := true;
      receivers := receivers[from := chain];
      var ours := if group.Some? then group.value else StoredGroup([], 0);
      var members: seq<Member> := [];
      if epoch > ours.epoch {
        members := JoinMembers([], listed);
      } else if epoch == ours.epoch {
        members := JoinMembers(ours.members, listed);
      } else {
        members := ours.members;
      }
      members := JoinMembers(members, [from, self]);
      var removed: seq<Member> := [];
      if epoch > ours.epoch {
        removed := Missing(ours.members, members);
      }
      var stored := StoredGroup(members, if epoch > ours.epoch then epoch else ours.epoch);
      group := Some(stored);
      ghost var before, invite := old(Snapshot()), Invite(chain, Elements(listed), epoch);
      assert Elements(members) == Merged(self, Known(before.group), from, invite);
      assert Elements(removed) == RemovedBy(self, Known(before.group), from, invite);
      recipients := [];
      NobodyTold(self, Snapshot());
      if |removed| > 0 {
        assert removed[0] in Elements(removed);
        recipients := RotateAfterRemoval(stored, removed);
      }
    }

    method RemoveGroupMember(member: Member) returns (recipients: seq<Member>)
      modifies this
      ensures Reply(Snapshot(), PacketsTo(self, Snapshot(), Elements(recipients)))
           == AfterRemoval(self, old(Snapshot()), {member})
    {
      recipients := RemoveAll([member]);
      assert Elements([member]) == {member};
    }

    method RemoveGroupAccount(accountId: string) returns (recipients: seq<Member>)
      modifies this
      ensures Reply(Snapshot(), PacketsTo(self, Snapshot(), Elements(recipients)))
           == AfterRemoval(self, old(Snapshot()), Account(Known(old(Snapshot()).group).members, accountId))
    {
      NobodyTold(self, Snapshot());
      if group.None? {
        assert Known(Snapshot().group).members * Account(Known(Snapshot().group).members, accountId) == {};
        return [];
      }
      var gone: seq<Member> := [];
      var members := group.value.members;
      for i := 0 to |members|
        invariant Snapshot() == old(Snapshot()) && Elements(gone) == Account(Elements(members[..i]), accountId)
      {
        ElementsOfPrefix(members, i);
        if members[i].accountId == accountId {
          ElementsOfAppend(gone, members[i]);
          gone := gone + [members[i]];
        }
      }
      assert members[..|members|] == members;
      assert Elements(gone) == Account(Known(Snapshot().group).members, accountId);
      recipients := RemoveAll(gone);
    }

    method RemoveAll(gone: seq<Member>) returns (recipients: seq<Member>)
      modifies this
      ensures Reply(Snapshot(), PacketsTo(self, Snapshot(), Elements(recipients)))
           == AfterRemoval(self, old(Snapshot()), Elements(gone))
    {
      NobodyTold(self, Snapshot());
      if group.None? {
        return [];
      }
      var kept := Missing(group.value.members, gone);
      var removed := Missing(group.value.members, kept);
      assert Elements(removed) == Known(Snapshot().group).members * Elements(gone);
      if |removed| == 0 {
        return [];
      }
      assert removed[0] in Elements(removed);
      recipients := RotateAfterRemoval(StoredGroup(kept, group.value.epoch), removed);
    }
  }
}
