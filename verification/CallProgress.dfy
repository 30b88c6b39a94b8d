/**
 A call that is answered in time comes up on both sides, with the fingerprint that each signed; one that is not does
 not. And hanging up on one side ends it on the other.
 */
module CallProgress {
  import opened Bytes
  import opened Calling
  import opened CallFanout

  /** A signature made at one time is young enough, and not from too far ahead, at another. It carries whole seconds,
      and none at all in the first second of the clock. */
  predicate InTime(made: nat, now: nat) {
    && made / 1000 > 0
    && now as int - made / 1000 * 1000 <= CALL_SIGNAL_MAX_AGE_MS && made / 1000 * 1000 - now as int <= CALL_SIGNAL_MAX_SKEW_MS
  }

  /** What was signed verifies exactly for its sender and recipient, in time, and yields the fingerprint that was signed. */
  lemma SignedVerifiesIff(kind: Kind, callId: string, fingerprint: Fingerprint, from: string, recipient: string, made: nat,
                          sender: string, us: string, now: nat)
    requires RoleOf(kind).Some?
    ensures Verify(Sign(kind, callId, fingerprint, from, recipient, made), sender, us, now)
         == if sender == from && us == recipient && InTime(made, now) then Some(fingerprint) else None
  {
  }

  /** And nothing verifies that was not signed as it arrives, or that is too old or too far ahead. */
  lemma VerifiedIff(s: Signal, sender: string, us: string, now: nat)
    ensures Verify(s, sender, us, now).Some? <==>
              && RoleOf(s.kind).Some? && s.sdp.Some? && s.seconds > 0 && InTime(s.seconds * 1000, now)
              && s.signature == Some(Binding(sender, s.callId, RoleOf(s.kind).value, sender, us, s.sdp.value, s.seconds))
    ensures Verify(s, sender, us, now).Some? ==> Verify(s, sender, us, now) == s.sdp
  {
  }

  // ----- from the offer to the answer -----

  /** A placed call that rings: nobody has answered yet. */
  predicate Rings(m: Manager, callId: string, peer: string) {
    && m.Live(callId)
    && m.call == Some(Session(callId, peer, None, Outgoing, Ringing, None, None))
  }

  /** Every device that could be reached gets the same signed offer, and the call rings. */
  lemma PlacedRings(m: Manager, peer: string, callId: string, devices: seq<string>, reached: seq<string>, fingerprint: Fingerprint, now: nat)
    requires m.Current().None? && reached != [] && forall d :: d in reached ==> d in devices
    ensures var r := Place(m, peer, callId, devices, reached, false, Some(fingerprint), now);
            && Rings(r.manager, callId, peer) && r.manager.ringing == devices && r.manager.account == m.account
            && |r.sends| == |reached|
            && forall i :: 0 <= i < |reached| ==> r.sends[i] == Sent(peer, reached[i], Sign(Offer, callId, fingerprint, m.account, peer, now))
  {
    assert reached[0] in devices;
  }

  /** A device that is free rings if the offer is in time, and pins its fingerprint. */
  lemma OfferRingsIff(m: Manager, from: string, device: string, callId: string, fingerprint: Fingerprint, made: nat, now: nat)
    requires m.Current().None?
    ensures Receive(m, from, device, Sign(Offer, callId, fingerprint, from, m.account, made), now)
         == Did(if InTime(made, now)
                then m.(call := Some(Session(callId, from, Some(device), Incoming, Ringing, Some(fingerprint), None)), ringing := [device])
                else m, [])
  {
    SignedVerifiesIff(Offer, callId, fingerprint, from, m.account, made, from, m.account, now);
  }

  /** A device that rings answers to the one that called. */
  lemma AnsweredSends(m: Manager, callId: string, peer: string, device: string, pinned: Fingerprint, fingerprint: Fingerprint, now: nat)
    requires m.call == Some(Session(callId, peer, Some(device), Incoming, Ringing, Some(pinned), None))
    ensures PickUp(m, callId, Some(fingerprint), now)
         == Did(m.(call := Some(Session(callId, peer, Some(device), Incoming, Connecting, Some(pinned), None))),
                [Sent(peer, device, Sign(Answer, callId, fingerprint, m.account, peer, now))])
  {
  }

  /** The answer of a device that rings connects a call exactly if it is in time; the other devices are told to stop. */
  lemma AnswerConnectsIff(m: Manager, peer: string, device: string, callId: string, fingerprint: Fingerprint, made: nat, now: nat)
    requires Rings(m, callId, peer) && device in m.ringing
    ensures Receive(m, peer, device, Sign(Answer, callId, fingerprint, peer, m.account, made), now)
         == if InTime(made, now)
            then Did(m.(call := Some(Session(callId, peer, Some(device), Outgoing, Connecting, Some(fingerprint), None)), ringing := Only(m.ringing, device)),
                     ToEach(peer, Others(m.ringing, device), Plain(Hangup, callId)))
            else Did(m, [])
  {
    hide Only, Others, ToEach;
    SignedVerifiesIff(Answer, callId, fingerprint, peer, m.account, made, peer, m.account, now);
  }

  /** The whole of it, with two free accounts: device d of the callee rings, answers, and both sides are connected,
      each with the other's fingerprint, exactly if offer and answer arrive in time. */
  lemma CallComesUpIff(caller: Manager, callee: Manager, callerDevice: string, d: string, callId: string, devices: seq<string>,
                       ours: Fingerprint, theirs: Fingerprint, placed: nat, rung: nat, picked: nat, heard: nat)
    requires caller.Current().None? && callee.Current().None? && d in devices
    ensures var place := Place(caller, callee.account, callId, devices, devices, false, Some(ours), placed);
            var offer := Sign(Offer, callId, ours, caller.account, callee.account, placed);
            var ring := Receive(callee, caller.account, callerDevice, offer, rung).manager;
            var pick := PickUp(ring, callId, Some(theirs), picked);
            var answer := Sign(Answer, callId, theirs, callee.account, caller.account, picked);
            var up := Receive(place.manager, callee.account, d, answer, heard).manager;
            && Sent(callee.account, d, offer) in place.sends
            && (Sent(caller.account, callerDevice, answer) in pick.sends <==> InTime(placed, rung))
            && (InTime(placed, rung) && InTime(picked, heard) ==>
                  && pick.manager.call == Some(Session(callId, caller.account, Some(callerDevice), Incoming, Connecting, Some(ours), None))
                  && up.call == Some(Session(callId, callee.account, Some(d), Outgoing, Connecting, Some(theirs), None))
                  && MediaUp(pick.manager, callId).manager.call.value.phase == Active
                  && MediaUp(up, callId).manager.call.value.phase == Active)
            && (!InTime(picked, heard) ==> up == place.manager)
  {
    hide Place, Receive, PickUp, Only, Others, ToEach;
    PlacedRings(caller, callee.account, callId, devices, devices, ours, placed);
    var place := Place(caller, callee.account, callId, devices, devices, false, Some(ours), placed);
    var i :| 0 <= i < |devices| && devices[i] == d;
    assert place.sends[i] == Sent(callee.account, d, Sign(Offer, callId, ours, caller.account, callee.account, placed));
    OfferRingsIff(callee, caller.account, callerDevice, callId, ours, placed, rung);
    var ring := Receive(callee, caller.account, callerDevice, Sign(Offer, callId, ours, caller.account, callee.account, placed), rung).manager;
    if InTime(placed, rung) {
      AnsweredSends(ring, callId, caller.account, callerDevice, ours, theirs, picked);
    } else {
      NothingToPickUp(ring, callId, theirs, picked);
    }
    AnswerConnectsIff(place.manager, callee.account, d, callId, theirs, picked, heard);
  }

  lemma NothingToPickUp(m: Manager, callId: string, fingerprint: Fingerprint, now: nat)
    requires m.Current().None?
    ensures PickUp(m, callId, Some(fingerprint), now) == Did(m, [])
  {
  }

  /** Whoever hangs up on a settled call tells the peer device, and the call ends there. */
  lemma HangupEndsBoth(m: Manager, other: Manager, callId: string, device: string, reason: Reason)
    requires m.Live(callId) && m.Current().value.peerDevice.Some? && m.Current().value.peerAccount == other.account
    requires other.Live(callId) && other.Current().value.peerAccount == m.account && other.Current().value.peerDevice == Some(device)
    ensures var r := Close(m, callId, reason);
            && r.manager.Current().None? && r.sends == [Sent(other.account, m.Current().value.peerDevice.value, Plain(Hangup, callId))]
            && Receive(other, m.account, device, Plain(Hangup, callId), 0).manager.Current().None?
  {
  }

  /** The end of a call is a refusal exactly on the side that placed it, while it rings. */
  lemma HangupReason(m: Manager, from: string, device: string, callId: string)
    requires m.Live(callId) && m.Current().value.peerAccount == from
    requires m.Current().value.peerDevice.None? || m.Current().value.peerDevice == Some(device)
    ensures var before := m.Current().value; var after := Receive(m, from, device, Plain(Hangup, callId), 0).manager.call;
            && after.Some? && after.value.phase == Ended
            && (after.value.reason == Some(Declined) <==> before.direction == Outgoing && before.phase == Ringing)
            && (after.value.reason == Some(HungUp) <==> before.direction == Incoming || before.phase != Ringing)
  {
  }

  /** Whoever calls a device that has another call hears that it is busy, and the call is over. */
  lemma BusyEndsTheCall(m: Manager, callId: string, peer: string, device: string, callee: Manager, offer: Signal, callerDevice: string, now: nat)
    requires Rings(m, callId, peer) && callee.Current().Some? && !callee.Live(callId)
    requires offer.kind == Offer && offer.callId == callId
    ensures var r := Receive(callee, m.account, callerDevice, offer, now);
            && r == Did(callee, [Sent(m.account, callerDevice, Plain(Busy, callId))])
            && Receive(m, peer, device, Plain(Busy, callId), now).manager.Current().None?
  {
  }

  /** A call that reached nobody, or a device whose identity key has changed, is over at once. */
  lemma PlacedInVain(m: Manager, peer: string, callId: string, devices: seq<string>, reached: seq<string>, refused: bool,
                     sdp: Option<Fingerprint>, now: nat)
    requires m.Current().None? && (reached == [] || refused)
    ensures Place(m, peer, callId, devices, reached, refused, sdp, now).manager.Current().None?
  {
  }

  /** While there is a call, no other is placed and no offer is taken in. */
  lemma OneCallAtATime(m: Manager, peer: string, device: string, callId: string, devices: seq<string>, reached: seq<string>, refused: bool,
                       sdp: Option<Fingerprint>, offer: Signal, now: nat)
    requires m.Current().Some? && offer.kind == Offer
    ensures Place(m, peer, callId, devices, reached, refused, sdp, now) == Did(m, [])
    ensures Receive(m, peer, device, offer, now)
         == Did(m, if offer.callId == m.Current().value.callId then [] else [Sent(peer, device, Plain(Busy, offer.callId))])
  {
  }

  /** Where there is no call, nobody is held to ring. */
  predicate NobodyRings(m: Manager) {
    m.Current().None? ==> m.ringing == []
  }

  lemma OpKeepsNobodyRings(m: Manager, op: Op)
    requires NobodyRings(m)
    ensures NobodyRings(Apply(m, op).manager)
  {
    hide Verify, Only, Others, ToEach;
  }

  /** A call that is over keeps the reason for which it ended. */
  lemma FirstReasonStays(m: Manager, reason: Reason)
    requires m.call.Some? && m.call.value.phase == Ended
    ensures Finish(m, reason).call == m.call && Finish(m, reason).ringing == []
  {
  }

  /** Only the peer device ends a call, once there is one. */
  lemma StrangersCannotEnd(m: Manager, from: string, device: string, s: Signal, now: nat)
    requires m.Current().Some? && m.Current().value.peerDevice.Some? && m.Current().value.phase != Ringing
    requires from != m.Current().value.peerAccount || Some(device) != m.Current().value.peerDevice || s.callId != m.Current().value.callId
    ensures Receive(m, from, device, s, now).manager == m
  {
    hide Verify, Only, Others, ToEach;
  }

  /** New media parameters are taken exactly from the peer device, in time, with the fingerprint that is pinned, and never
      while the call rings; with any other the call is over, and the peer is told. */
  lemma RenegotiatesIff(m: Manager, from: string, device: string, s: Signal, now: nat)
    requires s.kind == Renegotiate || s.kind == RenegotiateAnswer
    requires m.Live(s.callId) && m.Current().value.peerAccount == from && m.Current().value.peerDevice == Some(device)
    ensures var call := m.Current().value; var r := Receive(m, from, device, s, now);
            var good := call.phase != Ringing && call.fingerprint.Some? && Verify(s, from, m.account, now) == call.fingerprint;
            && (good ==> r == Did(m, []))
            && (!good ==> r.manager.Current().None? && r.manager.call == Some(call.(phase := Ended, reason := Some(Failed)))
                          && r.sends == [Sent(from, device, Plain(Hangup, s.callId))])
  {
    hide Verify, Only, Others;
  }

  /** What one side of a settled call sends to renegotiate goes to the other, which takes it exactly if it is in time and
      its fingerprint is the one pinned there; otherwise the call is over there. */
  lemma RenegotiationReaches(m: Manager, other: Manager, callId: string, ours: string, theirs: string, answering: bool,
                             fingerprint: Fingerprint, made: nat, now: nat)
    requires m.Live(callId) && m.Current().value.peerAccount == other.account && m.Current().value.peerDevice == Some(theirs)
    requires other.Live(callId) && other.Current().value.peerAccount == m.account && other.Current().value.peerDevice == Some(ours)
    requires other.Current().value.phase != Ringing && other.Current().value.fingerprint.Some?
    ensures var kind := if answering then RenegotiateAnswer else Renegotiate;
            var sent := Redo(m, callId, kind, Some(fingerprint), made);
            var s := Sign(kind, callId, fingerprint, m.account, other.account, made);
            && sent == Did(m, [Sent(other.account, theirs, s)])
            && (Receive(other, m.account, ours, s, now).manager.Current().Some? <==>
                  InTime(made, now) && other.Current().value.fingerprint == Some(fingerprint))
  {
    hide Verify, Receive;
    var kind := if answering then RenegotiateAnswer else Renegotiate;
    SignedVerifiesIff(kind, callId, fingerprint, m.account, other.account, made, m.account, other.account, now);
    RenegotiatesIff(other, m.account, ours, Sign(kind, callId, fingerprint, m.account, other.account, made), now);
  }

  // ----- who is told -----

  lemma {:induction false} OthersAre(devices: seq<string>, device: string)
    ensures forall d :: d in Others(devices, device) <==> d in devices && d != device
    ensures forall d :: d in Only(devices, device) <==> d in devices && d == device
  {
    if devices == [] {
    } else {
      var n := |devices| - 1;
      OthersAre(devices[..n], device);
      assert devices == devices[..n] + [devices[n]];
    }
  }

  /** When an answer connects the call, exactly the other devices are told to stop ringing. */
  lemma OthersAreTold(m: Manager, peer: string, device: string, callId: string, fingerprint: Fingerprint, made: nat, now: nat, d: string)
    requires Rings(m, callId, peer) && device in m.ringing && InTime(made, now)
    ensures var r := Receive(m, peer, device, Sign(Answer, callId, fingerprint, peer, m.account, made), now);
            && (Sent(peer, d, Plain(Hangup, callId)) in r.sends <==> d in m.ringing && d != device)
            && (d in r.manager.ringing <==> d == device)
  {
    hide Receive, Only, Others;
    AnswerConnectsIff(m, peer, device, callId, fingerprint, made, now);
    OthersAre(m.ringing, device);
    var others := Others(m.ringing, device);
    if d in others {
      var i :| 0 <= i < |others| && others[i] == d;
      assert ToEach(peer, others, Plain(Hangup, callId))[i] == Sent(peer, d, Plain(Hangup, callId));
    }
  }
}
