/**
 One call, offered to every device of an account. Each operation of a session manager is one step, and what two
 devices send each other arrives in order. All else that the devices do goes on beside it.
 */
module CallFanout {
  import opened Bytes
  import opened Calling

  datatype Op =
    | DoPlace(peer: string, callId: string, devices: seq<string>, reached: seq<string>, refused: bool, sdp: Option<Fingerprint>, now: nat)
    | DoPickUp(callId: string, sdp: Option<Fingerprint>, now: nat)
    | DoMediaUp(callId: string)
    | DoClose(callId: string, reason: Reason)
    | DoRedo(callId: string, answering: bool, sdp: Option<Fingerprint>, now: nat)
    | DoReceive(from: string, device: string, signal: Signal, now: nat)

  function Apply(m: Manager, op: Op): Did {
    match op
    case DoPlace(peer, callId, devices, reached, refused, sdp, now) => Place(m, peer, callId, devices, reached, refused, sdp, now)
    case DoPickUp(callId, sdp, now) => PickUp(m, callId, sdp, now)
    case DoMediaUp(callId) => MediaUp(m, callId)
    case DoClose(callId, reason) => Close(m, callId, reason)
    case DoRedo(callId, answering, sdp, now) => Redo(m, callId, if answering then RenegotiateAnswer else Renegotiate, sdp, now)
    case DoReceive(from, device, signal, now) => Receive(m, from, device, signal, now)
  }

  // ----- what no operation and no signal can do -----

  /** A call we placed has no fingerprint and no peer device until it is answered; any other has both. */
  predicate WellFormed(m: Manager) {
    m.Current().Some? ==>
      var call := m.Current().value;
      if call.direction == Outgoing && call.phase == Ringing then call.fingerprint.None? && call.peerDevice.None?
      else call.fingerprint.Some? && call.peerDevice.Some?
  }

  lemma OpKeepsWellFormed(m: Manager, op: Op)
    requires WellFormed(m)
    ensures WellFormed(Apply(m, op).manager)
  {
    hide ToEach, Others, Only;
  }

  /** Once pinned, the fingerprint and the peer device stay as they are to the end of the call, whatever is done
      and whatever arrives. */
  lemma PinNeverChanges(m: Manager, op: Op, callId: string)
    requires WellFormed(m) && m.Live(callId) && m.Current().value.fingerprint.Some?
    ensures var r := Apply(m, op).manager;
            && r.call.Some? && r.call.value.callId == callId
            && r.call.value.fingerprint == m.Current().value.fingerprint
            && r.call.value.peerDevice == m.Current().value.peerDevice
  {
    hide ToEach, Others, Only, Verify;
  }

  /** A fingerprint is pinned only out of an offer or an answer in which the peer's identity key signed exactly
      that fingerprint, for this call, this role and these two accounts. */
  lemma PinnedMeansSigned(m: Manager, op: Op, callId: string)
    requires !(m.Live(callId) && m.Current().value.fingerprint.Some?)
    requires var r := Apply(m, op).manager; r.Live(callId) && r.Current().value.fingerprint.Some?
    ensures op.DoReceive? && (op.signal.kind == Offer || op.signal.kind == Answer)
    ensures var call := Apply(m, op).manager.Current().value;
            && op.from == call.peerAccount && call.peerDevice == Some(op.device)
            && op.signal.signature == Some(Binding(op.from, callId, if op.signal.kind == Offer then Caller else Callee,
                                                   op.from, m.account, call.fingerprint.value, op.signal.seconds))
  {
    hide ToEach, Others, Only;
  }

  // ----- the parties and their channels -----

  /** Who calls whom, from which device, and with which fingerprint. */
  datatype Ring = Ring(callId: string, account: string, device: string, peer: string, fingerprint: Fingerprint, now: nat) {
    function OfferSignal(): Signal {
      Sign(Offer, callId, fingerprint, account, peer, now)
    }

    /** What a device does beside the signals of the party it has the call with: anything at all, signals that name
        the call from anybody else included, except that nobody else offers a call with this id. */
    predicate Beside(op: Op, party: string, devices: set<string>) {
      match op
      case DoPlace(_, id, _, _, _, _, _) => id != callId
      case DoReceive(from, device, signal, _) =>
        signal.callId != callId || (signal.kind != Offer && !(from == party && device in devices))
      case _ => true
    }
  }

  /** `answered` records the fingerprint that each callee device signed in its answer. */
  datatype World = World(caller: Manager, callees: map<string, Manager>, down: map<string, seq<Signal>>,
                         up: map<string, seq<Signal>>, answered: map<string, Fingerprint>)

  /** The signals about this call among those sent to one device, in order. */
  function Routed(sends: seq<Sent>, account: string, device: string, callId: string): seq<Signal> {
    if sends == [] then []
    else
      var n := |sends| - 1;
      Routed(sends[..n], account, device, callId)
      + if sends[n].account == account && sends[n].device == device && sends[n].signal.callId == callId
        then [sends[n].signal] else []
  }

  lemma {:induction false} RoutedMembers(sends: seq<Sent>, account: string, device: string, callId: string)
    ensures forall x :: x in Routed(sends, account, device, callId)
              <==> x.callId == callId && Sent(account, device, x) in sends
  {
    if sends == [] {
    } else {
      var n := |sends| - 1;
      RoutedMembers(sends[..n], account, device, callId);
      assert sends == sends[..n] + [sends[n]];
    }
  }

  function AfterCaller(c: Ring, w: World, did: Did): World {
    w.(caller := did.manager, down := map d | d in w.down :: w.down[d] + Routed(did.sends, c.peer, d, c.callId))
  }

  function AnswerIn(signals: seq<Signal>): Option<Fingerprint> {
    if signals == [] then None
    else if signals[0].kind == Answer && signals[0].sdp.Some? then signals[0].sdp
    else AnswerIn(signals[1..])
  }

  function AfterCallee(c: Ring, w: World, d: string, did: Did): World
    requires d in w.up
  {
    var out := Routed(did.sends, c.account, c.device, c.callId);
    w.(callees := w.callees[d := did.manager], up := w.up[d := w.up[d] + out],
       answered := if AnswerIn(out).Some? then w.answered[d := AnswerIn(out).value] else w.answered)
  }

  datatype Step =
    | CallerDoes(op: Op)
    | CalleeDoes(d: string, op: Op)
    | CallerHears(d: string, now: nat)
    | CalleeHears(d: string, now: nat)

  predicate Enabled(c: Ring, w: World, x: Step) {
    match x
    case CallerDoes(op) => c.Beside(op, c.peer, w.callees.Keys)
    case CalleeDoes(d, op) => d in w.callees && d in w.up && c.Beside(op, c.account, {c.device})
    case CallerHears(d, _) => d in w.up && w.up[d] != []
    case CalleeHears(d, _) => d in w.callees && d in w.up && d in w.down && w.down[d] != []
  }

  function After(c: Ring, w: World, x: Step): World
    requires Enabled(c, w, x)
  {
    match x
    case CallerDoes(op) => AfterCaller(c, w, Apply(w.caller, op))
    case CalleeDoes(d, op) => AfterCallee(c, w, d, Apply(w.callees[d], op))
    case CallerHears(d, now) =>
      AfterCaller(c, w.(up := w.up[d := w.up[d][1..]]), Receive(w.caller, c.peer, d, w.up[d][0], now))
    case CalleeHears(d, now) =>
      AfterCallee(c, w.(down := w.down[d := w.down[d][1..]]), d, Receive(w.callees[d], c.account, c.device, w.down[d][0], now))
  }

  // ----- the invariant -----

  predicate OfferWaits(down: seq<Signal>) {
    down != [] && down[0].kind == Offer
  }

  predicate HangupWaits(down: seq<Signal>) {
    exists i :: 0 <= i < |down| && down[i].kind == Hangup
  }

  /** A device that has the call, or is about to hear of it. */
  predicate Involved(c: Ring, callee: Manager, down: seq<Signal>) {
    callee.Live(c.callId) || OfferWaits(down)
  }

  /** The callee's side: the offer comes first and once, and the call on the device is the one it began. */
  ghost predicate CalleeInv(c: Ring, callee: Manager, down: seq<Signal>, up: seq<Signal>, answered: Option<Fingerprint>) {
    && callee.account == c.peer
    && (forall i :: 0 <= i < |down| ==> down[i].callId == c.callId)
    && (forall i :: 0 < i < |down| ==> down[i].kind != Offer)
    && (OfferWaits(down) ==> down[0] == c.OfferSignal() && answered.None? && !callee.Live(c.callId))
    && (callee.Live(c.callId) ==>
          var call := callee.Current().value;
          && call.peerAccount == c.account && call.peerDevice == Some(c.device) && call.direction == Incoming
          && call.fingerprint == Some(c.fingerprint)
          && (call.phase == Ringing ==> answered.None?))
    && (forall x :: x in up ==> x.callId == c.callId && x.kind != Offer)
    && (forall x :: x in up && x.kind == Answer ==> answered.Some? && x.sdp == answered)
  }

  function AnswerOf(w: World, d: string): Option<Fingerprint> {
    if d in w.answered then Some(w.answered[d]) else None
  }

  ghost predicate CalleesInv(c: Ring, w: World) {
    && w.callees.Keys == w.down.Keys == w.up.Keys
    && forall d :: d in w.callees ==> CalleeInv(c, w.callees[d], w.down[d], w.up[d], AnswerOf(w, d))
  }

  /** The caller's side: while it rings, all involved devices are on its list; once a device has answered, all
      others that are involved have been told to stop. */
  ghost predicate CallerInv(c: Ring, w: World)
    requires w.callees.Keys == w.down.Keys
  {
    && w.caller.account == c.account
    && (w.caller.Live(c.callId) ==>
          var call := w.caller.Current().value;
          && call.peerAccount == c.peer && call.direction == Outgoing
          && if call.phase == Ringing then
               && call.fingerprint.None? && call.peerDevice.None?
               && (forall d :: d in w.caller.ringing ==> d in w.callees)
               && forall d :: d in w.callees && Involved(c, w.callees[d], w.down[d]) ==> d in w.caller.ringing
             else
               && call.peerDevice.Some? && call.peerDevice.value in w.answered
               && call.fingerprint == Some(w.answered[call.peerDevice.value])
               && forall d :: d in w.callees && d != call.peerDevice.value && Involved(c, w.callees[d], w.down[d])
                    ==> HangupWaits(w.down[d]))
  }

  ghost predicate Inv(c: Ring, w: World) {
    CalleesInv(c, w) && CallerInv(c, w)
  }

  // ----- what an operation beside the call does to it -----

  /** The call of a manager, as an operation of that manager can change it. */
  predicate Moves(a: Session, b: Session) {
    b.(phase := a.phase, reason := a.reason) == a && (b.phase == Ringing ==> a.phase == Ringing)
  }

  lemma BesideOnDead(c: Ring, m: Manager, op: Op, party: string, devices: set<string>)
    requires c.Beside(op, party, devices) && !m.Live(c.callId)
    ensures var r := Apply(m, op);
            && !r.manager.Live(c.callId) && r.manager.account == m.account
            && forall x :: x in r.sends ==> x.signal.callId != c.callId
  {
    hide Others, Only, Verify;
  }

  lemma BesideOnLive(c: Ring, m: Manager, op: Op, party: string, devices: set<string>)
    requires c.Beside(op, party, devices) && m.Live(c.callId)
    requires var call := m.Current().value;
             call.direction == Outgoing && call.phase == Ringing ==>
               call.peerAccount == party && forall d :: d in m.ringing ==> d in devices
    ensures var r := Apply(m, op); var call := m.Current().value;
            && r.manager.account == m.account && r.manager.call.Some? && Moves(call, r.manager.call.value)
            && (r.manager.Live(c.callId) ==> r.manager.ringing == m.ringing)
            && (call.direction == Outgoing && call.phase == Ringing ==> r.manager.call.value.phase in {Ringing, Ended})
            && forall x :: x in r.sends && x.signal.callId == c.callId ==>
                 && x.signal.kind != Offer
                 && (x.signal.kind == Answer ==> call.direction == Incoming && call.phase == Ringing
                                                 && r.manager.call.value.phase == Connecting && |r.sends| == 1 && x.signal.sdp.Some?)
  {
    hide Others, Only, Verify;
  }

  // ----- a callee device moves -----

  lemma {:induction false} NoAnswerIn(signals: seq<Signal>)
    requires forall x :: x in signals ==> x.kind != Answer
    ensures AnswerIn(signals).None?
  {
    if signals == [] {
    } else {
      assert signals[0] in signals;
      NoAnswerIn(signals[1..]);
    }
  }

  lemma {:induction false} RoutedLength(sends: seq<Sent>, account: string, device: string, callId: string)
    ensures |Routed(sends, account, device, callId)| <= |sends|
  {
    if sends == [] {
    } else {
      RoutedLength(sends[..|sends| - 1], account, device, callId);
    }
  }

  /** What a device sends about the call: no offer, and its one answer at most. */
  ghost predicate OutInv(c: Ring, out: seq<Signal>, answered: Option<Fingerprint>) {
    && (forall x :: x in out ==> x.callId == c.callId && x.kind != Offer)
    && (forall x :: x in out && x.kind == Answer ==> answered.None? && AnswerIn(out).Some? && x.sdp == AnswerIn(out))
    && (answered.Some? ==> AnswerIn(out).None?)
  }

  lemma BesideOut(c: Ring, callee: Manager, down: seq<Signal>, up: seq<Signal>, answered: Option<Fingerprint>, op: Op)
    requires CalleeInv(c, callee, down, up, answered) && c.Beside(op, c.account, {c.device})
    ensures OutInv(c, Routed(Apply(callee, op).sends, c.account, c.device, c.callId), answered)
    ensures var r := Apply(callee, op);
            (AnswerIn(Routed(r.sends, c.account, c.device, c.callId)).Some? && r.manager.Live(c.callId)) ==>
              r.manager.Current().value.phase != Ringing
  {
    hide Apply, Routed;
    var r := Apply(callee, op);
    var out := Routed(r.sends, c.account, c.device, c.callId);
    RoutedMembers(r.sends, c.account, c.device, c.callId);
    RoutedLength(r.sends, c.account, c.device, c.callId);
    if callee.Live(c.callId) {
      BesideOnLive(c, callee, op, c.account, {c.device});
      if i :| 0 <= i < |out| && out[i].kind == Answer {
        assert out == [out[i]];
      } else {
        NoAnswerIn(out);
      }
    } else {
      BesideOnDead(c, callee, op, c.account, {c.device});
      NoAnswerIn(out);
    }
  }

  lemma CalleeDoesKeeps(c: Ring, callee: Manager, down: seq<Signal>, up: seq<Signal>, answered: Option<Fingerprint>, op: Op)
    requires CalleeInv(c, callee, down, up, answered) && c.Beside(op, c.account, {c.device})
    ensures var r := Apply(callee, op); var out := Routed(r.sends, c.account, c.device, c.callId);
            && CalleeInv(c, r.manager, down, up + out, Or(AnswerIn(out), answered))
            && (answered.Some? ==> AnswerIn(out).None?)
            && (Involved(c, r.manager, down) ==> Involved(c, callee, down))
  {
    hide Apply, Routed, AnswerIn;
    BesideOut(c, callee, down, up, answered, op);
    if callee.Live(c.callId) {
      BesideOnLive(c, callee, op, c.account, {c.device});
    } else {
      BesideOnDead(c, callee, op, c.account, {c.device});
    }
    OfferMeansSilent(c, callee, down, up, answered, op);
  }

  /** While the offer still waits, the device answers nothing. */
  lemma OfferMeansSilent(c: Ring, callee: Manager, down: seq<Signal>, up: seq<Signal>, answered: Option<Fingerprint>, op: Op)
    requires CalleeInv(c, callee, down, up, answered) && c.Beside(op, c.account, {c.device})
    ensures OfferWaits(down) ==> AnswerIn(Routed(Apply(callee, op).sends, c.account, c.device, c.callId)).None?
  {
    hide Apply, Routed, AnswerIn;
    var r := Apply(callee, op);
    RoutedMembers(r.sends, c.account, c.device, c.callId);
    if OfferWaits(down) {
      BesideOnDead(c, callee, op, c.account, {c.device});
      NoAnswerIn(Routed(r.sends, c.account, c.device, c.callId));
    }
  }

  lemma HeardSends(c: Ring, callee: Manager, down: seq<Signal>, up: seq<Signal>, answered: Option<Fingerprint>, now: nat)
    requires CalleeInv(c, callee, down, up, answered) && down != []
    ensures var r := Receive(callee, c.account, c.device, down[0], now);
            && r.manager.account == callee.account
            && (forall x :: x in r.sends ==> x.signal.kind == Hangup || x.signal.kind == Busy)
  {
    hide ToEach, Others, Only, Verify;
    HangupsOnly(c.account, Others(callee.ringing, c.device), c.callId);
    if callee.Live(c.callId) {
      HangupsOnly(callee.Current().value.peerAccount, Targets(callee, callee.Current().value), c.callId);
    }
  }

  /** The device hears the next signal of the caller: a call begins only with the offer, and a hangup ends it. */
  lemma HeardEffect(c: Ring, callee: Manager, down: seq<Signal>, up: seq<Signal>, answered: Option<Fingerprint>, now: nat)
    requires CalleeInv(c, callee, down, up, answered) && down != []
    ensures var r := Receive(callee, c.account, c.device, down[0], now);
            r.manager.Live(c.callId) ==>
              || (OfferWaits(down) && r.manager.Current().value
                    == Session(c.callId, c.account, Some(c.device), Incoming, Ringing, Some(c.fingerprint), None))
              || (!OfferWaits(down) && down[0].kind != Hangup && r.manager == callee)
  {
    hide ToEach, Others, Only;
  }

  lemma CalleeHearsKeeps(c: Ring, callee: Manager, down: seq<Signal>, up: seq<Signal>, answered: Option<Fingerprint>, now: nat)
    requires CalleeInv(c, callee, down, up, answered) && down != []
    ensures var r := Receive(callee, c.account, c.device, down[0], now); var out := Routed(r.sends, c.account, c.device, c.callId);
            && CalleeInv(c, r.manager, down[1..], up + out, Or(AnswerIn(out), answered))
            && AnswerIn(out).None?
            && (Involved(c, r.manager, down[1..]) ==> Involved(c, callee, down) && (HangupWaits(down) ==> HangupWaits(down[1..])))
  {
    hide Receive, Routed, AnswerIn;
    var r := Receive(callee, c.account, c.device, down[0], now);
    var out := Routed(r.sends, c.account, c.device, c.callId);
    HeardSends(c, callee, down, up, answered, now);
    HeardEffect(c, callee, down, up, answered, now);
    RoutedMembers(r.sends, c.account, c.device, c.callId);
    NoAnswerIn(out);
    if HangupWaits(down) && down[0].kind != Hangup {
      var i :| 0 <= i < |down| && down[i].kind == Hangup;
      assert down[1..][i - 1] == down[i];
    }
  }

  // ----- the caller moves -----

  /** More signals on the way to a device, none of them an offer. */
  lemma DownGrows(c: Ring, callee: Manager, down: seq<Signal>, more: seq<Signal>, up: seq<Signal>, answered: Option<Fingerprint>)
    requires CalleeInv(c, callee, down, up, answered)
    requires forall x :: x in more ==> x.callId == c.callId && x.kind != Offer
    ensures CalleeInv(c, callee, down + more, up, answered)
    ensures Involved(c, callee, down + more) <==> Involved(c, callee, down)
    ensures HangupWaits(down) || (exists x :: x in more && x.kind == Hangup) ==> HangupWaits(down + more)
  {
    var all := down + more;
    assert forall i :: |down| <= i < |all| ==> all[i] == more[i - |down|] && all[i] in more;
    if HangupWaits(down) {
      var i :| 0 <= i < |down| && down[i].kind == Hangup;
      assert all[i] == down[i];
    }
    if x :| x in more && x.kind == Hangup {
      var i :| 0 <= i < |more| && more[i] == x;
      assert all[|down| + i] == x;
    }
  }

  /** One signal fewer on its way from a device. */
  lemma UpShrinks(c: Ring, callee: Manager, down: seq<Signal>, up: seq<Signal>, answered: Option<Fingerprint>)
    requires CalleeInv(c, callee, down, up, answered) && up != []
    ensures CalleeInv(c, callee, down, up[1..], answered)
  {
  }

  /** What hearing from a device does to the caller's call. */
  lemma CallerHeard(c: Ring, m: Manager, d: string, s: Signal, now: nat)
    requires s.callId == c.callId && s.kind != Offer
    requires m.Live(c.callId) ==> m.Current().value.direction == Outgoing
    ensures var r := Receive(m, c.peer, d, s, now);
            && r.manager.account == m.account
            && (forall x :: x in r.sends ==> x.signal.kind == Hangup)
            && (!m.Live(c.callId) ==> !r.manager.Live(c.callId))
            && (r.manager.Live(c.callId) ==>
                  || r.manager == m
                  || (&& s.kind == Answer && s.sdp.Some? && d in m.ringing && m.Current().value.phase == Ringing
                      && m.Current().value.peerAccount == c.peer
                      && r.manager.Current().value
                           == m.Current().value.(phase := Connecting, fingerprint := s.sdp, peerDevice := Some(d))
                      && r.sends == ToEach(c.peer, Others(m.ringing, d), Plain(Hangup, c.callId))))
  {
    hide ToEach, Others, Only;
    HangupsOnly(c.peer, Others(m.ringing, d), c.callId);
    if m.Live(c.callId) {
      HangupsOnly(m.Current().value.peerAccount, Targets(m, m.Current().value), c.callId);
    }
  }

  lemma HangupsOnly(account: string, devices: seq<string>, callId: string)
    ensures forall x :: x in ToEach(account, devices, Plain(Hangup, callId)) ==> x.signal.kind == Hangup
  {
  }

  // ----- every step keeps the invariant -----

  lemma CalleeStep(c: Ring, w: World, z: World, d: string)
    requires Inv(c, w) && d in w.callees && z.caller == w.caller
    requires z.callees.Keys == z.down.Keys == z.up.Keys == w.callees.Keys
    requires forall i :: i in w.callees && i != d ==>
               z.callees[i] == w.callees[i] && z.down[i] == w.down[i] && z.up[i] == w.up[i] && AnswerOf(z, i) == AnswerOf(w, i)
    requires CalleeInv(c, z.callees[d], z.down[d], z.up[d], AnswerOf(z, d))
    requires AnswerOf(w, d).Some? ==> AnswerOf(z, d) == AnswerOf(w, d)
    requires forall i :: i in w.answered ==> i in z.answered && (i != d ==> z.answered[i] == w.answered[i])
    requires Involved(c, z.callees[d], z.down[d]) ==>
               Involved(c, w.callees[d], w.down[d]) && (HangupWaits(w.down[d]) ==> HangupWaits(z.down[d]))
    ensures Inv(c, z)
  {
    hide CalleeInv, Involved, HangupWaits;
    assert CalleesInv(c, z);
    CalleeStepCaller(c, w, z, d);
  }

  lemma CalleeStepCaller(c: Ring, w: World, z: World, d: string)
    requires Inv(c, w) && d in w.callees && z.caller == w.caller
    requires z.callees.Keys == z.down.Keys == w.callees.Keys
    requires forall i :: i in w.callees && i != d ==> z.callees[i] == w.callees[i] && z.down[i] == w.down[i]
    requires forall i :: i in w.answered ==> i in z.answered && z.answered[i] == w.answered[i]
    requires Involved(c, z.callees[d], z.down[d]) ==>
               Involved(c, w.callees[d], w.down[d]) && (HangupWaits(w.down[d]) ==> HangupWaits(z.down[d]))
    ensures CallerInv(c, z)
  {
    hide CalleeInv, Involved, HangupWaits;
  }

  lemma CalleeDoesKeepsInv(c: Ring, w: World, d: string, op: Op)
    requires Inv(c, w) && Enabled(c, w, CalleeDoes(d, op))
    ensures Inv(c, After(c, w, CalleeDoes(d, op)))
  {
    hide CalleeInv, Involved, HangupWaits, Apply, Routed, AnswerIn, CallerInv;
    CalleeDoesKeeps(c, w.callees[d], w.down[d], w.up[d], AnswerOf(w, d), op);
    CalleeStep(c, w, After(c, w, CalleeDoes(d, op)), d);
  }

  lemma CalleeHearsKeepsInv(c: Ring, w: World, d: string, now: nat)
    requires Inv(c, w) && Enabled(c, w, CalleeHears(d, now))
    ensures Inv(c, After(c, w, CalleeHears(d, now)))
  {
    hide CalleeInv, Involved, HangupWaits, Receive, Routed, AnswerIn, CallerInv;
    CalleeHearsKeeps(c, w.callees[d], w.down[d], w.up[d], AnswerOf(w, d), now);
    CalleeStep(c, w, After(c, w, CalleeHears(d, now)), d);
  }

  /** The caller's sends leave the devices' side intact, if there is no offer among them. */
  lemma CallerStepCallees(c: Ring, w: World, z: World, did: Did)
    requires CalleesInv(c, w) && z == AfterCaller(c, w, did)
    requires forall x :: x in did.sends && x.signal.callId == c.callId ==> x.signal.kind != Offer
    ensures CalleesInv(c, z)
    ensures forall d :: d in w.callees ==> (Involved(c, z.callees[d], z.down[d]) <==> Involved(c, w.callees[d], w.down[d]))
    ensures forall d :: d in w.callees && HangupWaits(w.down[d]) ==> HangupWaits(z.down[d])
    ensures forall d, x :: d in w.callees && x in did.sends && x == Sent(c.peer, d, Plain(Hangup, c.callId)) ==> HangupWaits(z.down[d])
  {
    hide CalleeInv, Involved, HangupWaits, Routed;
    forall d | d in w.callees
      ensures CalleeInv(c, z.callees[d], z.down[d], z.up[d], AnswerOf(z, d))
      ensures Involved(c, z.callees[d], z.down[d]) <==> Involved(c, w.callees[d], w.down[d])
      ensures HangupWaits(w.down[d]) ==> HangupWaits(z.down[d])
      ensures forall x :: x in did.sends && x == Sent(c.peer, d, Plain(Hangup, c.callId)) ==> HangupWaits(z.down[d])
    {
      var more := Routed(did.sends, c.peer, d, c.callId);
      RoutedMembers(did.sends, c.peer, d, c.callId);
      DownGrows(c, w.callees[d], w.down[d], more, w.up[d], AnswerOf(w, d));
      forall x | x in did.sends && x == Sent(c.peer, d, Plain(Hangup, c.callId))
        ensures HangupWaits(z.down[d])
      {
        assert x.signal in more;
      }
    }
  }

  lemma CallerDoesKeepsInv(c: Ring, w: World, op: Op)
    requires Inv(c, w) && Enabled(c, w, CallerDoes(op))
    ensures Inv(c, After(c, w, CallerDoes(op)))
  {
    hide CalleeInv, Involved, HangupWaits, Routed, Apply;
    if w.caller.Live(c.callId) {
      BesideOnLive(c, w.caller, op, c.peer, w.callees.Keys);
    } else {
      BesideOnDead(c, w.caller, op, c.peer, w.callees.Keys);
    }
    CallerStepCallees(c, w, After(c, w, CallerDoes(op)), Apply(w.caller, op));
  }

  lemma UpShrinksInv(c: Ring, w: World, d: string)
    requires Inv(c, w) && d in w.up && w.up[d] != []
    ensures Inv(c, w.(up := w.up[d := w.up[d][1..]]))
  {
    hide Involved, HangupWaits, CalleeInv;
    UpShrinks(c, w.callees[d], w.down[d], w.up[d], AnswerOf(w, d));
    var z := w.(up := w.up[d := w.up[d][1..]]);
    assert forall i :: i in w.callees ==> AnswerOf(z, i) == AnswerOf(w, i);
  }

  lemma HeadFacts(c: Ring, w: World, d: string)
    requires Inv(c, w) && d in w.up && w.up[d] != []
    ensures var s := w.up[d][0];
            s.callId == c.callId && s.kind != Offer && (s.kind == Answer ==> d in w.answered && s.sdp == Some(w.answered[d]))
  {
    assert CalleeInv(c, w.callees[d], w.down[d], w.up[d], AnswerOf(w, d));
    assert w.up[d][0] in w.up[d];
  }

  lemma {:induction false} OthersMembers(devices: seq<string>, device: string)
    ensures forall d :: d in Others(devices, device) <==> d in devices && d != device
  {
    if devices == [] {
    } else {
      var n := |devices| - 1;
      OthersMembers(devices[..n], device);
      assert devices == devices[..n] + [devices[n]];
    }
  }

  lemma ToEachMembers(account: string, devices: seq<string>, signal: Signal, d: string)
    requires d in devices
    ensures Sent(account, d, signal) in ToEach(account, devices, signal)
  {
    var i :| 0 <= i < |devices| && devices[i] == d;
    assert ToEach(account, devices, signal)[i] == Sent(account, d, signal);
  }

  lemma CallerHearsKeepsInv(c: Ring, w: World, d: string, now: nat)
    requires Inv(c, w) && Enabled(c, w, CallerHears(d, now))
    ensures Inv(c, After(c, w, CallerHears(d, now)))
  {
    hide CalleeInv, Involved, HangupWaits, Routed, Receive, ToEach, Others;
    var s := w.up[d][0];
    HeadFacts(c, w, d);
    UpShrinksInv(c, w, d);
    var y := w.(up := w.up[d := w.up[d][1..]]);
    var did := Receive(w.caller, c.peer, d, s, now);
    CallerHeard(c, w.caller, d, s, now);
    CallerStepCallees(c, y, After(c, w, CallerHears(d, now)), did);
    if did.manager.Live(c.callId) && did.manager != w.caller {
      OthersMembers(w.caller.ringing, d);
      forall i | i in w.callees && i != d && Involved(c, w.callees[i], w.down[i])
        ensures Sent(c.peer, i, Plain(Hangup, c.callId)) in did.sends
      {
        ToEachMembers(c.peer, Others(w.caller.ringing, d), Plain(Hangup, c.callId), i);
      }
    }
  }

  lemma StepKeepsInv(c: Ring, w: World, x: Step)
    requires Inv(c, w) && Enabled(c, w, x)
    ensures Inv(c, After(c, w, x))
  {
    hide Inv, After;
    match x {
      case CallerDoes(op) => CallerDoesKeepsInv(c, w, op);
      case CalleeDoes(d, op) => CalleeDoesKeepsInv(c, w, d, op);
      case CallerHears(d, now) => CallerHearsKeepsInv(c, w, d, now);
      case CalleeHears(d, now) => CalleeHearsKeepsInv(c, w, d, now);
    }
  }

  // ----- whole runs -----

  /** The caller has placed the call: the offer is on its way to the devices it could be sent to. None of the
      devices has a call with this id. */
  ghost predicate Placed(c: Ring, w: World, before: Manager, devices: seq<string>, reached: seq<string>) {
    && before.account == c.account && before.Current().None? && devices != [] && reached != []
    && (forall d :: d in reached ==> d in devices) && (forall d :: d in devices ==> d in w.callees)
    && w.caller == Place(before, c.peer, c.callId, devices, reached, false, Some(c.fingerprint), c.now).manager
    && w.callees.Keys == w.down.Keys == w.up.Keys && w.answered == map[]
    && forall d :: d in w.callees ==>
         && w.callees[d].account == c.peer && !w.callees[d].Live(c.callId)
         && w.up[d] == [] && w.down[d] == if d in reached then [c.OfferSignal()] else []
  }

  lemma PlacedInv(c: Ring, w: World, before: Manager, devices: seq<string>, reached: seq<string>)
    requires Placed(c, w, before, devices, reached)
    ensures Inv(c, w)
  {
    hide ToEach;
  }

  ghost predicate Leads(c: Ring, w: World, steps: seq<Step>, z: World)
    decreases |steps|
  {
    if steps == [] then z == w else Enabled(c, w, steps[0]) && Leads(c, After(c, w, steps[0]), steps[1..], z)
  }

  lemma {:induction false} RunKeepsInv(c: Ring, w: World, steps: seq<Step>, z: World)
    requires Inv(c, w) && Leads(c, w, steps, z)
    ensures Inv(c, z)
    decreases |steps|
  {
    hide Inv, After, Enabled;
    if steps == [] {
    } else {
      StepKeepsInv(c, w, steps[0]);
      RunKeepsInv(c, After(c, w, steps[0]), steps[1..], z);
    }
  }

  /** In every run: once the caller's call is connecting or active and nothing is on its way to a device, that
      device can have the call only if it is the one the call settled on; and each side's pinned fingerprint is
      the one that the other signed. */
  lemma OneDeviceHasTheCall(c: Ring, w: World, before: Manager, devices: seq<string>, reached: seq<string>, steps: seq<Step>, z: World)
    requires Placed(c, w, before, devices, reached) && Leads(c, w, steps, z)
    requires z.caller.Live(c.callId) && z.caller.Current().value.phase != Ringing
    ensures var call := z.caller.Current().value;
            && call.peerDevice.Some? && call.peerDevice.value in z.answered
            && call.fingerprint == Some(z.answered[call.peerDevice.value])
            && (forall d :: d in z.callees && d in z.down && z.down[d] == [] && z.callees[d].Live(c.callId) ==>
                  call.peerDevice == Some(d))
            && (forall d :: d in z.callees && z.callees[d].Live(c.callId) ==>
                  z.callees[d].Current().value.fingerprint == Some(c.fingerprint))
  {
    hide Placed, Leads;
    PlacedInv(c, w, before, devices, reached);
    RunKeepsInv(c, w, steps, z);
    forall d | d in z.callees
      ensures CalleeInv(c, z.callees[d], z.down[d], z.up[d], AnswerOf(z, d))
    {
    }
  }
}
