/**
 Call set-up on one device: the legal transitions of a call, in calling.ts, and the operations of the session
 manager on its one call, in manager.ts. An account's devices sign with one identity key, named by the account.
 */
module Calling {
  import opened Bytes

  const CALL_SIGNAL_MAX_AGE_MS: nat := 120_000
  const CALL_SIGNAL_MAX_SKEW_MS: nat := 60_000

  type Fingerprint = nat

  datatype Kind = Offer | Answer | Candidate | Hangup | Busy | Renegotiate | RenegotiateAnswer

  datatype Role = Caller | Callee | Reoffer | Reanswer

  function RoleOf(kind: Kind): Option<Role> {
    match kind
    case Offer => Some(Caller)
    case Answer => Some(Callee)
    case Renegotiate => Some(Reoffer)
    case RenegotiateAnswer => Some(Reanswer)
    case _ => None
  }

  /** The signed transcript. */
  datatype Binding = Binding(signer: string, callId: string, role: Role, from: string, recipient: string,
                             fingerprint: Fingerprint, seconds: nat)

  /** `sdp` is the fingerprint found in the body, if the body is an acceptable SDP. */
  datatype Signal = Signal(kind: Kind, callId: string, sdp: Option<Fingerprint>, signature: Option<Binding>, seconds: nat)

  function Plain(kind: Kind, callId: string): Signal {
    Signal(kind, callId, None, None, 0)
  }

  function Sign(kind: Kind, callId: string, fingerprint: Fingerprint, from: string, recipient: string, now: nat): Signal
    requires RoleOf(kind).Some?
  {
    Signal(kind, callId, Some(fingerprint),
           Some(Binding(from, callId, RoleOf(kind).value, from, recipient, fingerprint, now / 1000)), now / 1000)
  }

  /** verifyCallSdp: the fingerprint, if the sender signed it for this call, this role and these two accounts,
      recently enough. */
  function Verify(s: Signal, sender: string, recipient: string, now: nat): Option<Fingerprint> {
    if RoleOf(s.kind).None? || s.signature.None? || s.seconds == 0 then None
    else if now as int - s.seconds * 1000 > CALL_SIGNAL_MAX_AGE_MS || s.seconds * 1000 - now as int > CALL_SIGNAL_MAX_SKEW_MS then None
    else if s.sdp.Some? && s.signature.value
                           == Binding(sender, s.callId, RoleOf(s.kind).value, sender, recipient, s.sdp.value, s.seconds)
    then s.sdp else None
  }

  // ----- the call -----

  datatype Direction = Outgoing | Incoming

  datatype Phase = Ringing | Connecting | Active | Ended

  datatype Reason = HungUp | Declined | BusyElsewhere | Unanswered | Failed

  datatype Session = Session(callId: string, peerAccount: string, peerDevice: Option<string>, direction: Direction,
                             phase: Phase, fingerprint: Option<Fingerprint>, reason: Option<Reason>)

  datatype Event =
    | Accept
    | Connected
    | End(reason: Reason)
    | Received(kind: Kind, offered: Option<Fingerprint>, device: Option<string>)

  /** advanceCall: None where the source throws. */
  function Advance(call: Session, event: Event): Option<Session> {
    match event
    case End(reason) => Some(if call.phase == Ended then call else call.(phase := Ended, reason := Some(reason)))
    case Accept =>
      if call.phase == Ringing && call.direction == Incoming then Some(call.(phase := Connecting)) else None
    case Connected =>
      if call.phase == Active then Some(call) else if call.phase == Connecting then Some(call.(phase := Active)) else None
    case Received(kind, offered, device) => if call.phase == Ended then None else ApplySignal(call, kind, offered, device)
  }

  function Or<T>(a: Option<T>, b: Option<T>): Option<T> {
    if a.Some? then a else b
  }

  function ApplySignal(call: Session, kind: Kind, offered: Option<Fingerprint>, device: Option<string>): Option<Session> {
    match kind
    case Offer => None
    case Answer =>
      if call.direction != Outgoing || call.phase != Ringing then None
      else Some(call.(phase := Connecting, fingerprint := Or(offered, call.fingerprint), peerDevice := Or(device, call.peerDevice)))
    case Candidate => Some(call)
    case Hangup =>
      Some(call.(phase := Ended, reason := Some(if call.direction == Outgoing && call.phase == Ringing then Declined else HungUp)))
    case Busy => if call.direction != Outgoing then None else Some(call.(phase := Ended, reason := Some(BusyElsewhere)))
    case _ =>
      if call.phase == Ringing || call.fingerprint.None? || offered != call.fingerprint then None else Some(call)
  }

  // ----- the session manager's part -----

  /** `ringing` lists the devices that an offer went to, or the one that an offer came from. */
  datatype Manager = Manager(account: string, call: Option<Session>, ringing: seq<string>) {
    function Current(): Option<Session> {
      if call.Some? && call.value.phase != Ended then call else None
    }

    predicate Live(callId: string) {
      Current().Some? && Current().value.callId == callId
    }
  }

  /** A signal on its way to a device of an account. */
  datatype Sent = Sent(account: string, device: string, signal: Signal)

  datatype Did = Did(manager: Manager, sends: seq<Sent>)

  function ToEach(account: string, devices: seq<string>, signal: Signal): seq<Sent> {
    seq(|devices|, i requires 0 <= i < |devices| => Sent(account, devices[i], signal))
  }

  function Others(devices: seq<string>, device: string): seq<string> {
    if devices == [] then []
    else
      var n := |devices| - 1;
      Others(devices[..n], device) + if devices[n] == device then [] else [devices[n]]
  }

  function Finish(m: Manager, reason: Reason): Manager {
    if m.call.None? then m else m.(call := Advance(m.call.value, End(reason)), ringing := [])
  }

  /** placeCall. `reached` are the devices to which the offer could be sent, and `refused` tells that the
      identity key of one had changed, which fails the call. */
  function Place(m: Manager, peer: string, callId: string, devices: seq<string>, reached: seq<string>, refused: bool,
                 sdp: Option<Fingerprint>, now: nat): Did
  {
    if m.Current().Some? || devices == [] || sdp.None? then Did(m, [])
    else
      var call := Session(callId, peer, None, Outgoing, Ringing, None, None);
      var placed := m.(call := Some(call), ringing := devices);
      Did(if refused || reached == [] then Finish(placed, Failed) else placed,
          ToEach(peer, reached, Sign(Offer, callId, sdp.value, m.account, peer, now)))
  }

  /** answerCall: nothing is sent and nothing changes unless the call may be accepted. */
  function PickUp(m: Manager, callId: string, sdp: Option<Fingerprint>, now: nat): Did {
    if !m.Live(callId) then Did(m, [])
    else
      var call := m.Current().value;
      if call.direction != Incoming || call.peerDevice.None? || Advance(call, Accept).None? || sdp.None? then Did(m, [])
      else Did(m.(call := Advance(call, Accept)),
               [Sent(call.peerAccount, call.peerDevice.value, Sign(Answer, callId, sdp.value, m.account, call.peerAccount, now))])
  }

  /** markCallConnected */
  function MediaUp(m: Manager, callId: string): Did {
    if !m.Live(callId) || Advance(m.Current().value, Connected).None? then Did(m, [])
    else Did(m.(call := Advance(m.Current().value, Connected)), [])
  }

  function Targets(m: Manager, call: Session): seq<string> {
    if call.peerDevice.Some? then [call.peerDevice.value] else m.ringing
  }

  /** endCall tells the peer device, or every device that is ringing. */
  function Close(m: Manager, callId: string, reason: Reason): Did {
    if !m.Live(callId) then Did(m, [])
    else
      var call := m.Current().value;
      Did(Finish(m, reason), ToEach(call.peerAccount, Targets(m, call), Plain(Hangup, callId)))
  }

  /** renegotiateCall and answerRenegotiation */
  function Redo(m: Manager, callId: string, kind: Kind, sdp: Option<Fingerprint>, now: nat): Did
    requires kind == Renegotiate || kind == RenegotiateAnswer
  {
    if !m.Live(callId) || m.Current().value.peerDevice.None? || sdp.None? then Did(m, [])
    else
      var call := m.Current().value;
      Did(m, [Sent(call.peerAccount, call.peerDevice.value, Sign(kind, callId, sdp.value, m.account, call.peerAccount, now))])
  }

  function ReceiveOffer(m: Manager, from: string, device: string, s: Signal, now: nat): Did {
    if m.Current().Some? then
      Did(m, if m.Current().value.callId == s.callId then [] else [Sent(from, device, Plain(Busy, s.callId))])
    else
      var fingerprint := Verify(s, from, m.account, now);
      if fingerprint.None? then Did(m, [])
      else Did(m.(call := Some(Session(s.callId, from, Some(device), Incoming, Ringing, fingerprint, None)), ringing := [device]), [])
  }

  predicate About(m: Manager, from: string, s: Signal) {
    m.Live(s.callId) && m.Current().value.peerAccount == from
  }

  predicate FromPeer(m: Manager, from: string, device: string, s: Signal) {
    About(m, from, s) && (m.Current().value.peerDevice.None? || m.Current().value.peerDevice.value == device)
  }

  /** The first answer wins the call; the other devices are told to stop ringing. */
  function ReceiveAnswer(m: Manager, from: string, device: string, s: Signal, now: nat): Did {
    if !About(m, from, s) || device !in m.ringing then Did(m, [])
    else
      var fingerprint := Verify(s, from, m.account, now);
      if fingerprint.None? then Did(m, [])
      else
        var next := Advance(m.Current().value, Received(Answer, fingerprint, Some(device)));
        if next.None? then Did(m, [])
        else Did(m.(call := next, ringing := Only(m.ringing, device)),
                 ToEach(from, Others(m.ringing, device), Plain(Hangup, s.callId)))
  }

  function Only(devices: seq<string>, device: string): seq<string> {
    if devices == [] then []
    else
      var n := |devices| - 1;
      Only(devices[..n], device) + if devices[n] == device then [devices[n]] else []
  }

  /** A renegotiation that fails a check ends the call. */
  function ReceiveRenegotiation(m: Manager, from: string, device: string, s: Signal, now: nat): Did {
    if !FromPeer(m, from, device, s) then Did(m, [])
    else
      var fingerprint := Verify(s, from, m.account, now);
      var next := if fingerprint.None? then None else Advance(m.Current().value, Received(s.kind, fingerprint, Some(device)));
      if next.None? then Close(m, s.callId, Failed) else Did(m.(call := next), [])
  }

  function ReceiveEnd(m: Manager, from: string, device: string, s: Signal): Did {
    if !FromPeer(m, from, device, s) then Did(m, [])
    else
      var next := Advance(m.Current().value, Received(s.kind, None, Some(device)));
      if next.None? then Did(m, []) else Did(m.(call := next, ringing := []), [])
  }

  /** receiveCallSignal, from a sender whose identity key is known to be that of its account. */
  function Receive(m: Manager, from: string, device: string, s: Signal, now: nat): Did {
    match s.kind
    case Offer => ReceiveOffer(m, from, device, s, now)
    case Answer => ReceiveAnswer(m, from, device, s, now)
    case Candidate => Did(m, [])
    case Hangup => ReceiveEnd(m, from, device, s)
    case Busy => ReceiveEnd(m, from, device, s)
    case Renegotiate => ReceiveRenegotiation(m, from, device, s, now)
    case RenegotiateAnswer => ReceiveRenegotiation(m, from, device, s, now)
  }

  // ----- the object that the source mutates -----

  class CallManager {
    const account: string
    var call: Option<Session>
    var ringing: seq<string>

    constructor (account: string)
      ensures this.account == account && Snapshot() == Manager(account, None, [])
    {
      this.account, call, ringing := account, None, [];
    }

    function Snapshot(): Manager
      reads this
    {
      Manager(account, call, ringing)
    }

    method FinishCall(reason: Reason)
      modifies this
      ensures Snapshot() == Finish(old(Snapshot()), reason)
    {
      if call.Some? {
        call, ringing := Advance(call.value, End(reason)), [];
      }
    }

    method SendToEach(peer: string, devices: seq<string>, signal: Signal) returns (sends: seq<Sent>)
      ensures sends == ToEach(peer, devices, signal)
    {
      sends := [];
      for i := 0 to |devices|
        invariant sends == ToEach(peer, devices[..i], signal)
      {
        sends := sends + [Sent(peer, devices[i], signal)];
      }
      assert devices[..|devices|] == devices;
    }

    /** A contact is flagged while a change of its identity key is unacknowledged. */
    method PlaceCall(peer: string, callId: string, flagged: bool, devices: seq<string>, reached: seq<string>, refused: bool,
                     sdp: Option<Fingerprint>, now: nat) returns (sends: seq<Sent>)
      modifies this
      ensures Did(Snapshot(), sends)
           == if flagged then Did(old(Snapshot()), []) else Place(old(Snapshot()), peer, callId, devices, reached, refused, sdp, now)
    {
      if Snapshot().Current().Some? || flagged || devices == [] || sdp.None? {
        return [];
      }
      var signal := Sign(Offer, callId, sdp.value, account, peer, now);
      call := Some(Session(callId, peer, None, Outgoing, Ringing, None, None));
      ringing := devices;
      sends := SendToEach(peer, reached, signal);
      if refused || reached == [] {
        FinishCall(Failed);
      }
    }

    /** The call advances only once the answer has been sent. */
    method AnswerCall(callId: string, flagged: bool, sdp: Option<Fingerprint>, sent: bool, now: nat) returns (sends: seq<Sent>)
      modifies `call
      ensures Did(Snapshot(), sends)
           == if flagged || !sent then Did(old(Snapshot()), []) else PickUp(old(Snapshot()), callId, sdp, now)
    {
      sends := [];
      if !flagged && sent && Snapshot().Live(callId) {
        var live := call.value;
        var next := Advance(live, Accept);
        if live.direction == Incoming && live.peerDevice.Some? && next.Some? && sdp.Some? {
          sends := [Sent(live.peerAccount, live.peerDevice.value, Sign(Answer, callId, sdp.value, account, live.peerAccount, now))];
          call := next;
        }
      }
    }

    method EndCall(callId: string, reason: Reason) returns (sends: seq<Sent>)
      modifies this
      ensures Did(Snapshot(), sends) == Close(old(Snapshot()), callId, reason)
    {
      if !Snapshot().Live(callId) {
        return [];
      }
      sends := SendToEach(call.value.peerAccount, Targets(Snapshot(), call.value), Plain(Hangup, callId));
      FinishCall(reason);
    }

    method MarkCallConnected(callId: string)
      modifies `call
      ensures Did(Snapshot(), []) == MediaUp(old(Snapshot()), callId)
    {
      if Snapshot().Live(callId) {
        var next := Advance(call.value, Connected);
        if next.Some? {
          call := next;
        }
      }
    }

    method ReceiveCallAnswer(from: string, device: string, s: Signal, now: nat) returns (sends: seq<Sent>)
      modifies this
      ensures Did(Snapshot(), sends) == ReceiveAnswer(old(Snapshot()), from, device, s, now)
    {
      sends := [];
      if !About(Snapshot(), from, s) || device !in ringing {
        return;
      }
      var fingerprint := Verify(s, from, account, now);
      if fingerprint.None? {
        return;
      }
      var next := Advance(call.value, Received(Answer, fingerprint, Some(device)));
      if next.None? {
        return;
      }
      call := next;
      var losers: seq<string> := [];
      var winner: seq<string> := [];
      for i := 0 to |ringing|
        invariant ringing == old(ringing) && call == next
        invariant losers == Others(ringing[..i], device) && winner == Only(ringing[..i], device)
      {
        assert ringing[..i + 1][..i] == ringing[..i];
        if ringing[i] == device {
          winner := winner + [ringing[i]];
        } else {
          losers := losers + [ringing[i]];
        }
      }
      assert ringing[..|ringing|] == ringing;
      ringing := winner;
      sends := SendToEach(from, losers, Plain(Hangup, s.callId));
    }

    method ReceiveCallSignal(from: string, device: string, s: Signal, now: nat) returns (sends: seq<Sent>)
      modifies this
      ensures Did(Snapshot(), sends) == Receive(old(Snapshot()), from, device, s, now)
    {
      sends := [];
      match s.kind {
        case Offer =>
          if Snapshot().Current().Some? {
            if call.value.callId != s.callId {
              sends := [Sent(from, device, Plain(Busy, s.callId))];
            }
          } else {
            var fingerprint := Verify(s, from, account, now);
            if fingerprint.Some? {
              call := Some(Session(s.callId, from, Some(device), Incoming, Ringing, fingerprint, None));
              ringing := [device];
            }
          }
        case Answer =>
          sends := ReceiveCallAnswer(from, device, s, now);
        case Candidate =>
        case Hangup =>
          ReceiveCallEnd(from, device, s);
        case Busy =>
          ReceiveCallEnd(from, device, s);
        case Renegotiate =>
          sends := ReceiveCallRenegotiation(from, device, s, now);
        case RenegotiateAnswer =>
          sends := ReceiveCallRenegotiation(from, device, s, now);
      }
    }

    method ReceiveCallEnd(from: string, device: string, s: Signal)
      modifies this
      ensures Did(Snapshot(), []) == ReceiveEnd(old(Snapshot()), from, device, s)
    {
      if FromPeer(Snapshot(), from, device, s) {
        var next := Advance(call.value, Received(s.kind, None, Some(device)));
        if next.Some? {
          call, ringing := next, [];
        }
      }
    }

    method ReceiveCallRenegotiation(from: string, device: string, s: Signal, now: nat) returns (sends: seq<Sent>)
      modifies this
      ensures Did(Snapshot(), sends) == ReceiveRenegotiation(old(Snapshot()), from, device, s, now)
    {
      sends := [];
      if !FromPeer(Snapshot(), from, device, s) {
        return;
      }
      var fingerprint := Verify(s, from, account, now);
      var next: Option<Session> := None;
      if fingerprint.Some? {
        next := Advance(call.value, Received(s.kind, fingerprint, Some(device)));
      }
      if next.None? {
        sends := EndCall(s.callId, Failed);
      } else {
        call := next;
      }
    }
  }
}
