/**
 From a prekey bundle to a running session: what the handshake ends with on each side is what the Double Ratchet
 begins with.
 */
module SessionSetup {
  import opened Bytes
  import opened Handshake
  import opened RatchetSync
  import opened RatchetRun
  import Ratchet

  /** The two identity keys, one after the other. */
  function AssociatedData(a: Agreed): Bytes {
    a.associatedData.0.secret + a.associatedData.1.secret
  }

  /** initiateSession begins a ratchet towards the signed prekey of the bundle. */
  function InitiatorRatchet(a: Agreed, b: Bundle, newKey: Bytes): Ratchet.State {
    Ratchet.InitInitiator(a.shared, newKey, b.signed.key.secret)
  }

  /** acceptSession begins one with the signed prekey that was found. */
  function ResponderRatchet(r: Accepted): Ratchet.State
    requires r.agreed.Some?
  {
    Ratchet.InitResponder(r.agreed.value.shared, r.ratchetKey)
  }

  /** The session as the responder sees it, with the ratchet that the initiator has begun. */
  function Opened(i: Agreed, r: Accepted, b: Bundle, newKey: Bytes): Session
    requires r.agreed.Some?
  {
    Session(History(Pairs(r.agreed.value.shared, [r.ratchetKey, newKey]), [[], []], AssociatedData(r.agreed.value)),
            Party(1, InitiatorRatchet(i, b, newKey), {}, {}), Party(0, ResponderRatchet(r), {}, {}), [])
  }

  /** Both sides have begun the same session, and encrypt with the same associated data. */
  ghost predicate InStep(i: Agreed, r: Accepted, b: Bundle, newKey: Bytes) {
    r.agreed.Some? && AssociatedData(i) == AssociatedData(r.agreed.value) && Opened(i, r, b, newKey).Inv()
  }

  lemma HonestOpens(identity: Bytes, b: Bundle, ephemeral: Bytes, randomness: nat, k: Keys, newKey: Bytes)
    requires Honest(b, k)
    ensures var i := Initiate(identity, b, ephemeral, randomness).value; InStep(i.agreed, Accept(k, i.init), b, newKey)
  {
    hide Session.Inv, Initiate, Accept;
    HandshakeAgrees(identity, b, ephemeral, randomness, k);
    var i := Initiate(identity, b, ephemeral, randomness).value;
    BeginInv(i.agreed.shared, b.signed.key.secret, newKey, AssociatedData(i.agreed));
  }

  /** Two ratchets are in step at the start only on the same shared secret. */
  lemma InStepMeansShared(i: Agreed, r: Accepted, b: Bundle, newKey: Bytes)
    requires InStep(i, r, b, newKey)
    ensures r.agreed.value.shared == i.shared
  {
    var y := Opened(i, r, b, newKey);
    assert KeysInv(y.h.g, 1, y.initiator.st);
  }

  /** The handshake begins a session in which the two sides are in step exactly for an honest bundle. */
  lemma HandshakeOpensSession(identity: Bytes, b: Bundle, ephemeral: Bytes, randomness: nat, k: Keys, newKey: Bytes)
    requires Verifies(b)
    ensures var i := Initiate(identity, b, ephemeral, randomness).value;
            InStep(i.agreed, Accept(k, i.init), b, newKey) <==> Honest(b, k)
  {
    hide Session.Inv, InitiatorParts, Accept;
    if Honest(b, k) {
      HonestOpens(identity, b, ephemeral, randomness, k, newKey);
    } else if InStep(Initiate(identity, b, ephemeral, randomness).value.agreed,
                     Accept(k, Initiate(identity, b, ephemeral, randomness).value.init), b, newKey) {
      var i := Initiate(identity, b, ephemeral, randomness).value;
      InStepMeansShared(i.agreed, Accept(k, i.init), b, newKey);
      SharedMeansHonest(identity, b, ephemeral, randomness, k);
    }
  }

  /** From an honest bundle on, no run returns a message twice or anything but what the peer sent. */
  lemma HandshakeRunIsSafe(identity: Bytes, b: Bundle, ephemeral: Bytes, randomness: nat, k: Keys, newKey: Bytes,
                           steps: seq<Step>, z: Session)
    requires Honest(b, k)
    requires var i := Initiate(identity, b, ephemeral, randomness).value; var r := Accept(k, i.init);
             r.agreed.Some? && Leads(Opened(i.agreed, r, b, newKey), steps, z)
    ensures forall i, k :: 0 <= i < k < |z.returned| ==> z.returned[i].Key() != z.returned[k].Key()
    ensures forall i :: 0 <= i < |z.returned| ==> z.Returned(i)
  {
    hide Leads, InitiatorParts, Accept, Party.Inv, Session.Returned;
    HonestOpens(identity, b, ephemeral, randomness, k, newKey);
    var i := Initiate(identity, b, ephemeral, randomness).value;
    RunKeepsInv(Opened(i.agreed, Accept(k, i.init), b, newKey), steps, z);
  }
}
