/**
 The hybrid handshake, in pqxdh.ts, over symbolic cryptography: a public key names its secret, an agreement is the
 unordered pair of the two secrets, and a KEM ciphertext opens to its secret with the right key only.
 */
module Handshake {
  import opened Bytes

  datatype PublicKey = Pub(secret: Bytes)

  datatype Part =
    | DhPart(pair: multiset<Bytes>)
    | KemPart(key: Bytes, randomness: nat)
    | Rejected(key: Bytes, ciphertext: Ciphertext)     // what a wrong KEM key yields

  datatype Ciphertext = Ciphertext(key: Bytes, randomness: nat)

  function Dh(secret: Bytes, public_: PublicKey): Part {
    DhPart(multiset{secret, public_.secret})
  }

  function Decapsulate(key: Bytes, c: Ciphertext): Part {
    if c.key == key then KemPart(key, c.randomness) else Rejected(key, c)
  }

  /** The output of the key derivation over these parts, one after the other; a missing part adds nothing. */
  datatype SharedSecret = SharedSecret(parts: seq<Part>)

  datatype MailboxSecret = MailboxSecret(shared: SharedSecret)

  datatype SignedPublic = SignedPublic(id: nat, key: PublicKey, signer: PublicKey)

  datatype OneTimePublic = OneTimePublic(id: nat, key: PublicKey)

  datatype Bundle = Bundle(identityKey: PublicKey, signed: SignedPublic, signedPq: SignedPublic,
                           oneTime: Option<OneTimePublic>, oneTimePq: Option<OneTimePublic>)

  datatype Init = Init(identityKey: PublicKey, ephemeralKey: PublicKey, kem: Ciphertext, signedId: nat, pqId: nat,
                       oneTimeId: Option<nat>, usedOneTimePq: bool)

  datatype Secret = Secret(id: nat, key: Bytes)

  /** The secret half of what a device has published. */
  datatype Keys = Keys(identity: Bytes, signed: Secret, signedPq: Secret, previous: Option<Secret>, previousPq: Option<Secret>,
                       oneTime: map<nat, Bytes>, oneTimePq: map<nat, Bytes>)

  predicate Verifies(b: Bundle) {
    b.signed.signer == b.identityKey && b.signedPq.signer == b.identityKey
  }

  /** The secrets both sides compute, and the associated data: the two identity keys, initiator first. */
  datatype Agreed = Agreed(shared: SharedSecret, mailbox: MailboxSecret, associatedData: (PublicKey, PublicKey))

  function AgreedOn(parts: seq<Part>, initiator: PublicKey, responder: PublicKey): Agreed {
    Agreed(SharedSecret(parts), MailboxSecret(SharedSecret(parts)), (initiator, responder))
  }

  datatype Initiated = Initiated(agreed: Agreed, init: Init)

  function KemTarget(b: Bundle): Bytes {
    if b.oneTimePq.Some? then b.oneTimePq.value.key.secret else b.signedPq.key.secret
  }

  function InitiatorParts(identity: Bytes, b: Bundle, ephemeral: Bytes, randomness: nat): seq<Part> {
    [Dh(identity, b.signed.key), Dh(ephemeral, b.identityKey), Dh(ephemeral, b.signed.key)]
    + (if b.oneTime.Some? then [Dh(ephemeral, b.oneTime.value.key)] else [])
    + [KemPart(KemTarget(b), randomness)]
  }

  function ResponderParts(signed: Bytes, identity: Bytes, oneTime: Option<Bytes>, pq: Bytes, init: Init): seq<Part> {
    [Dh(signed, init.identityKey), Dh(identity, init.ephemeralKey), Dh(signed, init.ephemeralKey)]
    + (if oneTime.Some? then [Dh(oneTime.value, init.ephemeralKey)] else [])
    + [Decapsulate(pq, init.kem)]
  }

  /** initiateSession: None if the bundle does not verify. */
  function Initiate(identity: Bytes, b: Bundle, ephemeral: Bytes, randomness: nat): Option<Initiated> {
    if !Verifies(b) then None
    else
      Some(Initiated(AgreedOn(InitiatorParts(identity, b, ephemeral, randomness), Pub(identity), b.identityKey),
                     Init(Pub(identity), Pub(ephemeral), Ciphertext(KemTarget(b), randomness), b.signed.id,
                          if b.oneTimePq.Some? then b.oneTimePq.value.id else b.signedPq.id,
                          if b.oneTime.Some? then Some(b.oneTime.value.id) else None, b.oneTimePq.Some?)))
  }

  /** The key of that id: the current one, or the one it replaced. */
  function Held(id: nat, current: Secret, previous: Option<Secret>): Option<Bytes> {
    if current.id == id then Some(current.key)
    else if previous.Some? && previous.value.id == id then Some(previous.value.key) else None
  }

  /** The key pair for the ratchet comes with what was agreed. */
  datatype Accepted = Accepted(keys: Keys, agreed: Option<Agreed>, ratchetKey: Bytes)

  /** The rest of acceptSession, once the classical keys are found. */
  function Conclude(k: Keys, init: Init, signed: Bytes, oneTime: Option<Bytes>): Accepted {
    var held := Held(init.pqId, k.signedPq, k.previousPq);
    if (if init.usedOneTimePq then init.pqId !in k.oneTimePq else held.None?) then Accepted(k, None, [])
    else
      var pq := if init.usedOneTimePq then k.oneTimePq[init.pqId] else held.value;
      Accepted(if init.usedOneTimePq then k.(oneTimePq := k.oneTimePq - {init.pqId}) else k,
               Some(AgreedOn(ResponderParts(signed, k.identity, oneTime, pq, init), init.identityKey, Pub(k.identity))), signed)
  }

  /** acceptSession. A one-time key that was found is used up even if the rest of the handshake fails. */
  function Accept(k: Keys, init: Init): Accepted {
    var signed := Held(init.signedId, k.signed, k.previous);
    if signed.None? then Accepted(k, None, [])
    else if init.oneTimeId.None? then Conclude(k, init, signed.value, None)
    else if init.oneTimeId.value !in k.oneTime then Accepted(k, None, [])
    else Conclude(k.(oneTime := k.oneTime - {init.oneTimeId.value}), init, signed.value, Some(k.oneTime[init.oneTimeId.value]))
  }

  // ----- one handshake -----

  predicate Matches(p: OneTimePublic, held: map<nat, Bytes>) {
    p.id in held && p.key == Pub(held[p.id])
  }

  /** Every key of the bundle that a handshake uses is held by this device under the id that the bundle gives. */
  predicate Honest(b: Bundle, k: Keys) {
    && b.identityKey == Pub(k.identity) && Verifies(b)
    && Held(b.signed.id, k.signed, k.previous) == Some(b.signed.key.secret)
    && (b.oneTime.Some? ==> Matches(b.oneTime.value, k.oneTime))
    && if b.oneTimePq.Some? then Matches(b.oneTimePq.value, k.oneTimePq)
       else Held(b.signedPq.id, k.signedPq, k.previousPq) == Some(b.signedPq.key.secret)
  }

  /** Both sides derive the same secrets and the same associated data, with or without one-time keys, and
      exactly the one-time keys of the bundle are used up. */
  lemma HandshakeAgrees(identity: Bytes, b: Bundle, ephemeral: Bytes, randomness: nat, k: Keys)
    requires Honest(b, k)
    ensures Initiate(identity, b, ephemeral, randomness).Some?
    ensures var i := Initiate(identity, b, ephemeral, randomness).value; var r := Accept(k, i.init);
            && r.agreed == Some(i.agreed) && r.ratchetKey == b.signed.key.secret
            && r.keys == k.(oneTime := if b.oneTime.Some? then k.oneTime - {b.oneTime.value.id} else k.oneTime,
                            oneTimePq := if b.oneTimePq.Some? then k.oneTimePq - {b.oneTimePq.value.id} else k.oneTimePq)
  {
    hide InitiatorParts, ResponderParts, Dh;
    PartsAgree(identity, b, ephemeral, randomness, k);
  }

  lemma PartsAgree(identity: Bytes, b: Bundle, ephemeral: Bytes, randomness: nat, k: Keys)
    requires Honest(b, k)
    ensures InitiatorParts(identity, b, ephemeral, randomness)
         == ResponderParts(b.signed.key.secret, k.identity, if b.oneTime.Some? then Some(k.oneTime[b.oneTime.value.id]) else None,
                           KemTarget(b), Initiate(identity, b, ephemeral, randomness).value.init)
  {
    hide Dh;
    DhCommutes(identity, b.signed.key);
    DhCommutes(ephemeral, b.identityKey);
    DhCommutes(ephemeral, b.signed.key);
    if b.oneTime.Some? {
      DhCommutes(ephemeral, b.oneTime.value.key);
    }
  }

  lemma DhCommutes(secret: Bytes, public_: PublicKey)
    ensures Dh(secret, public_) == Dh(public_.secret, Pub(secret))
  {
    assert multiset{secret, public_.secret} == multiset{public_.secret, secret};
  }

  predicate Agrees(identity: Bytes, b: Bundle, ephemeral: Bytes, randomness: nat, k: Keys) {
    var i := Initiate(identity, b, ephemeral, randomness);
    i.Some? && Accept(k, i.value.init).agreed == Some(i.value.agreed)
  }

  /** Both sides come to the same secrets exactly for such bundles: any other key under one of the ids is noticed. */
  lemma HandshakeAgreesIff(identity: Bytes, b: Bundle, ephemeral: Bytes, randomness: nat, k: Keys)
    ensures Agrees(identity, b, ephemeral, randomness, k) <==> Honest(b, k)
  {
    hide InitiatorParts, ResponderParts, Dh;
    if Honest(b, k) {
      HandshakeAgrees(identity, b, ephemeral, randomness, k);
    } else if Agrees(identity, b, ephemeral, randomness, k) {
      AgreedMeansHonest(identity, b, ephemeral, randomness, k);
    }
  }

  lemma AgreedMeansHonest(identity: Bytes, b: Bundle, ephemeral: Bytes, randomness: nat, k: Keys)
    requires Agrees(identity, b, ephemeral, randomness, k)
    ensures Honest(b, k)
  {
    hide InitiatorParts, Accept, Honest;
    SharedMeansHonest(identity, b, ephemeral, randomness, k);
  }

  /** One secret on both sides is enough to tell: the associated data adds nothing. */
  lemma SharedMeansHonest(identity: Bytes, b: Bundle, ephemeral: Bytes, randomness: nat, k: Keys)
    requires Verifies(b)
    requires var i := Initiate(identity, b, ephemeral, randomness).value; var r := Accept(k, i.init);
             r.agreed.Some? && r.agreed.value.shared == i.agreed.shared
    ensures Honest(b, k)
  {
    hide InitiatorParts, ResponderParts, Dh;
    var init := Initiate(identity, b, ephemeral, randomness).value.init;
    var signed := Held(b.signed.id, k.signed, k.previous).value;
    var oneTime := if b.oneTime.Some? then Some(k.oneTime[b.oneTime.value.id]) else None;
    var pq := if b.oneTimePq.Some? then k.oneTimePq[b.oneTimePq.value.id]
              else Held(b.signedPq.id, k.signedPq, k.previousPq).value;
    SamePartsSameKeys(identity, b, ephemeral, randomness, signed, k.identity, oneTime, pq);
  }

  lemma SamePartsSameKeys(identity: Bytes, b: Bundle, ephemeral: Bytes, randomness: nat, signed: Bytes, responder: Bytes,
                          oneTime: Option<Bytes>, pq: Bytes)
    requires Verifies(b) && (oneTime.Some? <==> b.oneTime.Some?)
    requires InitiatorParts(identity, b, ephemeral, randomness)
          == ResponderParts(signed, responder, oneTime, pq, Initiate(identity, b, ephemeral, randomness).value.init)
    ensures signed == b.signed.key.secret && responder == b.identityKey.secret && pq == KemTarget(b)
    ensures b.oneTime.Some? ==> oneTime.value == b.oneTime.value.key.secret
  {
    hide Dh;
    var ours := InitiatorParts(identity, b, ephemeral, randomness);
    var theirs := ResponderParts(signed, responder, oneTime, pq, Initiate(identity, b, ephemeral, randomness).value.init);
    assert ours[0] == theirs[0] && ours[1] == theirs[1] && ours[|ours| - 1] == theirs[|ours| - 1];
    DhTellsKey(ephemeral, b.identityKey.secret, responder);
    DhTellsKey(identity, b.signed.key.secret, signed);
    if b.oneTime.Some? {
      assert ours[3] == theirs[3];
      DhTellsKey(ephemeral, b.oneTime.value.key.secret, oneTime.value);
    }
  }

  lemma DhTellsKey(a: Bytes, x: Bytes, y: Bytes)
    requires Dh(a, Pub(x)) == Dh(y, Pub(a))
    ensures x == y
  {
    assert multiset{a, x} - multiset{a} == multiset{x} && multiset{y, a} - multiset{a} == multiset{y};
    assert x in multiset{y};
  }

  /** A handshake that was accepted is accepted again exactly if it used no one-time key. */
  lemma ReplayAcceptedIff(k: Keys, init: Init)
    requires Accept(k, init).agreed.Some?
    ensures Accept(Accept(k, init).keys, init).agreed.Some? <==> init.oneTimeId.None? && !init.usedOneTimePq
  {
  }

  /** A handshake that fails uses up at most the classical one-time key it names. */
  lemma FailureCost(k: Keys, init: Init)
    requires Accept(k, init).agreed.None?
    ensures var after := Accept(k, init).keys;
            after == k || (init.oneTimeId.Some? && after == k.(oneTime := k.oneTime - {init.oneTimeId.value}))
  {
  }

  // ----- rotation of the signed prekeys -----

  function Rotated(k: Keys, signed: Bytes, signedPq: Bytes): Keys {
    k.(signed := Secret(k.signed.id + 1, signed), signedPq := Secret(k.signed.id + 1, signedPq),
       previous := Some(k.signed), previousPq := if k.signedPq.id == k.signed.id + 1 then None else Some(k.signedPq))
  }

  /** The ids of the two generations differ. */
  predicate Generations(k: Keys) {
    && k.signedPq.id == k.signed.id
    && (k.previous.Some? ==> k.previous.value.id < k.signed.id)
    && (k.previousPq.Some? ==> k.previousPq.value.id < k.signedPq.id)
  }

  /** A replaced prekey never goes under the id of the one that replaces it. */
  lemma RotationKeepsIdsApart(k: Keys, signed: Bytes, signedPq: Bytes)
    ensures var r := Rotated(k, signed, signedPq);
            && (r.previous.Some? ==> r.previous.value.id != r.signed.id)
            && (r.previousPq.Some? <==> k.signedPq.id != r.signedPq.id) && (r.previousPq.Some? ==> r.previousPq.value == k.signedPq)
            && Held(r.signed.id, r.signed, r.previous) == Some(signed) && Held(r.signedPq.id, r.signedPq, r.previousPq) == Some(signedPq)
  {
  }

  /** A bundle of the current generation stays good over one rotation, and over no more than one. */
  lemma OneRotationOfGrace(b: Bundle, k: Keys, s1: Bytes, q1: Bytes, s2: Bytes, q2: Bytes)
    requires Generations(k) && Honest(b, k) && b.signed.id == k.signed.id && b.signedPq.id == k.signedPq.id
    ensures Generations(Rotated(k, s1, q1)) && Honest(b, Rotated(k, s1, q1))
    ensures forall i, e, r :: var init := Initiate(i, b, e, r);
              init.Some? && Accept(Rotated(Rotated(k, s1, q1), s2, q2), init.value.init).agreed.None?
  {
  }
}
