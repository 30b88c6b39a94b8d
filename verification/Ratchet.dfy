/**
 The Double Ratchet with header encryption, in ratchet.ts, over symbolic cryptography: keys are terms,
 a Diffie-Hellman output is an unordered pair of secrets, and a sealed value opens only with the key
 it was sealed with.
 */
module Ratchet {
  import opened Bytes
  import Handshake

  const MAX_SKIP: nat := 1000
  const MAX_SKIPPED_KEYS: nat := 1000
  const SKIPPED_KEY_TTL_MS: nat := 7 * 24 * 60 * 60 * 1000

  /** A private key; its public half is named by the same bytes. */
  type Secret = Bytes

  type SharedSecret = Handshake.SharedSecret

  datatype DhOutput = DhOutput(pair: multiset<Secret>)

  function Dh(secret: Secret, public_: Secret): DhOutput {
    DhOutput(multiset{secret, public_})
  }

  datatype Key =
    | FirstRoot(shared: SharedSecret)
    | InitiatorHeader(shared: SharedSecret)  // the two header keys derived from the shared secret
    | ResponderHeader(shared: SharedSecret)
    | RootKey(root: Key, dh: DhOutput)       // the three outputs of the root KDF
    | FirstChainKey(root: Key, dh: DhOutput)
    | NextHeaderKey(root: Key, dh: DhOutput)
    | NextChainKey(chain: Key)               // the two outputs of a chain step
    | MessageKey(chain: Key)

  datatype Header = Header(ratchetKey: Secret, previousChainLength: nat, messageNumber: nat)

  datatype SealedHeader = SealedHeader(key: Key, nonce: nat, plain: Header)

  datatype SealedBody = SealedBody(key: Key, plain: Bytes, associatedData: Bytes, header: SealedHeader)

  datatype Message = Message(header: SealedHeader, body: SealedBody)

  function Open(key: Key, sealed: SealedHeader): Option<Header> {
    if sealed.key == key then Some(sealed.plain) else None
  }

  function OpenBody(key: Key, m: Message, associatedData: Bytes): Option<Bytes> {
    if m.body.key == key && m.body.associatedData == associatedData && m.body.header == m.header
    then Some(m.body.plain) else None
  }

  datatype Skipped = Skipped(headerKey: Key, number: nat, messageKey: Key, storedAt: int)

  /** `skipped` lists the entries of the cache in insertion order. */
  datatype State = State(
    sending: Secret, receiving: Option<Secret>,
    rootKey: Key, sendingChain: Option<Key>, receivingChain: Option<Key>,
    sentCount: nat, receivedCount: nat, previousChainLength: nat,
    headerKeySending: Option<Key>, headerKeyReceiving: Option<Key>,
    nextHeaderKeySending: Key, nextHeaderKeyReceiving: Key,
    skipped: seq<Skipped>)

  function InitInitiator(shared: SharedSecret, newKey: Secret, responderRatchetKey: Secret): State {
    var dh := Dh(newKey, responderRatchetKey);
    State(newKey, Some(responderRatchetKey), RootKey(FirstRoot(shared), dh),
          Some(FirstChainKey(FirstRoot(shared), dh)), None, 0, 0, 0, Some(InitiatorHeader(shared)), None,
          NextHeaderKey(FirstRoot(shared), dh), ResponderHeader(shared), [])
  }

  function InitResponder(shared: SharedSecret, ownRatchetKey: Secret): State {
    State(ownRatchetKey, None, FirstRoot(shared), None, None, 0, 0, 0, None, None, ResponderHeader(shared),
          InitiatorHeader(shared), [])
  }

  // ----- the skipped-key cache -----

  function Fresh(skipped: seq<Skipped>, cutoff: int): seq<Skipped> {
    if skipped == [] then []
    else
      var n := |skipped| - 1;
      Fresh(skipped[..n], cutoff) + if skipped[n].storedAt < cutoff then [] else [skipped[n]]
  }

  function Newest(skipped: seq<Skipped>): seq<Skipped> {
    if |skipped| > MAX_SKIPPED_KEYS then skipped[|skipped| - MAX_SKIPPED_KEYS..] else skipped
  }

  /** Expired entries go first, then the oldest ones beyond the bound. */
  function Pruned(skipped: seq<Skipped>, now: int): seq<Skipped> {
    Newest(Fresh(skipped, now - SKIPPED_KEY_TTL_MS))
  }

  predicate SameId(a: Skipped, b: Skipped) {
    a.headerKey == b.headerKey && a.number == b.number
  }

  /** Map.set: an id that is present keeps its place. */
  function Put(skipped: seq<Skipped>, e: Skipped): seq<Skipped> {
    if skipped == [] then [e]
    else if SameId(skipped[0], e) then [e] + skipped[1..]
    else [skipped[0]] + Put(skipped[1..], e)
  }

  predicate Fits(e: Skipped, m: Message, associatedData: Bytes) {
    && Open(e.headerKey, m.header).Some? && Open(e.headerKey, m.header).value.messageNumber == e.number
    && OpenBody(e.messageKey, m, associatedData).Some?
  }

  /** The place of the first entry that decrypts the message; the length if there is none. */
  function FirstFit(skipped: seq<Skipped>, m: Message, associatedData: Bytes): (i: nat)
    ensures i <= |skipped|
    ensures i < |skipped| ==> Fits(skipped[i], m, associatedData)
    ensures forall k :: 0 <= k < i ==> !Fits(skipped[k], m, associatedData)
  {
    if skipped == [] || Fits(skipped[0], m, associatedData) then 0
    else 1 + FirstFit(skipped[1..], m, associatedData)
  }

  function Without(skipped: seq<Skipped>, i: nat): seq<Skipped>
    requires i < |skipped|
  {
    skipped[..i] + skipped[i + 1..]
  }

  /** The key of the next position moves into the cache. */
  function SkipOne(s: State, now: int): State
    requires s.receivingChain.Some? && s.headerKeyReceiving.Some?
  {
    var chain := s.receivingChain.value;
    s.(receivingChain := Some(NextChainKey(chain)),
       skipped := Put(s.skipped, Skipped(s.headerKeyReceiving.value, s.receivedCount, MessageKey(chain), now)),
       receivedCount := s.receivedCount + 1)
  }

  function SkipTo(s: State, until: nat, now: int): State
    requires s.receivingChain.Some? && s.headerKeyReceiving.Some?
    decreases until - s.receivedCount
  {
    if s.receivedCount >= until then s else SkipTo(SkipOne(s, now), until, now)
  }

  predicate SkipsTooFar(s: State, until: nat) {
    s.receivedCount + MAX_SKIP < until
  }

  /** The state after skipMessageKeys; when it throws, the state is as it was. */
  function AfterSkip(s: State, until: nat, now: int): State {
    if SkipsTooFar(s, until) || s.receivingChain.None? || s.headerKeyReceiving.None? then s
    else
      var t := SkipTo(s, until, now);
      t.(skipped := Pruned(t.skipped, now))
  }

  /** The first half of a DH ratchet step: adopt the peer's new key and the chain it begins. */
  function AfterReceivingStep(s: State, header: Header): State {
    var dh := Dh(s.sending, header.ratchetKey);
    s.(previousChainLength := s.sentCount, sentCount := 0, receivedCount := 0,
       headerKeySending := Some(s.nextHeaderKeySending), headerKeyReceiving := Some(s.nextHeaderKeyReceiving),
       receiving := Some(header.ratchetKey),
       rootKey := RootKey(s.rootKey, dh),
       receivingChain := Some(FirstChainKey(s.rootKey, dh)),
       nextHeaderKeyReceiving := NextHeaderKey(s.rootKey, dh))
  }

  /** The second half: a new key pair of our own, and the chain that it begins. */
  function AfterSendingStep(s: State, peerKey: Secret, newKey: Secret): State {
    var dh := Dh(newKey, peerKey);
    s.(sending := newKey,
       rootKey := RootKey(s.rootKey, dh),
       sendingChain := Some(FirstChainKey(s.rootKey, dh)),
       nextHeaderKeySending := NextHeaderKey(s.rootKey, dh))
  }

  function AfterDhRatchet(s: State, header: Header, newKey: Secret): State {
    AfterSendingStep(AfterReceivingStep(s, header), header.ratchetKey, newKey)
  }

  // ----- encrypt and decrypt -----

  datatype Sent = Sent(state: State, message: Option<Message>)

  function AfterEncrypt(s: State, plain: Bytes, associatedData: Bytes, now: int, nonce: nat): Sent {
    var t := s.(skipped := Pruned(s.skipped, now));
    if t.sendingChain.None? || t.headerKeySending.None? then Sent(t, None)
    else
      var chain := t.sendingChain.value;
      var header := SealedHeader(t.headerKeySending.value, nonce,
                                 Header(t.sending, t.previousChainLength % TWO32, t.sentCount % TWO32));
      Sent(t.(sendingChain := Some(NextChainKey(chain)), sentCount := t.sentCount + 1),
           Some(Message(header, SealedBody(MessageKey(chain), plain, associatedData, header))))
  }

  datatype Received = Received(state: State, plain: Option<Bytes>)

  datatype HeaderMatch = Unreadable | Current(header: Header) | Ahead(header: Header)

  function MatchHeader(s: State, sealed: SealedHeader): HeaderMatch {
    if s.headerKeyReceiving.Some? && Open(s.headerKeyReceiving.value, sealed).Some? then
      Current(Open(s.headerKeyReceiving.value, sealed).value)
    else if Open(s.nextHeaderKeyReceiving, sealed).Some? then
      Ahead(Open(s.nextHeaderKeyReceiving, sealed).value)
    else Unreadable
  }

  /** Move the receiving chain to position n and open the body with the key found there. The state moves
      on before the body is known to be authentic. */
  function ReceiveAt(s: State, n: nat, m: Message, associatedData: Bytes, now: int): Received {
    if SkipsTooFar(s, n) then Received(s, None)
    else
      var t := AfterSkip(s, n, now);
      if t.receivingChain.None? then Received(t, None)
      else
        var chain := t.receivingChain.value;
        Received(t.(receivingChain := Some(NextChainKey(chain)), receivedCount := t.receivedCount + 1),
                 OpenBody(MessageKey(chain), m, associatedData))
  }

  /** What decrypt does once a header opens under the next header key. */
  function ReceiveAhead(s: State, header: Header, m: Message, associatedData: Bytes, now: int, newKey: Secret): Received {
    if SkipsTooFar(s, header.previousChainLength) then Received(s, None)
    else ReceiveAt(AfterDhRatchet(AfterSkip(s, header.previousChainLength, now), header, newKey),
                   header.messageNumber, m, associatedData, now)
  }

  function AfterDecrypt(s: State, m: Message, associatedData: Bytes, now: int, newKey: Secret): Received {
    var t := s.(skipped := Pruned(s.skipped, now));
    var i := FirstFit(t.skipped, m, associatedData);
    if i < |t.skipped| then
      Received(t.(skipped := Without(t.skipped, i)), OpenBody(t.skipped[i].messageKey, m, associatedData))
    else
      match MatchHeader(t, m.header)
      case Unreadable => Received(t, None)
      case Current(header) => ReceiveAt(t, header.messageNumber, m, associatedData, now)
      case Ahead(header) => ReceiveAhead(t, header, m, associatedData, now, newKey)
  }

  /** The session manager's transaction: load, decrypt, save only when the body authenticated. */
  function AfterDelivery(saved: State, m: Message, associatedData: Bytes, now: int, newKey: Secret): Received {
    var r := AfterDecrypt(saved, m, associatedData, now, newKey);
    if r.plain.Some? then r else Received(saved, None)
  }

  // ----- the object that the source mutates -----

  class RatchetState {
    var sending: Secret
    var receiving: Option<Secret>
    var rootKey: Key
    var sendingChain: Option<Key>
    var receivingChain: Option<Key>
    var sentCount: nat
    var receivedCount: nat
    var previousChainLength: nat
    var headerKeySending: Option<Key>
    var headerKeyReceiving: Option<Key>
    var nextHeaderKeySending: Key
    var nextHeaderKeyReceiving: Key
    var skipped: seq<Skipped>

    function Snapshot(): State
      reads this
    {
      State(sending, receiving, rootKey, sendingChain, receivingChain, sentCount, receivedCount, previousChainLength,
            headerKeySending, headerKeyReceiving, nextHeaderKeySending, nextHeaderKeyReceiving, skipped)
    }

    constructor (s: State)
      ensures Snapshot() == s
    {
      sending, receiving, rootKey := s.sending, s.receiving, s.rootKey;
      sendingChain, receivingChain := s.sendingChain, s.receivingChain;
      sentCount, receivedCount, previousChainLength := s.sentCount, s.receivedCount, s.previousChainLength;
      headerKeySending, headerKeyReceiving := s.headerKeySending, s.headerKeyReceiving;
      nextHeaderKeySending, nextHeaderKeyReceiving := s.nextHeaderKeySending, s.nextHeaderKeyReceiving;
      skipped := s.skipped;
    }

    method PruneSkipped(now: int)
      modifies `skipped
      ensures skipped == Pruned(old(skipped), now)
    {
      var cutoff := now - SKIPPED_KEY_TTL_MS;
      var kept: seq<Skipped> := [];
      for i := 0 to |skipped|
        invariant skipped == old(skipped) && kept == Fresh(skipped[..i], cutoff)
      {
        assert skipped[..i + 1][..i] == skipped[..i];
        if skipped[i].storedAt >= cutoff {
          kept := kept + [skipped[i]];
        }
      }
      assert skipped[..|skipped|] == skipped;
      skipped := kept;
      ghost var dropped: nat := 0;
      assert kept[0..] == kept;
      while |skipped| > MAX_SKIPPED_KEYS
        invariant dropped <= |kept| && skipped == kept[dropped..]
        invariant dropped > 0 ==> |skipped| >= MAX_SKIPPED_KEYS
      {
        skipped := skipped[1..];
        dropped := dropped + 1;
        assert skipped == kept[dropped..];
      }
    }

    /** False where the source throws. */
    method SkipMessageKeys(until: nat, now: int) returns (ok: bool)
      modifies `receivingChain, `receivedCount, `skipped
      ensures ok == !SkipsTooFar(old(Snapshot()), until)
      ensures Snapshot() == AfterSkip(old(Snapshot()), until, now)
    {
      if receivedCount + MAX_SKIP < until {
        return false;
      }
      if receivingChain.None? || headerKeyReceiving.None? {
        return true;
      }
      hide Put, Pruned;
      while receivedCount < until
        invariant receivingChain.Some? && headerKeyReceiving.Some?
        invariant SkipTo(Snapshot(), until, now) == SkipTo(old(Snapshot()), until, now)
        decreases until - receivedCount
      {
        var chain := receivingChain.value;
        receivingChain := Some(NextChainKey(chain));
        skipped := Put(skipped, Skipped(headerKeyReceiving.value, receivedCount, MessageKey(chain), now));
        receivedCount := receivedCount + 1;
      }
      PruneSkipped(now);
      return true;
    }

    method AdoptPeerKey(header: Header)
      modifies this
      ensures Snapshot() == AfterReceivingStep(old(Snapshot()), header)
    {
      hide Dh;
      previousChainLength, sentCount, receivedCount := sentCount, 0, 0;
      headerKeySending, headerKeyReceiving := Some(nextHeaderKeySending), Some(nextHeaderKeyReceiving);
      receiving := Some(header.ratchetKey);
      var incoming := Dh(sending, header.ratchetKey);
      receivingChain, nextHeaderKeyReceiving := Some(FirstChainKey(rootKey, incoming)), NextHeaderKey(rootKey, incoming);
      rootKey := RootKey(rootKey, incoming);
    }

    method BeginSendingChain(peerKey: Secret, newKey: Secret)
      modifies `sending, `rootKey, `sendingChain, `nextHeaderKeySending
      ensures Snapshot() == AfterSendingStep(old(Snapshot()), peerKey, newKey)
    {
      sending := newKey;
      var outgoing := Dh(sending, peerKey);
      sendingChain, nextHeaderKeySending := Some(FirstChainKey(rootKey, outgoing)), NextHeaderKey(rootKey, outgoing);
      rootKey := RootKey(rootKey, outgoing);
    }

    method DhRatchet(header: Header, newKey: Secret)
      modifies this
      ensures Snapshot() == AfterDhRatchet(old(Snapshot()), header, newKey)
    {
      hide AfterReceivingStep, AfterSendingStep;
      AdoptPeerKey(header);
      BeginSendingChain(header.ratchetKey, newKey);
    }

    method TrySkippedKeys(m: Message, associatedData: Bytes) returns (plain: Option<Bytes>)
      modifies `skipped
      ensures var i := FirstFit(old(skipped), m, associatedData);
              if i < |old(skipped)| then skipped == Without(old(skipped), i)
                                         && plain == OpenBody(old(skipped)[i].messageKey, m, associatedData) && plain.Some?
              else skipped == old(skipped) && plain.None?
    {
      for i := 0 to |skipped|
        invariant skipped == old(skipped)
        invariant forall k :: 0 <= k < i ==> !Fits(skipped[k], m, associatedData)
      {
        var e := skipped[i];
        var header := Open(e.headerKey, m.header);
        if header.Some? && header.value.messageNumber == e.number {
          plain := OpenBody(e.messageKey, m, associatedData);
          if plain.Some? {
            skipped := Without(skipped, i);
            return;
          }
        }
      }
      return None;
    }

    method Encrypt(plain: Bytes, associatedData: Bytes, now: int, nonce: nat) returns (m: Option<Message>)
      modifies this
      ensures Sent(Snapshot(), m) == AfterEncrypt(old(Snapshot()), plain, associatedData, now, nonce)
    {
      hide Pruned;
      PruneSkipped(now);
      if sendingChain.None? || headerKeySending.None? {
        return None;
      }
      var chain := sendingChain.value;
      sendingChain := Some(NextChainKey(chain));
      var header := SealedHeader(headerKeySending.value, nonce,
                                 Header(sending, previousChainLength % TWO32, sentCount % TWO32));
      sentCount := sentCount + 1;
      return Some(Message(header, SealedBody(MessageKey(chain), plain, associatedData, header)));
    }

    method Decrypt(m: Message, associatedData: Bytes, now: int, newKey: Secret) returns (plain: Option<Bytes>)
      modifies this
      ensures Received(Snapshot(), plain) == AfterDecrypt(old(Snapshot()), m, associatedData, now, newKey)
    {
      hide Pruned, SkipTo, FirstFit, Fits, AfterDhRatchet;
      PruneSkipped(now);
      plain := TrySkippedKeys(m, associatedData);
      if plain.Some? {
        return;
      }
      var n: nat;
      match MatchHeader(Snapshot(), m.header) {
        case Unreadable =>
          return None;
        case Current(header) =>
          n := header.messageNumber;
        case Ahead(header) =>
          n := header.messageNumber;
          var ok := SkipMessageKeys(header.previousChainLength, now);
          if !ok {
            return None;
          }
          DhRatchet(header, newKey);
      }
      var ok := SkipMessageKeys(n, now);
      if !ok {
        return None;
      }
      if receivingChain.None? {
        return None;
      }
      var chain := receivingChain.value;
      receivingChain := Some(NextChainKey(chain));
      receivedCount := receivedCount + 1;
      return OpenBody(MessageKey(chain), m, associatedData);
    }
  }

  /** The stored session of one peer device. */
  class SessionStore {
    var saved: State

    constructor (s: State)
      ensures saved == s
    {
      saved := s;
    }

    /** `usable` is what comes between decrypting and saving: decoding, and the check that the sender's identity
        key is the one we know. */
    method Receive(m: Message, associatedData: Bytes, now: int, newKey: Secret, usable: Bytes -> bool)
      returns (plain: Option<Bytes>)
      modifies this
      ensures var r := AfterDelivery(old(saved), m, associatedData, now, newKey);
              Received(saved, plain) == if r.plain.Some? && usable(r.plain.value) then r else Received(old(saved), None)
    {
      hide AfterDecrypt;
      var ratchet := new RatchetState(saved);
      plain := ratchet.Decrypt(m, associatedData, now, newKey);
      if plain.None? || !usable(plain.value) {
        return None;
      }
      saved := ratchet.Snapshot();
    }
  }
}
