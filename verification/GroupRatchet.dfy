/**
 The sender-key ratchet of a group, in group.ts, over symbolic cryptography: a ciphertext opens only with its
 key and associated data, and a signature verifies only for the signer and the content it was made for.
 */
module GroupRatchet {
  import opened Bytes

  const MAX_GROUP_SKIP: nat := 1000
  const MAX_GROUP_SKIPPED_KEYS: nat := 1000
  const GROUP_SKIPPED_KEY_TTL_MS: nat := 7 * 24 * 60 * 60 * 1000

  datatype ChainKey = Seed(id: nat) | Next(chain: ChainKey)

  datatype MessageKey = MessageKey(chain: ChainKey)

  /** The k-fold chain step. */
  function Steps(chain: ChainKey, k: nat): ChainKey {
    if k == 0 then chain else Next(Steps(chain, k - 1))
  }

  type Signer = nat

  datatype Ciphertext = Ciphertext(key: MessageKey, plain: Bytes, groupId: string, iteration: nat, signer: Signer)

  datatype Signature = Signature(signer: Signer, groupId: string, iteration: nat, ciphertext: Ciphertext)

  datatype GroupMessage = GroupMessage(groupId: string, iteration: nat, ciphertext: Ciphertext, signature: Signature)

  predicate Verifies(signer: Signer, m: GroupMessage) {
    m.signature == Signature(signer, m.groupId, m.iteration, m.ciphertext)
  }

  function OpenBody(key: MessageKey, m: GroupMessage, signer: Signer): Option<Bytes> {
    if m.ciphertext.key == key && m.ciphertext.groupId == m.groupId && m.ciphertext.iteration == m.iteration
       && m.ciphertext.signer == signer
    then Some(m.ciphertext.plain) else None
  }

  datatype Cached = Cached(position: nat, messageKey: MessageKey, storedAt: int)

  /** `skipped` lists the entries of the cache in insertion order. */
  datatype Receiver = Receiver(groupId: string, chainKey: ChainKey, iteration: nat, signer: Signer, skipped: seq<Cached>)

  // ----- the cache -----

  function Unexpired(skipped: seq<Cached>, cutoff: int): seq<Cached> {
    if skipped == [] then []
    else
      var n := |skipped| - 1;
      Unexpired(skipped[..n], cutoff) + if skipped[n].storedAt < cutoff then [] else [skipped[n]]
  }

  function Newest(skipped: seq<Cached>): seq<Cached> {
    if |skipped| > MAX_GROUP_SKIPPED_KEYS then skipped[|skipped| - MAX_GROUP_SKIPPED_KEYS..] else skipped
  }

  function Pruned(skipped: seq<Cached>, now: int): seq<Cached> {
    Newest(Unexpired(skipped, now - GROUP_SKIPPED_KEY_TTL_MS))
  }

  /** The place of the entry for a position; the length if there is none. */
  function PlaceOf(skipped: seq<Cached>, position: nat): (i: nat)
    ensures i <= |skipped|
    ensures i < |skipped| ==> skipped[i].position == position
    ensures forall k :: 0 <= k < i ==> skipped[k].position != position
  {
    if skipped == [] || skipped[0].position == position then 0 else 1 + PlaceOf(skipped[1..], position)
  }

  function Without(skipped: seq<Cached>, i: nat): seq<Cached>
    requires i < |skipped|
  {
    skipped[..i] + skipped[i + 1..]
  }

  /** Map.set: a position that is present keeps its place. */
  function Put(skipped: seq<Cached>, e: Cached): seq<Cached> {
    var i := PlaceOf(skipped, e.position);
    if i < |skipped| then skipped[i := e] else skipped + [e]
  }

  /** The keys of positions first .. first + count - 1 of a chain that stands at `first` move into the cache. */
  function PutRange(skipped: seq<Cached>, chain: ChainKey, first: nat, count: nat, now: int): seq<Cached> {
    if count == 0 then skipped
    else Put(PutRange(skipped, chain, first, count - 1, now),
             Cached(first + count - 1, MessageKey(Steps(chain, count - 1)), now))
  }

  // ----- taking a key, decrypting -----

  datatype Taken = Taken(state: Receiver, key: Option<MessageKey>)

  function AfterTake(r: Receiver, n: nat, now: int): Taken {
    var i := PlaceOf(r.skipped, n);
    if i < |r.skipped| then Taken(r.(skipped := Without(r.skipped, i)), Some(r.skipped[i].messageKey))
    else if n < r.iteration || n - r.iteration > MAX_GROUP_SKIP then Taken(r, None)
    else
      var count := n - r.iteration;
      Taken(r.(chainKey := Steps(r.chainKey, count + 1), iteration := n + 1,
               skipped := Pruned(PutRange(r.skipped, r.chainKey, r.iteration, count, now), now)),
            Some(MessageKey(Steps(r.chainKey, count))))
  }

  datatype Received = Received(state: Receiver, plain: Option<Bytes>)

  function AfterDecrypt(r: Receiver, m: GroupMessage, now: int): Received {
    if m.groupId != r.groupId || !Verifies(r.signer, m) then Received(r, None)
    else
      var taken := AfterTake(r, m.iteration, now);
      Received(taken.state, if taken.key.Some? then OpenBody(taken.key.value, m, r.signer) else None)
  }

  /** The session manager's transaction: load, decrypt, save only when the message authenticated. */
  function AfterDelivery(saved: Receiver, m: GroupMessage, now: int): Received {
    var r := AfterDecrypt(saved, m, now);
    if r.plain.Some? then r else Received(saved, None)
  }

  // ----- the objects that the source mutates -----

  class ReceiverKey {
    const groupId: string
    const signer: Signer
    var chainKey: ChainKey
    var iteration: nat
    var skipped: seq<Cached>

    constructor (r: Receiver)
      ensures Snapshot() == r
    {
      groupId, signer, chainKey, iteration, skipped := r.groupId, r.signer, r.chainKey, r.iteration, r.skipped;
    }

    function Snapshot(): Receiver
      reads this
    {
      Receiver(groupId, chainKey, iteration, signer, skipped)
    }

    method PruneSkipped(now: int)
      modifies `skipped
      ensures skipped == Pruned(old(skipped), now)
    {
      var cutoff := now - GROUP_SKIPPED_KEY_TTL_MS;
      var kept: seq<Cached> := [];
      for i := 0 to |skipped|
        invariant skipped == old(skipped) && kept == Unexpired(skipped[..i], cutoff)
      {
        assert skipped[..i + 1][..i] == skipped[..i];
        if skipped[i].storedAt >= cutoff {
          kept := kept + [skipped[i]];
        }
      }
      assert skipped[..|skipped|] == skipped;
      skipped := kept;
      ghost var dropped: nat := 0;
      assert kept[0..] == kept;
      while |skipped| > MAX_GROUP_SKIPPED_KEYS
        invariant dropped <= |kept| && skipped == kept[dropped..]
        invariant dropped > 0 ==> |skipped| >= MAX_GROUP_SKIPPED_KEYS
      {
        skipped := skipped[1..];
        dropped := dropped + 1;
        assert skipped == kept[dropped..];
      }
    }

    method TakeMessageKey(n: nat, now: int) returns (key: Option<MessageKey>)
      modifies this
      ensures Taken(Snapshot(), key) == AfterTake(old(Snapshot()), n, now)
    {
      hide Pruned, Put;
      var i := PlaceOf(skipped, n);
      if i < |skipped| {
        key := Some(skipped[i].messageKey);
        skipped := Without(skipped, i);
        return;
      }
      if n < iteration || n - iteration > MAX_GROUP_SKIP {
        return None;
      }
      key := None;
      ghost var chain, first, before := chainKey, iteration, skipped;
      ghost var count: nat := 0;
      while iteration <= n
        invariant iteration == first + count <= n + 1 && chainKey == Steps(chain, count)
        invariant skipped == PutRange(before, chain, first, if count <= n - first then count else n - first, now)
        invariant key == if iteration == n + 1 then Some(MessageKey(Steps(chain, n - first))) else None
      {
        if iteration == n {
          key := Some(MessageKey(chainKey));
        } else {
          skipped := Put(skipped, Cached(iteration, MessageKey(chainKey), now));
        }
        chainKey := Next(chainKey);
        iteration := iteration + 1;
        count := count + 1;
      }
      PruneSkipped(now);
    }

    method Decrypt(m: GroupMessage, now: int) returns (plain: Option<Bytes>)
      modifies this
      ensures Received(Snapshot(), plain) == AfterDecrypt(old(Snapshot()), m, now)
    {
      hide AfterTake;
      if m.groupId != groupId || !Verifies(signer, m) {
        return None;
      }
      var key := TakeMessageKey(m.iteration, now);
      plain := if key.Some? then OpenBody(key.value, m, signer) else None;
    }
  }

  class SenderKey {
    const groupId: string
    const signer: Signer
    var chainKey: ChainKey
    var iteration: nat

    constructor (groupId: string, seed: nat, signer: Signer)
      ensures this.groupId == groupId && this.signer == signer && chainKey == Seed(seed) && iteration == 0
    {
      this.groupId, this.signer, chainKey, iteration := groupId, signer, Seed(seed), 0;
    }

    /** The blob for the other members: the chain from its current position. */
    function Distribution(): Receiver
      reads this
    {
      Receiver(groupId, chainKey, iteration, signer, [])
    }

    method Encrypt(plain: Bytes) returns (m: GroupMessage)
      modifies this
      ensures chainKey == Next(old(chainKey)) && iteration == old(iteration) + 1
      ensures m == MessageAt(groupId, signer, old(chainKey), old(iteration), plain)
    {
      var key := MessageKey(chainKey);
      chainKey := Next(chainKey);
      var n := iteration % TWO32;
      iteration := iteration + 1;
      var ciphertext := Ciphertext(key, plain, groupId, n, signer);
      return GroupMessage(groupId, n, ciphertext, Signature(signer, groupId, n, ciphertext));
    }
  }

  /** What the sender emits at a position of its chain. */
  function MessageAt(groupId: string, signer: Signer, chain: ChainKey, n: nat, plain: Bytes): GroupMessage {
    var ciphertext := Ciphertext(MessageKey(chain), plain, groupId, n % TWO32, signer);
    GroupMessage(groupId, n % TWO32, ciphertext, Signature(signer, groupId, n % TWO32, ciphertext))
  }

  /** The receiver's stored chain of one sender. */
  class ReceiverStore {
    var saved: Receiver

    constructor (r: Receiver)
      ensures saved == r
    {
      saved := r;
    }

    /** `decodes` tells whether the content can be decoded, which comes between decrypting and saving. */
    method Receive(m: GroupMessage, now: int, decodes: Bytes -> bool) returns (plain: Option<Bytes>)
      modifies this
      ensures var r := AfterDelivery(old(saved), m, now);
              Received(saved, plain) == if r.plain.Some? && decodes(r.plain.value) then r else Received(old(saved), None)
    {
      hide AfterDecrypt;
      var receiver := new ReceiverKey(saved);
      plain := receiver.Decrypt(m, now);
      if plain.None? || !decodes(plain.value) {
        return None;
      }
      saved := receiver.Snapshot();
    }
  }
}
