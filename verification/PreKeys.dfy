/**
 Prekeys over their lifetime: the pool that the server hands out from, in memory.go, and the secrets that the
 device keeps, in pqxdh.ts and identity.ts.
 */
module PreKeys {
  import opened Bytes
  import opened Handshake

  // ----- the server's pool -----

  datatype Upload = Upload(identityKey: PublicKey, signed: SignedPublic, signedPq: SignedPublic,
                           oneTime: seq<OneTimePublic>, oneTimePq: seq<OneTimePublic>)

  function Pop(pool: seq<OneTimePublic>): (Option<OneTimePublic>, seq<OneTimePublic>) {
    if pool == [] then (None, []) else (Some(pool[|pool| - 1]), pool[..|pool| - 1])
  }

  /** One-time keys accumulate; the signed ones are replaced. */
  function AfterPut(pool: Option<Upload>, up: Upload): Upload {
    if pool.None? then up
    else up.(oneTime := pool.value.oneTime + up.oneTime, oneTimePq := pool.value.oneTimePq + up.oneTimePq)
  }

  function BundleOf(pool: Upload): Bundle {
    Bundle(pool.identityKey, pool.signed, pool.signedPq, Pop(pool.oneTime).0, Pop(pool.oneTimePq).0)
  }

  function AfterTake(pool: Upload): Upload {
    pool.(oneTime := Pop(pool.oneTime).1, oneTimePq := Pop(pool.oneTimePq).1)
  }

  class KeyPool {
    var keys: Option<Upload>

    constructor ()
      ensures keys == None
    {
      keys := None;
    }

    method PutKeys(up: Upload)
      modifies this
      ensures keys == Some(AfterPut(old(keys), up))
    {
      if keys.None? {
        keys := Some(up);
      } else {
        keys := Some(Upload(up.identityKey, up.signed, up.signedPq, keys.value.oneTime + up.oneTime,
                            keys.value.oneTimePq + up.oneTimePq));
      }
    }

    method TakeBundle() returns (bundle: Option<Bundle>)
      modifies this
      ensures old(keys).None? ==> bundle.None? && keys.None?
      ensures old(keys).Some? ==> bundle == Some(BundleOf(old(keys).value)) && keys == Some(AfterTake(old(keys).value))
    {
      if keys.None? {
        return None;
      }
      var pool := keys.value;
      var b := Bundle(pool.identityKey, pool.signed, pool.signedPq, None, None);
      if |pool.oneTime| > 0 {
        var n := |pool.oneTime| - 1;
        b := b.(oneTime := Some(pool.oneTime[n]));
        pool := pool.(oneTime := pool.oneTime[..n]);
      }
      if |pool.oneTimePq| > 0 {
        var n := |pool.oneTimePq| - 1;
        b := b.(oneTimePq := Some(pool.oneTimePq[n]));
        pool := pool.(oneTimePq := pool.oneTimePq[..n]);
      }
      keys := Some(pool);
      bundle := Some(b);
    }
  }

  // ----- topping up -----

  lemma {:induction false} HasHighest(ids: set<nat>) returns (h: nat)
    requires ids != {}
    ensures h in ids && forall id :: id in ids ==> id <= h
    decreases |ids|
  {
    var first :| first in ids;
    h := first;
    var rest := ids - {first};
    if rest != {} {
      var other := HasHighest(rest);
      if other > first {
        h := other;
      }
    }
    assert forall id :: id in ids ==> id == first || id in rest;
  }

  lemma HighestExists(ids: set<nat>)
    requires ids != {}
    ensures exists h: nat :: h in ids && forall id :: id in ids ==> id <= h
  {
    var h := HasHighest(ids);
  }

  /** The highest of these ids; 0 if there is none. */
  ghost function Highest(ids: set<nat>): (h: nat)
    ensures forall id :: id in ids ==> id <= h
    ensures if ids == {} then h == 0 else h in ids
  {
    if ids == {} then 0
    else
      HighestExists(ids);
      var h: nat :| h in ids && forall id :: id in ids ==> id <= h;
      h
  }

  /** The secrets under consecutive ids. */
  function Numbered(start: nat, secrets: seq<Bytes>): (m: map<nat, Bytes>)
    ensures forall id :: id in m <==> start <= id < start + |secrets|
    ensures forall id :: id in m ==> m[id] == secrets[id - start]
  {
    if secrets == [] then map[]
    else
      var n := |secrets| - 1;
      Numbered(start, secrets[..n])[start + n := secrets[n]]
  }

  function Joined(held: map<nat, Bytes>, start: nat, secrets: seq<Bytes>): map<nat, Bytes> {
    held + Numbered(start, secrets)
  }

  function PublicsOf(start: nat, secrets: seq<Bytes>): seq<OneTimePublic> {
    seq(|secrets|, i requires 0 <= i < |secrets| => OneTimePublic(start + i, Pub(secrets[i])))
  }

  /** Both kinds of key are numbered on from the highest classical id that is still held. */
  ghost function StartId(k: Keys): nat {
    Highest(k.oneTime.Keys) + 1
  }

  ghost function ToppedUp(k: Keys, secrets: seq<Bytes>, secretsPq: seq<Bytes>): Keys {
    k.(oneTime := Joined(k.oneTime, StartId(k), secrets), oneTimePq := Joined(k.oneTimePq, StartId(k), secretsPq))
  }

  lemma OneMore(held: map<nat, Bytes>, start: nat, secrets: seq<Bytes>, i: nat)
    requires i < |secrets|
    ensures Joined(held, start, secrets[..i + 1]) == Joined(held, start, secrets[..i])[start + i := secrets[i]]
    ensures PublicsOf(start, secrets[..i + 1]) == PublicsOf(start, secrets[..i]) + [OneTimePublic(start + i, Pub(secrets[i]))]
  {
    assert secrets[..i + 1][..i] == secrets[..i];
  }

  lemma NoneYet(held: map<nat, Bytes>, start: nat, secrets: seq<Bytes>)
    ensures Joined(held, start, secrets[..0]) == held && PublicsOf(start, secrets[..0]) == []
  {
  }

  // ----- the device's secrets -----

  /** Key material in a buffer that its owner may wipe. */
  class KeyBuffer {
    var bytes: Bytes

    constructor (bytes: Bytes)
      ensures this.bytes == bytes
    {
      this.bytes := bytes;
    }

    method Wipe()
      modifies this
      ensures bytes == seq(|old(bytes)|, _ => 0)
    {
      var zeros: Bytes := [];
      for i := 0 to |bytes|
        invariant bytes == old(bytes) && zeros == seq(i, _ => 0)
      {
        zeros := zeros + [0];
      }
      bytes := zeros;
    }
  }

  datatype SignedBuffer = SignedBuffer(id: nat, secret: KeyBuffer)

  class PreKeySecrets {
    const identity: Bytes
    var signed: SignedBuffer
    var previous: Option<SignedBuffer>
    var signedPq: Secret
    var previousPq: Option<Secret>
    var oneTime: map<nat, KeyBuffer>
    var oneTimePq: map<nat, Bytes>

    /** No one-time buffer is a signed prekey's, and no two are one. */
    ghost predicate Valid()
      reads this
    {
      && signed.secret !in oneTime.Values
      && (previous.Some? ==> previous.value.secret !in oneTime.Values)
      && (forall i, k :: i in oneTime && k in oneTime && i != k ==> oneTime[i] != oneTime[k])
    }

    ghost function Snapshot(): Keys
      reads this, signed.secret, if previous.Some? then {previous.value.secret} else {}, oneTime.Values
    {
      Keys(identity, Secret(signed.id, signed.secret.bytes), signedPq,
           if previous.Some? then Some(Secret(previous.value.id, previous.value.secret.bytes)) else None, previousPq,
           map i | i in oneTime :: oneTime[i].bytes, oneTimePq)
    }

    constructor (identity: Bytes, signedId: nat, signedSecret: Bytes, signedPq: Secret)
      ensures Valid() && Snapshot() == Keys(identity, Secret(signedId, signedSecret), signedPq, None, None, map[], map[])
      ensures fresh(signed.secret)
    {
      this.identity, this.signedPq := identity, signedPq;
      previous, previousPq, oneTime, oneTimePq := None, None, map[], map[];
      var buffer := new KeyBuffer(signedSecret);
      signed := SignedBuffer(signedId, buffer);
    }

    /** Take a one-time key out of the pool and wipe its buffer. */
    method UseUp(id: nat) returns (key: Option<Bytes>)
      requires Valid()
      modifies `oneTime, oneTime.Values
      ensures Valid() && oneTime == old(oneTime) - {id} && signed.secret.bytes == old(signed.secret.bytes)
      ensures key == if id in old(oneTime) then Some(old(oneTime[id].bytes)) else None
      ensures Snapshot() == old(Snapshot()).(oneTime := old(Snapshot()).oneTime - {id})
    {
      if id !in oneTime {
        assert Snapshot().oneTime - {id} == Snapshot().oneTime;
        assert oneTime - {id} == oneTime;
        return None;
      }
      var buffer := oneTime[id];
      key := Some(buffer.bytes);
      buffer.Wipe();
      oneTime := oneTime - {id};
    }

    method NextId() returns (start: nat)
      requires Valid()
      ensures start == StartId(Snapshot())
    {
      var highest: nat := 0;
      var todo := oneTime.Keys;
      while todo != {}
        invariant todo <= oneTime.Keys
        invariant forall x :: x in oneTime.Keys ==> x in todo || x <= highest
        invariant highest == 0 || highest in oneTime.Keys
        decreases todo
      {
        var id :| id in todo;
        if id > highest {
          highest := id;
        }
        todo := todo - {id};
      }
      assert Snapshot().oneTime.Keys == oneTime.Keys;
      return highest + 1;
    }

    /** One new classical key. */
    method Put(id: nat, secret: Bytes)
      requires Valid()
      modifies `oneTime
      ensures Valid() && Snapshot() == old(Snapshot()).(oneTime := old(Snapshot()).oneTime[id := secret])
    {
      var buffer := new KeyBuffer(secret);
      oneTime := oneTime[id := buffer];
    }

    method AddClassical(start: nat, secrets: seq<Bytes>) returns (publics: seq<OneTimePublic>)
      requires Valid()
      modifies `oneTime
      ensures Valid() && publics == PublicsOf(start, secrets)
      ensures Snapshot() == old(Snapshot()).(oneTime := Joined(old(Snapshot()).oneTime, start, secrets))
    {
      hide PublicsOf, Joined, Numbered, Snapshot, Valid;
      publics := [];
      ghost var k := Snapshot();
      NoneYet(k.oneTime, start, secrets);
      for i := 0 to |secrets|
        invariant Valid() && publics == PublicsOf(start, secrets[..i])
        invariant Snapshot() == k.(oneTime := Joined(k.oneTime, start, secrets[..i]))
      {
        OneMore(k.oneTime, start, secrets, i);
        Put(start + i, secrets[i]);
        publics := publics + [OneTimePublic(start + i, Pub(secrets[i]))];
      }
      assert secrets[..|secrets|] == secrets;
    }

    method AddPq(start: nat, secrets: seq<Bytes>) returns (publics: seq<OneTimePublic>)
      requires Valid()
      modifies `oneTimePq
      ensures Valid() && publics == PublicsOf(start, secrets)
      ensures Snapshot() == old(Snapshot()).(oneTimePq := Joined(old(Snapshot()).oneTimePq, start, secrets))
    {
      hide PublicsOf, Joined, Numbered;
      publics := [];
      ghost var before := oneTimePq;
      NoneYet(before, start, secrets);
      for i := 0 to |secrets|
        invariant publics == PublicsOf(start, secrets[..i])
        invariant oneTimePq == Joined(before, start, secrets[..i])
      {
        OneMore(before, start, secrets, i);
        oneTimePq := oneTimePq[start + i := secrets[i]];
        publics := publics + [OneTimePublic(start + i, Pub(secrets[i]))];
      }
      assert secrets[..|secrets|] == secrets;
    }

    /** New one-time keys join the pools; what is returned is to be published. */
    method TopUp(secrets: seq<Bytes>, secretsPq: seq<Bytes>) returns (publics: seq<OneTimePublic>, publicsPq: seq<OneTimePublic>)
      requires Valid()
      modifies this
      ensures Valid() && Snapshot() == ToppedUp(old(Snapshot()), secrets, secretsPq)
      ensures publics == PublicsOf(StartId(old(Snapshot())), secrets) && publicsPq == PublicsOf(StartId(old(Snapshot())), secretsPq)
    {
      hide PublicsOf, Joined, Numbered, Highest;
      ghost var k := Snapshot();
      var start := NextId();
      publics := AddClassical(start, secrets);
      publicsPq := AddPq(start, secretsPq);
    }

    /** The current signed prekey, or the one it replaced. */
    method FindSigned(id: nat) returns (found: Option<KeyBuffer>)
      requires Valid()
      ensures Held(id, Snapshot().signed, Snapshot().previous) == if found.Some? then Some(found.value.bytes) else None
    {
      return if signed.id == id then Some(signed.secret)
             else if previous.Some? && previous.value.id == id then Some(previous.value.secret) else None;
    }

    /** The key that opens the KEM ciphertext; a one-time key is used up. */
    method TakePqKey(init: Init) returns (key: Option<Bytes>)
      requires Valid()
      modifies `oneTimePq
      ensures Valid()
      ensures key == if !init.usedOneTimePq then Held(init.pqId, signedPq, previousPq)
                     else if init.pqId in old(oneTimePq) then Some(old(oneTimePq)[init.pqId]) else None
      ensures oneTimePq == if init.usedOneTimePq then old(oneTimePq) - {init.pqId} else old(oneTimePq)
    {
      if init.usedOneTimePq {
        key := if init.pqId in oneTimePq then Some(oneTimePq[init.pqId]) else None;
        oneTimePq := oneTimePq - {init.pqId};
      } else {
        key := Held(init.pqId, signedPq, previousPq);
      }
    }

    /** The key pair for the ratchet is a copy, which the ratchet may wipe. */
    method FinishSession(init: Init, secret: Bytes, dh4: Option<Bytes>) returns (agreed: Option<Agreed>, ratchetKey: KeyBuffer)
      requires Valid()
      modifies `oneTimePq
      ensures Valid() && fresh(ratchetKey)
      ensures Accepted(Snapshot(), agreed, ratchetKey.bytes) == Conclude(old(Snapshot()), init, secret, dh4)
    {
      hide Dh, Decapsulate, ResponderParts, Held;
      ghost var pool := oneTimePq;
      var pq := TakePqKey(init);
      assert Snapshot() == old(Snapshot()).(oneTimePq := oneTimePq);
      if pq.None? {
        assert pool - {init.pqId} == pool || !init.usedOneTimePq;
        agreed := None;
        ratchetKey := new KeyBuffer([]);
      } else {
        agreed := Some(AgreedOn(ResponderParts(secret, identity, dh4, pq.value, init), init.identityKey, Pub(identity)));
        ratchetKey := new KeyBuffer(secret);
      }
    }

    method AcceptSession(init: Init) returns (agreed: Option<Agreed>, ratchetKey: KeyBuffer)
      requires Valid()
      modifies this, oneTime.Values
      ensures Valid() && fresh(ratchetKey)
      ensures signed == old(signed) && previous == old(previous) && oneTime.Values <= old(oneTime.Values)
      ensures Accepted(Snapshot(), agreed, ratchetKey.bytes) == Accept(old(Snapshot()), init)
    {
      hide Conclude, Held;
      var found := FindSigned(init.signedId);
      if found.None? {
        agreed := None;
        ratchetKey := new KeyBuffer([]);
        return;
      }
      var secret := found.value.bytes;
      var dh4: Option<Bytes> := None;
      if init.oneTimeId.Some? {
        if init.oneTimeId.value !in oneTime {
          agreed := None;
          ratchetKey := new KeyBuffer([]);
          return;
        }
        dh4 := UseUp(init.oneTimeId.value);
      }
      agreed, ratchetKey := FinishSession(init, secret, dh4);
    }

    /** Whatever the ratchet does with its key pair, wiping included, the stored prekeys stay as they are. */
    method AcceptThenWipe(init: Init) returns (agreed: Option<Agreed>)
      requires Valid()
      modifies this, oneTime.Values
      ensures Valid() && agreed == Accept(old(Snapshot()), init).agreed
      ensures Snapshot() == Accept(old(Snapshot()), init).keys
    {
      hide Accept;
      var ratchetKey: KeyBuffer;
      agreed, ratchetKey := AcceptSession(init);
      label accepted:
      ratchetKey.Wipe();
      assert Snapshot() == old@accepted(Snapshot());
    }
  }
}
