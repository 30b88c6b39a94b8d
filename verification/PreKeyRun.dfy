/**
 Runs of the prekey pool: the device tops up and rotates, the server hands out bundles, and handshakes arrive,
 honest or not. A top-up numbers its keys as the device does, so ids may come back; secrets are new each time.
 */
module PreKeyRun {
  import opened Bytes
  import opened Handshake
  import opened PreKeys

  function IdsOf(s: seq<OneTimePublic>): set<nat> {
    set p | p in s :: p.id
  }

  function SecretsOf(s: seq<OneTimePublic>): set<Bytes> {
    set p | p in s :: p.key.secret
  }

  /** No key stands in the list twice. */
  ghost predicate Distinct(s: seq<OneTimePublic>) {
    forall i, k :: 0 <= i < k < |s| ==> s[i].key != s[k].key
  }

  ghost predicate Injective(held: map<nat, Bytes>) {
    forall i, k :: i in held && k in held && i != k ==> held[i] != held[k]
  }

  /** New secrets, unlike each other and all that were made before. */
  ghost predicate New(secrets: seq<Bytes>, made: set<Bytes>) {
    && (forall i, k :: 0 <= i < k < |secrets| ==> secrets[i] != secrets[k])
    && (forall i :: 0 <= i < |secrets| ==> secrets[i] !in made)
  }

  /** The held keys that a top-up writes over. */
  function Overwritten(held: map<nat, Bytes>, start: nat, n: nat): set<Bytes> {
    set id | id in held && start <= id < start + n :: held[id]
  }

  function Removed(held: map<nat, Bytes>, after: map<nat, Bytes>): set<Bytes> {
    set id | id in held && id !in after :: held[id]
  }

  // ----- one kind of one-time key -----

  /** `pool` waits at the server, `out` was handed out, `held` is on the device, and `gone` is no longer there. */
  ghost predicate PoolInv(pool: seq<OneTimePublic>, out: seq<OneTimePublic>, held: map<nat, Bytes>, gone: set<Bytes>, made: set<Bytes>) {
    && Distinct(pool) && Distinct(out) && SecretsOf(pool) !! SecretsOf(out)
    && Injective(held) && gone !! held.Values
    && SecretsOf(pool) + SecretsOf(out) + held.Values + gone <= made
    && (forall p :: p in pool || p in out ==> p.key.secret in gone || Matches(p, held))
  }

  /** A key that was published still answers under its id exactly if it is not gone. */
  lemma AnswersIff(pool: seq<OneTimePublic>, out: seq<OneTimePublic>, held: map<nat, Bytes>, gone: set<Bytes>, made: set<Bytes>, p: OneTimePublic)
    requires PoolInv(pool, out, held, gone, made) && (p in pool || p in out)
    ensures Matches(p, held) <==> p.key.secret !in gone
  {
    hide Distinct, Injective, SecretsOf;
    if Matches(p, held) {
      assert held[p.id] in held.Values;
    }
  }

  lemma DistinctConcat(a: seq<OneTimePublic>, b: seq<OneTimePublic>)
    requires Distinct(a) && Distinct(b) && SecretsOf(a) !! SecretsOf(b)
    ensures Distinct(a + b) && SecretsOf(a + b) == SecretsOf(a) + SecretsOf(b)
  {
    forall i, k | 0 <= i < |a| && 0 <= k < |b|
      ensures a[i].key != b[k].key
    {
      assert a[i] in a && b[k] in b;
      assert a[i].key.secret in SecretsOf(a) && b[k].key.secret in SecretsOf(b);
    }
  }

  lemma PublicsAre(start: nat, secrets: seq<Bytes>, made: set<Bytes>)
    requires New(secrets, made)
    ensures var more := PublicsOf(start, secrets); Distinct(more) && SecretsOf(more) == Elements(secrets)
  {
    var more := PublicsOf(start, secrets);
    forall x | x in secrets
      ensures x in SecretsOf(more)
    {
      var i :| 0 <= i < |secrets| && secrets[i] == x;
      assert more[i] in more;
    }
  }

  lemma JoinedIs(held: map<nat, Bytes>, start: nat, secrets: seq<Bytes>, made: set<Bytes>)
    requires Injective(held) && held.Values <= made && New(secrets, made)
    ensures var after := Joined(held, start, secrets);
            && Injective(after) && after.Values <= held.Values + Elements(secrets)
            && Overwritten(held, start, |secrets|) !! after.Values
            && Overwritten(held, start, |secrets|) <= held.Values
  {
    var after := Joined(held, start, secrets);
    forall id | id in held
      ensures held[id] in made
    {
      assert held[id] in held.Values;
    }
    forall id | id in after
      ensures after[id] == if start <= id < start + |secrets| then secrets[id - start] else held[id]
    {
    }
  }

  lemma JoinedMatches(held: map<nat, Bytes>, start: nat, secrets: seq<Bytes>, p: OneTimePublic)
    requires p in PublicsOf(start, secrets) || (Matches(p, held) && p.key.secret !in Overwritten(held, start, |secrets|))
    ensures Matches(p, Joined(held, start, secrets))
  {
  }

  lemma TopUpKeepsPool(pool: seq<OneTimePublic>, out: seq<OneTimePublic>, held: map<nat, Bytes>, gone: set<Bytes>, made: set<Bytes>,
                       start: nat, secrets: seq<Bytes>)
    requires PoolInv(pool, out, held, gone, made) && New(secrets, made)
    ensures PoolInv(pool + PublicsOf(start, secrets), out, Joined(held, start, secrets),
                    gone + Overwritten(held, start, |secrets|), made + Elements(secrets))
  {
    hide Distinct, Injective, SecretsOf, Joined, Overwritten, PublicsOf, Matches, New;
    var more, after := PublicsOf(start, secrets), Joined(held, start, secrets);
    NewAreNew(secrets, made);
    PublicsAre(start, secrets, made);
    JoinedIs(held, start, secrets, made);
    DistinctConcat(pool, more);
    forall p | p in pool + more || p in out
      ensures p.key.secret in gone + Overwritten(held, start, |secrets|) || Matches(p, after)
    {
      if p in more || (Matches(p, held) && p.key.secret !in Overwritten(held, start, |secrets|)) {
        JoinedMatches(held, start, secrets, p);
      }
    }
  }

  lemma NewAreNew(secrets: seq<Bytes>, made: set<Bytes>)
    requires New(secrets, made)
    ensures Elements(secrets) !! made
  {
  }

  lemma TakeKeepsPool(pool: seq<OneTimePublic>, out: seq<OneTimePublic>, held: map<nat, Bytes>, gone: set<Bytes>, made: set<Bytes>)
    requires PoolInv(pool, out, held, gone, made) && pool != []
    ensures PoolInv(pool[..|pool| - 1], out + [pool[|pool| - 1]], held, gone, made)
  {
    hide Injective, Matches;
    var n := |pool| - 1;
    var front, last := pool[..n], pool[n];
    assert pool == front + [last];
    assert last in pool && last.key.secret in SecretsOf(pool);
    assert SecretsOf([last]) == {last.key.secret};
    DistinctConcat(out, [last]);
    forall p | p in front
      ensures p.key != last.key && p in pool && p.key.secret in SecretsOf(pool)
    {
    }
  }

  lemma UseKeepsPool(pool: seq<OneTimePublic>, out: seq<OneTimePublic>, held: map<nat, Bytes>, gone: set<Bytes>, made: set<Bytes>,
                     after: map<nat, Bytes>, id: nat)
    requires PoolInv(pool, out, held, gone, made) && (after == held || after == held - {id})
    ensures PoolInv(pool, out, after, gone + Removed(held, after), made)
  {
    hide Distinct, SecretsOf;
    forall i | i in held
      ensures held[i] in held.Values
    {
    }
    forall p | p in pool || p in out
      ensures p.key.secret in gone + Removed(held, after) || Matches(p, after)
    {
    }
  }

  // ----- runs -----

  /** Of one kind of key: what was used up, what a top-up wrote over, the keys of the handshakes accepted so far,
      and every secret ever made. */
  datatype Past = Past(used: set<Bytes>, lost: set<Bytes>, accepted: seq<Bytes>, made: set<Bytes>)

  /** `handed` lists the bundles handed out, and `uploaded` every one-time id ever published, up to `newest`. */
  datatype Life = Life(pool: Upload, keys: Keys, handed: seq<Bundle>, out: seq<OneTimePublic>, outPq: seq<OneTimePublic>,
                       past: Past, pastPq: Past, uploaded: set<nat>, newest: nat)

  datatype Step =
    | TopUp(secrets: seq<Bytes>, secretsPq: seq<Bytes>)
    | Take
    | Handshakes(init: Init)
    | Rotate(signed: Bytes, signedPq: Bytes)

  function Sign(k: Keys, s: Secret): SignedPublic {
    SignedPublic(s.id, Pub(s.key), Pub(k.identity))
  }

  function UploadOf(k: Keys, oneTime: seq<OneTimePublic>, oneTimePq: seq<OneTimePublic>): Upload {
    Upload(Pub(k.identity), Sign(k, k.signed), Sign(k, k.signedPq), oneTime, oneTimePq)
  }

  function Took(out: seq<OneTimePublic>, p: Option<OneTimePublic>): seq<OneTimePublic> {
    if p.Some? then out + [p.value] else out
  }

  /** Key generation never repeats itself, and makes as many keys of one kind as of the other. */
  ghost predicate Enabled(y: Life, x: Step) {
    x.TopUp? ==> New(x.secrets, y.past.made) && New(x.secretsPq, y.pastPq.made) && |x.secrets| == |x.secretsPq|
  }

  function PastTopUp(p: Past, held: map<nat, Bytes>, start: nat, secrets: seq<Bytes>): Past {
    p.(lost := p.lost + Overwritten(held, start, |secrets|), made := p.made + Elements(secrets))
  }

  function PastUse(p: Past, held: map<nat, Bytes>, after: map<nat, Bytes>, accepted: bool, id: nat): Past {
    p.(used := p.used + Removed(held, after), accepted := if accepted && id in held then p.accepted + [held[id]] else p.accepted)
  }

  function Named(init: Init): nat {
    if init.oneTimeId.Some? then init.oneTimeId.value else 0
  }

  ghost function After(y: Life, x: Step): Life {
    match x
    case TopUp(secrets, secretsPq) =>
      var start, n := StartId(y.keys), |secrets|;
      var k := ToppedUp(y.keys, secrets, secretsPq);
      y.(keys := k, pool := AfterPut(Some(y.pool), UploadOf(k, PublicsOf(start, secrets), PublicsOf(start, secretsPq))),
         past := PastTopUp(y.past, y.keys.oneTime, start, secrets), pastPq := PastTopUp(y.pastPq, y.keys.oneTimePq, start, secretsPq),
         uploaded := y.uploaded + IdsOf(PublicsOf(start, secrets)),
         newest := if start + n - 1 > y.newest then start + n - 1 else y.newest)
    case Take =>
      var b := BundleOf(y.pool);
      y.(pool := AfterTake(y.pool), handed := y.handed + [b], out := Took(y.out, b.oneTime), outPq := Took(y.outPq, b.oneTimePq))
    case Handshakes(init) =>
      var r := Accept(y.keys, init);
      y.(keys := r.keys,
         past := PastUse(y.past, y.keys.oneTime, r.keys.oneTime, r.agreed.Some? && init.oneTimeId.Some?, Named(init)),
         pastPq := PastUse(y.pastPq, y.keys.oneTimePq, r.keys.oneTimePq, r.agreed.Some? && init.usedOneTimePq, init.pqId))
    case Rotate(signed, signedPq) =>
      var k := Rotated(y.keys, signed, signedPq);
      y.(keys := k, pool := AfterPut(Some(y.pool), UploadOf(k, [], [])))
  }

  /** The keys accepted are different ones, all used up. */
  ghost predicate Once(p: Past) {
    && (forall i, k :: 0 <= i < k < |p.accepted| ==> p.accepted[i] != p.accepted[k])
    && (forall i :: 0 <= i < |p.accepted| ==> p.accepted[i] in p.used)
  }

  /** No top-up has written over a classical key. */
  ghost predicate PoolsInv(y: Life) {
    && PoolInv(y.pool.oneTime, y.out, y.keys.oneTime, y.past.used + y.past.lost, y.past.made)
    && PoolInv(y.pool.oneTimePq, y.outPq, y.keys.oneTimePq, y.pastPq.used + y.pastPq.lost, y.pastPq.made)
    && Once(y.past) && Once(y.pastPq) && y.past.lost == {}
  }

  /** The ids uploaded so far are 1 up to the newest one, and those held are among them. */
  ghost predicate IdsInv(y: Life) {
    && (forall id :: id in y.uploaded <==> 1 <= id <= y.newest)
    && y.keys.oneTime.Keys <= y.uploaded
  }

  /** If the device still has signed keys of these ids, they are the ones in the bundle. */
  predicate SignedOk(id: nat, key: PublicKey, current: Secret, previous: Option<Secret>) {
    && id <= current.id && (id == current.id ==> key == Pub(current.key))
    && (previous.Some? && id == previous.value.id ==> key == Pub(previous.value.key))
  }

  ghost predicate BundleInv(y: Life, b: Bundle) {
    && b.identityKey == Pub(y.keys.identity) && Verifies(b)
    && SignedOk(b.signed.id, b.signed.key, y.keys.signed, y.keys.previous)
    && SignedOk(b.signedPq.id, b.signedPq.key, y.keys.signedPq, y.keys.previousPq)
    && (b.oneTime.Some? ==> b.oneTime.value in y.out) && (b.oneTimePq.Some? ==> b.oneTimePq.value in y.outPq)
  }

  ghost predicate SignedInv(y: Life) {
    && Generations(y.keys)
    && y.pool.identityKey == Pub(y.keys.identity)
    && y.pool.signed == Sign(y.keys, y.keys.signed) && y.pool.signedPq == Sign(y.keys, y.keys.signedPq)
    && forall b :: b in y.handed ==> BundleInv(y, b)
  }

  ghost predicate Inv(y: Life) {
    PoolsInv(y) && IdsInv(y) && SignedInv(y)
  }

  // ----- what holds in every reachable state -----

  /** The keys of the bundle that a handshake needs are all there still. */
  ghost predicate StillGood(y: Life, b: Bundle) {
    && Held(b.signed.id, y.keys.signed, y.keys.previous).Some?
    && (b.oneTime.Some? ==> b.oneTime.value.key.secret !in y.past.used)
    && if b.oneTimePq.Some? then b.oneTimePq.value.key.secret !in y.pastPq.used + y.pastPq.lost
       else Held(b.signedPq.id, y.keys.signedPq, y.keys.previousPq).Some?
  }

  /** A bundle that was handed out completes a handshake if and only if its one-time keys were not used up, no top-up
      wrote over its one-time PQ key, and the signed prekeys it needs were rotated at most once. */
  lemma HandedBundleAgreesIff(y: Life, b: Bundle, identity: Bytes, ephemeral: Bytes, randomness: nat)
    requires Inv(y) && b in y.handed
    ensures Agrees(identity, b, ephemeral, randomness, y.keys) <==> StillGood(y, b)
  {
    hide Agrees, PoolInv, Once, IdsInv, Matches;
    assert BundleInv(y, b);
    HandshakeAgreesIff(identity, b, ephemeral, randomness, y.keys);
    if b.oneTime.Some? {
      AnswersIff(y.pool.oneTime, y.out, y.keys.oneTime, y.past.used + y.past.lost, y.past.made, b.oneTime.value);
    }
    if b.oneTimePq.Some? {
      AnswersIff(y.pool.oneTimePq, y.outPq, y.keys.oneTimePq, y.pastPq.used + y.pastPq.lost, y.pastPq.made, b.oneTimePq.value);
    }
  }

  /** A top-up publishes an id again if and only if the device no longer holds a key under the newest id. */
  lemma TopUpRepeatsIff(y: Life, secrets: seq<Bytes>)
    requires Inv(y) && |secrets| > 0
    ensures (exists p :: p in PublicsOf(StartId(y.keys), secrets) && p.id in y.uploaded)
       <==> y.newest > 0 && y.newest !in y.keys.oneTime
  {
    hide PoolsInv, SignedInv;
    var start, more := StartId(y.keys), PublicsOf(StartId(y.keys), secrets);
    assert more[0].id == start && more[0] in more;
  }

  /** A top-up writes over no classical key. */
  lemma TopUpKeepsHeld(y: Life, secrets: seq<Bytes>, id: nat)
    requires id in y.keys.oneTime
    ensures var after := Joined(y.keys.oneTime, StartId(y.keys), secrets); id in after && after[id] == y.keys.oneTime[id]
  {
  }

  /** It writes over a PQ key if and only if the key is held under an id above every classical id that is held, and
      within the number of new keys. */
  lemma TopUpOverwritesPqIff(y: Life, secretsPq: seq<Bytes>, id: nat)
    requires Inv(y) && New(secretsPq, y.pastPq.made) && id in y.keys.oneTimePq
    ensures Joined(y.keys.oneTimePq, StartId(y.keys), secretsPq)[id] != y.keys.oneTimePq[id]
       <==> Highest(y.keys.oneTime.Keys) < id <= Highest(y.keys.oneTime.Keys) + |secretsPq|
  {
    hide Once, IdsInv, SignedInv, Distinct, SecretsOf, Matches;
    assert y.keys.oneTimePq[id] in y.keys.oneTimePq.Values;
  }

  // ----- every step keeps the invariant -----

  lemma NothingLost(y: Life, secrets: seq<Bytes>)
    ensures Overwritten(y.keys.oneTime, StartId(y.keys), |secrets|) == {}
  {
  }

  lemma SumOfThree<T>(a: set<T>, b: set<T>, c: set<T>)
    ensures (a + b) + c == a + (b + c) && (a + b) + c == (a + c) + b
  {
  }

  lemma TopUpKeepsPools(y: Life, x: Step)
    requires Inv(y) && x.TopUp? && Enabled(y, x)
    ensures PoolsInv(After(y, x))
  {
    hide PoolInv, Once, New, SignedInv, IdsInv, Joined, Overwritten, PublicsOf;
    var start := StartId(y.keys);
    NothingLost(y, x.secrets);
    TopUpKeepsPool(y.pool.oneTime, y.out, y.keys.oneTime, y.past.used + y.past.lost, y.past.made, start, x.secrets);
    TopUpKeepsPool(y.pool.oneTimePq, y.outPq, y.keys.oneTimePq, y.pastPq.used + y.pastPq.lost, y.pastPq.made, start, x.secretsPq);
    SumOfThree(y.past.used, y.past.lost, Overwritten(y.keys.oneTime, start, |x.secrets|));
    SumOfThree(y.pastPq.used, y.pastPq.lost, Overwritten(y.keys.oneTimePq, start, |x.secretsPq|));
    assert y.past.lost + {} == {};
    SameOnce(y.past, After(y, x).past);
    SameOnce(y.pastPq, After(y, x).pastPq);
  }

  lemma SameOnce(p: Past, q: Past)
    requires Once(p) && q.used == p.used && q.accepted == p.accepted
    ensures Once(q)
  {
  }

  lemma TopUpKeepsIds(y: Life, x: Step)
    requires Inv(y) && x.TopUp? && Enabled(y, x)
    ensures IdsInv(After(y, x))
  {
    hide PoolsInv, SignedInv, New, Highest;
    var start, more := StartId(y.keys), PublicsOf(StartId(y.keys), x.secrets);
    assert start <= y.newest + 1 by {
      HighestWithin(y.keys.oneTime.Keys, y.newest);
    }
    IdsOfPublics(start, x.secrets);
  }

  lemma HighestWithin(ids: set<nat>, bound: nat)
    requires forall id :: id in ids ==> id <= bound
    ensures Highest(ids) <= bound
  {
  }

  lemma IdsOfPublics(start: nat, secrets: seq<Bytes>)
    ensures forall id :: id in IdsOf(PublicsOf(start, secrets)) <==> start <= id < start + |secrets|
  {
    var more := PublicsOf(start, secrets);
    forall id | start <= id < start + |secrets|
      ensures id in IdsOf(more)
    {
      assert more[id - start] in more;
    }
  }

  lemma TakeKeepsPools(y: Life)
    requires Inv(y)
    ensures PoolsInv(After(y, Take))
  {
    hide PoolInv, Once, SignedInv, IdsInv;
    if y.pool.oneTime != [] {
      TakeKeepsPool(y.pool.oneTime, y.out, y.keys.oneTime, y.past.used + y.past.lost, y.past.made);
    }
    if y.pool.oneTimePq != [] {
      TakeKeepsPool(y.pool.oneTimePq, y.outPq, y.keys.oneTimePq, y.pastPq.used + y.pastPq.lost, y.pastPq.made);
    }
  }

  /** An accepted handshake uses up exactly the one-time keys it names, and any handshake no others. */
  lemma AcceptEffect(k: Keys, init: Init)
    ensures var r := Accept(k, init);
            && r.keys == k.(oneTime := r.keys.oneTime, oneTimePq := r.keys.oneTimePq)
            && (r.keys.oneTime == k.oneTime || r.keys.oneTime == k.oneTime - {Named(init)})
            && (r.keys.oneTimePq == k.oneTimePq || r.keys.oneTimePq == k.oneTimePq - {init.pqId})
            && (r.agreed.Some? && init.oneTimeId.Some? ==> Named(init) in k.oneTime && Named(init) !in r.keys.oneTime)
            && (r.agreed.Some? && init.usedOneTimePq ==> init.pqId in k.oneTimePq && init.pqId !in r.keys.oneTimePq)
  {
    hide ResponderParts, Held;
  }

  lemma UseKeepsOnce(p: Past, held: map<nat, Bytes>, after: map<nat, Bytes>, id: nat, accepted: bool)
    requires Once(p) && p.used !! held.Values && (accepted ==> id in held && id !in after)
    ensures Once(PastUse(p, held, after, accepted, id))
  {
    if accepted {
      assert held[id] in held.Values;
      assert held[id] in Removed(held, after);
    }
  }

  lemma GoneIsNotHeld(pool: seq<OneTimePublic>, out: seq<OneTimePublic>, held: map<nat, Bytes>, used: set<Bytes>, lost: set<Bytes>, made: set<Bytes>)
    requires PoolInv(pool, out, held, used + lost, made)
    ensures used !! held.Values
  {
  }

  lemma HandshakeKeepsPools(y: Life, init: Init)
    requires Inv(y)
    ensures PoolsInv(After(y, Handshakes(init)))
  {
    hide Accept, PoolInv, Once, SignedInv, IdsInv, Removed;
    AcceptEffect(y.keys, init);
    var r := Accept(y.keys, init);
    UseKeepsPool(y.pool.oneTime, y.out, y.keys.oneTime, y.past.used + y.past.lost, y.past.made, r.keys.oneTime, Named(init));
    UseKeepsPool(y.pool.oneTimePq, y.outPq, y.keys.oneTimePq, y.pastPq.used + y.pastPq.lost, y.pastPq.made, r.keys.oneTimePq, init.pqId);
    SumOfThree(y.past.used, y.past.lost, Removed(y.keys.oneTime, r.keys.oneTime));
    SumOfThree(y.pastPq.used, y.pastPq.lost, Removed(y.keys.oneTimePq, r.keys.oneTimePq));
    GoneIsNotHeld(y.pool.oneTime, y.out, y.keys.oneTime, y.past.used, y.past.lost, y.past.made);
    GoneIsNotHeld(y.pool.oneTimePq, y.outPq, y.keys.oneTimePq, y.pastPq.used, y.pastPq.lost, y.pastPq.made);
    UseKeepsOnce(y.past, y.keys.oneTime, r.keys.oneTime, Named(init), r.agreed.Some? && init.oneTimeId.Some?);
    UseKeepsOnce(y.pastPq, y.keys.oneTimePq, r.keys.oneTimePq, init.pqId, r.agreed.Some? && init.usedOneTimePq);
  }

  /** The signed keys are as before, and no bundle was handed out but the one taken. */
  lemma SignedStays(y: Life, z: Life)
    requires SignedInv(y)
    requires z.keys == y.keys.(oneTime := z.keys.oneTime, oneTimePq := z.keys.oneTimePq)
    requires z.pool == y.pool.(oneTime := z.pool.oneTime, oneTimePq := z.pool.oneTimePq)
    requires y.out <= z.out && y.outPq <= z.outPq
    requires forall b :: b in z.handed ==> b in y.handed || BundleInv(z, b)
    ensures SignedInv(z)
  {
    forall b | b in z.handed
      ensures BundleInv(z, b)
    {
      assert b in y.handed ==> BundleInv(y, b);
    }
  }

  lemma TopUpKeepsSigned(y: Life, x: Step)
    requires Inv(y) && x.TopUp?
    ensures SignedInv(After(y, x))
  {
    hide PoolsInv, SignedInv, IdsInv, Joined, PublicsOf, Overwritten, Highest;
    SignedInvFacts(y);
    SignedStays(y, After(y, x));
  }

  lemma SignedInvFacts(y: Life)
    requires SignedInv(y)
    ensures y.pool.identityKey == Pub(y.keys.identity)
    ensures y.pool.signed == Sign(y.keys, y.keys.signed) && y.pool.signedPq == Sign(y.keys, y.keys.signedPq)
  {
  }

  lemma TakeKeepsSigned(y: Life)
    requires Inv(y)
    ensures SignedInv(After(y, Take))
  {
    hide PoolsInv, IdsInv;
    assert BundleInv(After(y, Take), BundleOf(y.pool));
    SignedStays(y, After(y, Take));
  }

  lemma HandshakeKeepsSigned(y: Life, init: Init)
    requires Inv(y)
    ensures SignedInv(After(y, Handshakes(init)))
  {
    hide PoolsInv, SignedInv, IdsInv, Accept, PastUse;
    AcceptEffect(y.keys, init);
    SignedStays(y, After(y, Handshakes(init)));
  }

  lemma HandshakeKeepsIds(y: Life, init: Init)
    requires Inv(y)
    ensures IdsInv(After(y, Handshakes(init)))
  {
    hide PoolsInv, SignedInv, Accept, PastUse;
    AcceptEffect(y.keys, init);
  }

  lemma RotateKeepsInv(y: Life, signed: Bytes, signedPq: Bytes)
    requires Inv(y)
    ensures Inv(After(y, Rotate(signed, signedPq)))
  {
    hide PoolInv, Once;
    var z := After(y, Rotate(signed, signedPq));
    assert y.pool.oneTime + [] == y.pool.oneTime && y.pool.oneTimePq + [] == y.pool.oneTimePq;
    forall b | b in z.handed
      ensures BundleInv(z, b)
    {
      assert BundleInv(y, b);
    }
  }

  lemma StepKeepsInv(y: Life, x: Step)
    requires Inv(y) && Enabled(y, x)
    ensures Inv(After(y, x))
  {
    hide PoolsInv, SignedInv, AfterPut, ToppedUp, PublicsOf, PastTopUp, PastUse, Accept, Enabled, Rotated;
    match x {
      case TopUp(_, _) =>
        TopUpKeepsPools(y, x);
        TopUpKeepsIds(y, x);
        TopUpKeepsSigned(y, x);
      case Take =>
        TakeKeepsPools(y);
        TakeKeepsSigned(y);
      case Handshakes(init) =>
        HandshakeKeepsPools(y, init);
        HandshakeKeepsIds(y, init);
        HandshakeKeepsSigned(y, init);
      case Rotate(signed, signedPq) =>
        RotateKeepsInv(y, signed, signedPq);
    }
  }

  /** A device that has just registered, with its signed keys published. */
  function Begin(identity: Bytes, signed: Bytes, signedPq: Bytes): Life {
    var k := Keys(identity, Secret(1, signed), Secret(1, signedPq), None, None, map[], map[]);
    Life(UploadOf(k, [], []), k, [], [], [], Past({}, {}, [], {}), Past({}, {}, [], {}), {}, 0)
  }

  ghost predicate Leads(y: Life, steps: seq<Step>, z: Life)
    decreases |steps|
  {
    if steps == [] then z == y else Enabled(y, steps[0]) && Leads(After(y, steps[0]), steps[1..], z)
  }

  lemma BeginInv(identity: Bytes, signed: Bytes, signedPq: Bytes)
    ensures Inv(Begin(identity, signed, signedPq))
  {
  }

  lemma {:induction false} RunKeepsInv(y: Life, steps: seq<Step>, z: Life)
    requires Inv(y) && Leads(y, steps, z)
    ensures Inv(z)
    decreases |steps|
  {
    hide Inv, After, Enabled;
    if steps == [] {
    } else {
      StepKeepsInv(y, steps[0]);
      RunKeepsInv(After(y, steps[0]), steps[1..], z);
    }
  }

  /** In every run each one-time key is handed out at most once and accepted at most once. */
  lemma OneTimeMeansOnce(identity: Bytes, signed: Bytes, signedPq: Bytes, steps: seq<Step>, z: Life)
    requires Leads(Begin(identity, signed, signedPq), steps, z)
    ensures Inv(z)
    ensures forall i, k :: 0 <= i < k < |z.out| ==> z.out[i].key != z.out[k].key
    ensures forall i, k :: 0 <= i < k < |z.outPq| ==> z.outPq[i].key != z.outPq[k].key
    ensures forall i, k :: 0 <= i < k < |z.past.accepted| ==> z.past.accepted[i] != z.past.accepted[k]
    ensures forall i, k :: 0 <= i < k < |z.pastPq.accepted| ==> z.pastPq.accepted[i] != z.pastPq.accepted[k]
  {
    hide Leads, IdsInv, SignedInv, Matches, SecretsOf, Injective;
    BeginInv(identity, signed, signedPq);
    RunKeepsInv(Begin(identity, signed, signedPq), steps, z);
  }

  // ----- two inputs that show what numbering on from the held ids leads to -----

  lemma HighestIs(ids: set<nat>, h: nat)
    requires h in ids && forall id :: id in ids ==> id <= h
    ensures Highest(ids) == h
  {
  }

  /** The run: two keys are uploaded, the newer one is handed out and used, and one more key is uploaded and handed out. */
  function UseTheNewest(i: Init, a: Bytes, b: Bytes, c: Bytes, p: Bytes, q: Bytes, r: Bytes): seq<Step> {
    [TopUp([a, b], [p, q]), Take, Handshakes(i), TopUp([c], [r]), Take]
  }

  lemma FirstTwoKeys(y: Life, a: Bytes, b: Bytes, p: Bytes, q: Bytes)
    requires y.keys.oneTime == map[] && y.keys.oneTimePq == map[] && y.pool.oneTime == [] && y.pool.oneTimePq == []
    requires y.past.made == {} && y.pastPq.made == {} && a != b && p != q
    ensures Enabled(y, TopUp([a, b], [p, q]))
    ensures var z := After(y, TopUp([a, b], [p, q]));
            && z.keys == y.keys.(oneTime := map[1 := a, 2 := b], oneTimePq := map[1 := p, 2 := q])
            && z.pool == UploadOf(z.keys, [OneTimePublic(1, Pub(a)), OneTimePublic(2, Pub(b))],
                                  [OneTimePublic(1, Pub(p)), OneTimePublic(2, Pub(q))])
            && z.handed == y.handed && z.out == y.out && z.past.made == {a, b} && z.pastPq.made == {p, q}
  {
    hide Numbered, PublicsOf, AfterPut, Overwritten, Joined, UploadOf;
    assert StartId(y.keys) == 1;
    TwoNumbered(a, b);
    TwoNumbered(p, q);
    TwoJoined(a, b);
    TwoJoined(p, q);
    FirstPut(y.pool, UploadOf(ToppedUp(y.keys, [a, b], [p, q]), PublicsOf(1, [a, b]), PublicsOf(1, [p, q])));
    assert Elements([a, b]) == {a, b} && Elements([p, q]) == {p, q};
  }

  lemma TwoJoined(a: Bytes, b: Bytes)
    ensures Joined(map[], 1, [a, b]) == map[1 := a, 2 := b]
  {
    TwoNumbered(a, b);
  }

  lemma FirstPut(pool: Upload, up: Upload)
    requires pool.oneTime == [] && pool.oneTimePq == []
    ensures AfterPut(Some(pool), up) == up
  {
  }

  lemma TakesTheNewest(y: Life, a: OneTimePublic, b: OneTimePublic, p: OneTimePublic, q: OneTimePublic)
    requires y.pool == UploadOf(y.keys, [a, b], [p, q]) && y.out == [] && y.handed == []
    ensures var z := After(y, Take);
            && z.keys == y.keys && z.out == [b] && z.past == y.past && z.pastPq == y.pastPq
            && z.handed == [Bundle(Pub(y.keys.identity), Sign(y.keys, y.keys.signed), Sign(y.keys, y.keys.signedPq), Some(b), Some(q))]
  {
  }

  lemma TwoNumbered(a: Bytes, b: Bytes)
    ensures Numbered(1, [a, b]) == map[1 := a, 2 := b]
    ensures PublicsOf(1, [a, b]) == [OneTimePublic(1, Pub(a)), OneTimePublic(2, Pub(b))]
  {
  }

  lemma AfterSecondTopUp(y: Life, a: Bytes, c: Bytes, r: Bytes)
    requires y.keys.oneTime == map[1 := a] && c !in y.past.made && r !in y.pastPq.made
    ensures Enabled(y, TopUp([c], [r]))
    ensures var z := After(After(y, TopUp([c], [r])), Take);
            z.out == y.out + [OneTimePublic(2, Pub(c))] && 2 in z.uploaded
  {
    HighestIs(y.keys.oneTime.Keys, 1);
    assert StartId(y.keys) == 2;
    assert PublicsOf(2, [c]) == [OneTimePublic(2, Pub(c))];
    assert PublicsOf(2, [c])[0] in PublicsOf(2, [c]);
  }

  /** Ids come back in ordinary use: here every handshake is honest, and one id is handed out for two keys. */
  lemma IdsComeBack(identity: Bytes, signed: Bytes, signedPq: Bytes, initiator: Bytes, ephemeral: Bytes, randomness: nat,
                    a: Bytes, b: Bytes, c: Bytes, p: Bytes, q: Bytes, r: Bytes) returns (steps: seq<Step>, z: Life)
    requires a != b && c !in {a, b} && p != q && r !in {p, q}
    ensures Leads(Begin(identity, signed, signedPq), steps, z)
    ensures z.out == [OneTimePublic(2, Pub(b)), OneTimePublic(2, Pub(c))]
  {
    hide After, Enabled, Highest, Initiate, Accept;
    var y0 := Begin(identity, signed, signedPq);
    var y1 := After(y0, TopUp([a, b], [p, q]));
    FirstTwoKeys(y0, a, b, p, q);
    var y2 := After(y1, Take);
    TakesTheNewest(y1, OneTimePublic(1, Pub(a)), OneTimePublic(2, Pub(b)), OneTimePublic(1, Pub(p)), OneTimePublic(2, Pub(q)));
    var bundle := y2.handed[0];
    HandshakeAgrees(initiator, bundle, ephemeral, randomness, y2.keys);
    var init := Initiate(initiator, bundle, ephemeral, randomness).value.init;
    var y3 := After(y2, Handshakes(init));
    AfterUse(y2, init);
    assert y3.keys.oneTime == map[1 := a];
    AfterSecondTopUp(y3, a, c, r);
    steps := UseTheNewest(init, a, b, c, p, q, r);
    z := After(After(y3, TopUp([c], [r])), Take);
    Unrolled(y0, steps);
  }

  lemma AfterUse(y: Life, init: Init)
    ensures Enabled(y, Handshakes(init))
    ensures var z := After(y, Handshakes(init));
            && z.keys == Accept(y.keys, init).keys && z.out == y.out && z.past.made == y.past.made && z.pastPq.made == y.pastPq.made
  {
  }

  lemma OneStep(y: Life, x: Step, rest: seq<Step>, z: Life)
    requires Enabled(y, x) && Leads(After(y, x), rest, z)
    ensures Leads(y, [x] + rest, z)
  {
    hide After, Enabled;
    assert ([x] + rest)[1..] == rest;
  }

  lemma Unrolled(y: Life, steps: seq<Step>)
    requires |steps| == 5 && steps[1] == steps[4] == Take
    requires Enabled(y, steps[0])
    requires var y2 := After(After(y, steps[0]), Take); Enabled(y2, steps[2]) && Enabled(After(y2, steps[2]), steps[3])
    ensures Leads(y, steps, After(After(After(After(After(y, steps[0]), Take), steps[2]), steps[3]), Take))
  {
    hide After, Leads;
    var y1 := After(y, steps[0]);
    var y2 := After(y1, Take);
    var y3 := After(y2, steps[2]);
    var y4 := After(y3, steps[3]);
    var z := After(y4, Take);
    NoSteps(z);
    OneStep(y4, Take, [], z);
    OneStep(y3, steps[3], [Take] + [], z);
    OneStep(y2, steps[2], [steps[3]] + ([Take] + []), z);
    OneStep(y1, Take, [steps[2]] + ([steps[3]] + ([Take] + [])), z);
    OneStep(y, steps[0], [Take] + ([steps[2]] + ([steps[3]] + ([Take] + []))), z);
    assert steps == [steps[0]] + ([Take] + ([steps[2]] + ([steps[3]] + ([Take] + []))));
  }

  lemma NoSteps(z: Life)
    ensures Leads(z, [], z)
  {
  }

  /** A handshake that names a classical one-time key but no PQ one makes the next top-up write over a PQ key that is
      still on offer; by HandedBundleAgreesIff no bundle with it will complete a handshake. */
  lemma PqKeyIsLost(identity: Bytes, signed: Bytes, signedPq: Bytes, init: Init, a: Bytes, c: Bytes, p: Bytes, r: Bytes)
    returns (steps: seq<Step>, z: Life)
    requires a != c && p != r
    requires init.signedId == init.pqId == 1 && init.oneTimeId == Some(1) && !init.usedOneTimePq
    ensures Leads(Begin(identity, signed, signedPq), steps, z)
    ensures z.pastPq.lost == {p} && z.pastPq.used == {} && OneTimePublic(1, Pub(p)) in z.pool.oneTimePq
  {
    hide After, Enabled, Highest;
    var y0 := Begin(identity, signed, signedPq);
    var y1 := After(y0, TopUp([a], [p]));
    FirstKey(y0, a, p);
    var y2 := After(y1, Handshakes(init));
    ClassicalOnly(y1, init);
    var x := TopUp([c], [r]);
    z := After(y2, x);
    SecondKey(y2, c, p, r);
    steps := [TopUp([a], [p])] + ([Handshakes(init)] + ([x] + []));
    NoSteps(z);
    OneStep(y2, x, [], z);
    OneStep(y1, Handshakes(init), [x] + [], z);
    OneStep(y0, TopUp([a], [p]), [Handshakes(init)] + ([x] + []), z);
  }

  lemma OneNumbered(a: Bytes)
    ensures Numbered(1, [a]) == map[1 := a] && PublicsOf(1, [a]) == [OneTimePublic(1, Pub(a))]
  {
  }

  lemma FirstKey(y: Life, a: Bytes, p: Bytes)
    requires y.keys.oneTime == map[] && y.keys.oneTimePq == map[] && y.pool.oneTime == [] && y.pool.oneTimePq == []
    requires y.past == y.pastPq == Past({}, {}, [], {})
    ensures Enabled(y, TopUp([a], [p]))
    ensures var z := After(y, TopUp([a], [p]));
            && z.keys == y.keys.(oneTime := map[1 := a], oneTimePq := map[1 := p])
            && z.pool.oneTimePq == [OneTimePublic(1, Pub(p))]
            && z.past == Past({}, {}, [], {a}) && z.pastPq == Past({}, {}, [], {p})
  {
    assert StartId(y.keys) == 1;
    OneNumbered(a);
    OneNumbered(p);
    assert Elements([a]) == {a} && Elements([p]) == {p};
  }

  lemma ClassicalOnly(y: Life, init: Init)
    requires y.keys.signed.id == y.keys.signedPq.id == 1 && 1 in y.keys.oneTime && y.keys.oneTime.Keys == {1}
    requires init.signedId == init.pqId == 1 && init.oneTimeId == Some(1) && !init.usedOneTimePq
    ensures Enabled(y, Handshakes(init))
    ensures var z := After(y, Handshakes(init));
            && z.keys == y.keys.(oneTime := map[]) && z.pool == y.pool && z.past.made == y.past.made
            && z.pastPq.used == y.pastPq.used && z.pastPq.lost == y.pastPq.lost && z.pastPq.made == y.pastPq.made
  {
    hide ResponderParts;
    assert y.keys.oneTime - {1} == map[];
  }

  lemma SecondKey(y: Life, c: Bytes, p: Bytes, r: Bytes)
    requires y.keys.oneTime == map[] && y.keys.oneTimePq == map[1 := p] && y.pool.oneTimePq == [OneTimePublic(1, Pub(p))]
    requires c !in y.past.made && r !in y.pastPq.made && y.pastPq.lost == {}
    ensures Enabled(y, TopUp([c], [r]))
    ensures var z := After(y, TopUp([c], [r]));
            z.pastPq.lost == {p} && z.pastPq.used == y.pastPq.used && OneTimePublic(1, Pub(p)) in z.pool.oneTimePq
  {
    assert StartId(y.keys) == 1;
    assert y.keys.oneTimePq[1] == p;
    assert Overwritten(y.keys.oneTimePq, 1, 1) == {p};
    assert OneTimePublic(1, Pub(p)) == y.pool.oneTimePq[0];
  }
}
