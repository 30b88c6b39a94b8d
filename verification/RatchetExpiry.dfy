/**
 For how long a skipped message can still be read: exactly SKIPPED_KEY_TTL_MS from the step that skipped it, unless
 MAX_SKIPPED_KEYS newer keys push it out.
 */
module RatchetExpiry {
  import opened Bytes
  import opened Ratchet
  import opened RatchetSync
  import opened RatchetRun

  // ----- what a step puts into the cache -----

  /** The party has not passed this position. */
  ghost predicate Ahead(h: History, p: Party, id: Id)
    requires |h.sent| == |h.g.keys|
  {
    forall j: nat :: j < |h.g.keys| ==> !PassedAt(h, p.s, p.st.receivedCount, id, j)
  }

  /** Every entry was cached before, just so, or is of a position that the party passes now, and is stamped so. */
  ghost predicate Stamps(h: History, p: Party, skipped: seq<Skipped>, now: int)
    requires |h.sent| == |h.g.keys|
  {
    forall e :: e in skipped ==> e in p.st.skipped || (e.storedAt == now && Ahead(h, p, IdOf(e)))
  }

  /** The entries from index n on are of positions of this chain from `from` on, and carry this time. */
  ghost predicate NewFrom(h: History, s: nat, from: nat, skipped: seq<Skipped>, n: nat, now: int)
    requires 2 <= s < |h.g.keys|
  {
    forall i :: n <= i < |skipped| ==>
      skipped[i].storedAt == now && skipped[i].headerKey == HeaderAt(h.g, s - 1) && skipped[i].number >= from
  }

  lemma SkipOneAppends(h: History, p: Party, now: int)
    requires p.Inv(h) && 2 <= p.s
    ensures SkipOne(p.st, now).skipped
         == p.st.skipped + [Skipped(HeaderAt(h.g, p.s - 1), p.st.receivedCount, MessageKey(ChainAt(h.g, p.s - 1, p.st.receivedCount)), now)]
  {
    hide History.Valid, HeaderAt, ChainAt, CacheInv, Put, Ids;
    var n := p.st.receivedCount;
    var e := Skipped(HeaderAt(h.g, p.s - 1), n, MessageKey(ChainAt(h.g, p.s - 1, n)), now);
    NotCachedYet(h, p.s, n, p.st.skipped, p.got, p.dropped, n);
    PutNewIsAppend(p.st.skipped, e);
  }

  lemma {:induction false} SkipToAppends(h: History, p: Party, until: nat, now: int)
    requires p.Inv(h) && 2 <= p.s && until <= |h.sent[p.s - 1]|
    ensures p.st.skipped <= SkipTo(p.st, until, now).skipped
    ensures NewFrom(h, p.s, p.st.receivedCount, SkipTo(p.st, until, now).skipped, |p.st.skipped|, now)
    ensures until >= p.st.receivedCount ==> |SkipTo(p.st, until, now).skipped| == |p.st.skipped| + (until - p.st.receivedCount)
    decreases until - p.st.receivedCount
  {
    hide History.Valid, CacheInv, HeaderAt, ChainAt, RootAt;
    if p.st.receivedCount >= until {
    } else {
      SkipOneAppends(h, p, now);
      SkipOneKeeps(h, p, now);
      SkipToAppends(h, Party(p.s, SkipOne(p.st, now), p.got, p.dropped), until, now);
    }
  }

  lemma NewIsAhead(h: History, p: Party, id: Id)
    requires p.Inv(h) && 2 <= p.s && id.0 == HeaderAt(h.g, p.s - 1) && id.1 >= p.st.receivedCount
    ensures Ahead(h, p, id)
  {
    hide History.Valid, CacheInv, KeysInv, HeaderAt;
    forall j: nat | j < |h.g.keys|
      ensures !PassedAt(h, p.s, p.st.receivedCount, id, j)
    {
      if PassedAt(h, p.s, p.st.receivedCount, id, j) {
        HeaderInjective(h.g, j, p.s - 1);
      }
    }
  }

  lemma SkipStamps(h: History, p: Party, until: nat, now: int)
    requires p.Inv(h) && 2 <= p.s && until <= |h.sent[p.s - 1]|
    ensures Stamps(h, p, SkipTo(p.st, until, now).skipped, now) && Distinct(SkipTo(p.st, until, now).skipped)
  {
    hide History.Valid, RootAt, CountsInv, HeaderAt, SkipTo, Ahead, DroppedInv;
    SkipToAppends(h, p, until, now);
    SkipToKeeps(h, p, until, now);
    var more := SkipTo(p.st, until, now).skipped;
    forall i | |p.st.skipped| <= i < |more|
      ensures more[i].storedAt == now && Ahead(h, p, IdOf(more[i]))
    {
      NewIsAhead(h, p, IdOf(more[i]));
    }
  }

  lemma StampsSubset(h: History, p: Party, a: seq<Skipped>, b: seq<Skipped>, now: int)
    requires |h.sent| == |h.g.keys| && Stamps(h, p, a, now) && forall e :: e in b ==> e in a
    ensures Stamps(h, p, b, now)
  {
    hide Ahead;
  }

  /** Two parts of one step: what is ahead of the second was ahead of the first. */
  lemma StampsCompose(h: History, p: Party, g: History, q: Party, c: seq<Skipped>, now: int)
    requires |h.sent| == |h.g.keys| && |g.sent| == |g.g.keys|
    requires Stamps(h, p, q.st.skipped, now) && Stamps(g, q, c, now)
    requires forall id :: Ahead(g, q, id) ==> Ahead(h, p, id)
    ensures Stamps(h, p, c, now)
  {
    hide Ahead;
  }

  // ----- what a step evicts -----

  /** These are entries that were cached before the step, or put there by it. */
  ghost predicate CachedBy(p: Party, skipped: seq<Skipped>, now: int) {
    Distinct(skipped) && forall e :: e in skipped ==> e in p.st.skipped || e.storedAt == now
  }

  /** At some point of the step entry i had expired, or as many unexpired entries as the cache may hold came after it. */
  ghost predicate Evicts(p: Party, skipped: seq<Skipped>, i: nat, now: int) {
    && i < |skipped| && CachedBy(p, skipped, now)
    && (|| skipped[i].storedAt < now - SKIPPED_KEY_TTL_MS
        || |Fresh(skipped[i + 1..], now - SKIPPED_KEY_TTL_MS)| >= MAX_SKIPPED_KEYS)
  }

  ghost predicate Evicted(p: Party, id: Id, now: int) {
    exists skipped: seq<Skipped>, i: nat :: Evicts(p, skipped, i, now) && IdOf(skipped[i]) == id
  }

  lemma PruneEvicts(h: History, p: Party, skipped: seq<Skipped>, now: int)
    requires |h.sent| == |h.g.keys| && Stamps(h, p, skipped, now) && Distinct(skipped)
    ensures forall id :: id in PrunedAway(skipped, now) ==> Evicted(p, id, now)
  {
    hide Ahead, Pruned, Distinct;
    forall id | id in PrunedAway(skipped, now)
      ensures Evicted(p, id, now)
    {
      var i :| 0 <= i < |skipped| && IdOf(skipped[i]) == id;
      DroppedMeansExpiredOrOldest(skipped, now, i);
      assert Evicts(p, skipped, i, now);
    }
  }

  // ----- one skip, one step, one delivery -----

  lemma AfterSkipStamps(h: History, p: Party, until: nat, now: int)
    requires p.Inv(h) && !SkipsTooFar(p.st, until) && until <= (if p.s >= 2 then |h.sent[p.s - 1]| else 0)
    ensures Stamps(h, p, AfterSkip(p.st, until, now).skipped, now)
    ensures forall id :: id in SkipDrops(p.st, until, now) ==> Evicted(p, id, now)
  {
    hide History.Valid, CacheInv, SkipTo, Pruned, PrunedAway, HeaderAt, ChainAt, Stamps, Evicted, Distinct;
    if p.s >= 2 {
      var more := SkipTo(p.st, until, now).skipped;
      SkipStamps(h, p, until, now);
      PruneEvicts(h, p, more, now);
      PrunedIsSubsequence(more, now);
      StampsSubset(h, p, more, Pruned(more, now), now);
    } else {
      OwnStamps(h, p, now);
    }
  }

  lemma OwnStamps(h: History, p: Party, now: int)
    requires |h.sent| == |h.g.keys|
    ensures Stamps(h, p, p.st.skipped, now)
  {
  }

  lemma OnChainStamps(h: History, p: Party, n: nat, m: Message, now: int)
    requires p.Inv(h) && p.s >= 2 && n <= |h.sent[p.s - 1]| && !SkipsTooFar(p.st, n)
    ensures Stamps(h, p, ReceiveAt(p.st, n, m, h.associatedData, now).state.skipped, now)
    ensures forall id :: id in SkipDrops(p.st, n, now) ==> Evicted(p, id, now)
  {
    hide Party.Inv, Stamps, Evicted, AfterSkip, SkipDrops;
    AfterSkipStamps(h, p, n, now);
  }

  lemma StillPassed(h: History, p: Party, q: Party, newKey: Secret, id: Id, j: nat)
    requires p.Inv(h) && q.s == p.s + 2 && q.st.receivedCount == 0 && |h.g.keys| == p.s + 2
    requires PassedAt(h, p.s, p.st.receivedCount, id, j)
    ensures PassedAt(Grown(h, newKey), q.s, 0, id, j)
  {
    hide History.Valid, CacheInv, KeysInv, HeaderAt;
    HeaderExtends(h.g, Grown(h, newKey).g, j);
  }

  /** What is ahead of the party just after its DH ratchet step was ahead of it before. */
  lemma AheadOfStepped(h: History, p: Party, q: Party, newKey: Secret)
    requires p.Inv(h) && q.s == p.s + 2 && q.st.receivedCount == 0 && |h.g.keys| == p.s + 2
    ensures forall id :: Ahead(Grown(h, newKey), q, id) ==> Ahead(h, p, id)
  {
    hide Party.Inv, PassedAt;
    PartyBounds(h, p);
    forall id, j: nat | PassedAt(h, p.s, p.st.receivedCount, id, j)
      ensures PassedAt(Grown(h, newKey), q.s, 0, id, j)
    {
      StillPassed(h, p, q, newKey, id, j);
    }
  }

  lemma EvictedBySecond(h: History, p: Party, q: Party, id: Id, now: int)
    requires |h.sent| == |h.g.keys| && Stamps(h, p, q.st.skipped, now) && Evicted(q, id, now)
    ensures Evicted(p, id, now)
  {
    hide Ahead, Distinct;
    var skipped: seq<Skipped>, i: nat :| Evicts(q, skipped, i, now) && IdOf(skipped[i]) == id;
    assert Evicts(p, skipped, i, now);
  }

  lemma AheadStamps(h: History, p: Party, n: nat, now: int, newKey: Secret)
    requires p.Inv(h) && p.s + 1 < |h.g.keys| && n < |h.sent[p.s + 1]|
    requires StepInReach(p.st.receivedCount, h.Previous(p.s + 1), n)
    ensures var m := h.sent[p.s + 1][n];
            && Stamps(h, p, ReceiveAhead(p.st, m.header.plain, m, h.associatedData, now, newKey).state.skipped, now)
            && forall id :: id in AheadDrops(p.st, m.header.plain, now, newKey) ==> Evicted(p, id, now)
  {
    hide CacheInv, KeysInv, HeaderAt, ChainAt, Stamps, Evicted, AfterSkip, SkipDrops, AfterDhRatchet, ReceiveAt, Ahead;
    var m := h.sent[p.s + 1][n];
    PlainHeader(h, p.s + 1, n);
    var header := m.header.plain;
    StepKeeps(h, p, n, now, newKey);
    var q, more := Stepped(p, header, now, newKey), Grown(h, newKey);
    AfterSkipStamps(h, p, header.previousChainLength, now);
    DhKeepsCache(AfterSkip(p.st, header.previousChainLength, now), header, newKey);
    OnChainStamps(more, q, n, m, now);
    AheadOfStepped(h, p, q, newKey);
    StampsCompose(h, p, more, q, ReceiveAt(q.st, n, m, h.associatedData, now).state.skipped, now);
    forall id | id in SkipDrops(q.st, n, now)
      ensures Evicted(p, id, now)
    {
      EvictedBySecond(h, p, q, id, now);
    }
  }

  lemma DhKeepsCache(s: State, header: Header, newKey: Secret)
    ensures AfterDhRatchet(s, header, newKey).skipped == s.skipped
  {
  }

  /** Pruning before the search. */
  lemma PrunedStamps(h: History, p: Party, now: int)
    requires p.Inv(h)
    ensures PrunedParty(p, now).Inv(h) && Stamps(h, p, PrunedParty(p, now).st.skipped, now)
    ensures forall id :: id in PrunedAway(p.st.skipped, now) ==> Evicted(p, id, now)
    ensures forall id :: Ahead(h, PrunedParty(p, now), id) ==> Ahead(h, p, id)
  {
    hide History.Valid, KeysInv, CountsInv, Pruned, PrunedAway, Stamps, Evicted, DroppedInv, Distinct;
    PruneKeeps(h, p, now);
    OwnStamps(h, p, now);
    PruneEvicts(h, p, p.st.skipped, now);
    PrunedIsSubsequence(p.st.skipped, now);
    StampsSubset(h, p, p.st.skipped, Pruned(p.st.skipped, now), now);
  }

  /** A successful delivery stamps what it caches with its own time, and evicts only what had expired or is crowded out. */
  lemma DeliveryStamps(h: History, p: Party, j: nat, n: nat, now: int, newKey: Secret)
    requires p.Inv(h) && 1 <= j < |h.g.keys| && n < |h.sent[j]| && Deliverable(h, p, j, n, now)
    ensures Stamps(h, p, PartyAfter(h, p, j, n, now, newKey).st.skipped, now)
    ensures forall id :: id in Dropped(p.st, h.sent[j][n], h.associatedData, now, newKey) ==> Evicted(p, id, now)
  {
    hide Party.Inv, HeaderAt, Pruned, PrunedAway, ReceiveAt, ReceiveAhead, FirstFit, Ids, OpenBody, MatchHeader,
      AfterDelivery, SkipDrops, AheadDrops, Stamps, Evicted, Ahead;
    PartyBounds(h, p);
    var q := PrunedParty(p, now);
    var m := h.sent[j][n];
    PrunedStamps(h, p, now);
    PartyBounds(h, q);
    PartySearch(h, q, j, n);
    HeaderTellsChain(h, q, j, n);
    PlainHeader(h, j, n);
    DeliveryExact(h, p, j, n, now, newKey);
    DeliverySaves(p.st, m, h.associatedData, now, newKey);
    var after := PartyAfter(h, p, j, n, now, newKey).st.skipped;
    if (HeaderAt(h.g, j), n) in Ids(q.st.skipped) {
      StampsSubset(h, p, q.st.skipped, after, now);
    } else if j + 1 == p.s {
      OnChainStamps(h, q, n, m, now);
      LiftStamps(h, p, q, after, SkipDrops(q.st, n, now), now);
    } else {
      AheadStamps(h, q, n, now, newKey);
      LiftStamps(h, p, q, after, AheadDrops(q.st, m.header.plain, now, newKey), now);
    }
  }

  lemma LiftStamps(h: History, p: Party, q: Party, after: seq<Skipped>, drops: set<Id>, now: int)
    requires |h.sent| == |h.g.keys| && Stamps(h, p, q.st.skipped, now) && Stamps(h, q, after, now)
    requires forall id :: Ahead(h, q, id) ==> Ahead(h, p, id)
    requires forall id :: id in drops ==> Evicted(q, id, now)
    ensures Stamps(h, p, after, now) && forall id :: id in drops ==> Evicted(p, id, now)
  {
    hide Stamps, Evicted, Ahead;
    StampsCompose(h, p, h, q, after, now);
    forall id | id in drops
      ensures Evicted(p, id, now)
    {
      EvictedBySecond(h, p, q, id, now);
    }
  }

  // ----- runs with the time at which each key was cached -----

  /** `cachedAt` records, for each side and id, the time of the step that put the key into the cache. */
  datatype Timed = Timed(session: Session, cachedAt: map<(bool, Id), int>) {
    function Cache(who: bool): seq<Skipped> {
      session.Side(who).st.skipped
    }

    /** The ids that the cache of this side holds after a step and did not before. */
    function NewlyCached(z: Session, who: bool): set<Id> {
      Ids(z.Side(who).st.skipped) - Ids(Cache(who))
    }

    function Recorded(z: Session, who: bool, now: int): map<(bool, Id), int> {
      cachedAt + map id | id in NewlyCached(z, who) :: (who, id) := now
    }

    function After(x: Step): Timed
      requires |session.h.sent| == |session.h.g.keys|
      requires x.Send? ==> session.Side(x.byInitiator).s < |session.h.sent|
      requires x.Deliver? ==> x.j < |session.h.g.keys| && x.n < |session.h.sent[x.j]|
    {
      Timed(session.After(x), Recorded(session.After(x), Who(x), x.now))
    }

    ghost predicate Stamped(who: bool) {
      && |Cache(who)| <= MAX_SKIPPED_KEYS
      && forall e :: e in Cache(who) ==> (who, IdOf(e)) in cachedAt && cachedAt[(who, IdOf(e))] == e.storedAt
    }

    ghost predicate Inv() {
      session.Inv() && Stamped(true) && Stamped(false)
    }
  }

  /** The side at which the step happens. */
  function Who(x: Step): bool {
    if x.Send? then x.byInitiator else x.toInitiator
  }

  lemma SideInv(y: Session, who: bool)
    requires y.Inv()
    ensures y.Side(who).Inv(y.h) && |y.h.sent| == |y.h.g.keys|
  {
    hide Party.Inv;
    PartyBounds(y.h, y.Side(who));
  }

  /** What is ahead is not cached. */
  lemma AheadNotCached(h: History, p: Party, id: Id)
    requires p.Inv(h) && Ahead(h, p, id)
    ensures id !in Ids(p.st.skipped)
  {
    hide History.Valid, KeysInv, CountsInv, DroppedInv, Distinct;
    forall e | e in p.st.skipped
      ensures IdOf(e) != id
    {
      var j: nat :| EntryAt(h, p.s, p.st.receivedCount, e, j) && (j, e.number) !in p.got;
    }
  }

  /** What one step does to the cache of its own side, and that it leaves the other alone. */
  lemma StepStamps(y: Session, x: Step)
    requires y.Inv() && y.Enabled(x)
    requires |y.Side(Who(x)).st.skipped| <= MAX_SKIPPED_KEYS
    ensures |y.h.sent| == |y.h.g.keys|
    ensures var z := y.After(x); var p := y.Side(Who(x));
            && z.Side(!Who(x)).st == y.Side(!Who(x)).st
            && Stamps(y.h, p, z.Side(Who(x)).st.skipped, x.now) && |z.Side(Who(x)).st.skipped| <= MAX_SKIPPED_KEYS
            && p.dropped <= z.Side(Who(x)).dropped
            && forall id :: id in z.Side(Who(x)).dropped && id !in p.dropped ==> Evicted(p, id, x.now)
  {
    hide Party.Inv, Session.Returned, Stamps, Evicted, AfterEncrypt, AfterDelivery, PartyAfter, Deliverable, Dropped, ForgedBody, HeaderAt, Pruned,
      PrunedAway, Extended, Grown;
    var p := y.Side(Who(x));
    SideInv(y, Who(x));
    OwnStamps(y.h, p, x.now);
    match x {
      case Send(_, plain, now, nonce) => SendStamps(y, x);
      case Deliver(_, j, n, now, newKey) => DeliverStamps(y, x);
      case Noise(_, _, _, _) => NoiseChangesNothing(y, x);
    }
  }

  lemma SendStamps(y: Session, x: Step)
    requires y.Inv() && y.Enabled(x) && x.Send?
    requires |y.Side(Who(x)).st.skipped| <= MAX_SKIPPED_KEYS
    ensures |y.h.sent| == |y.h.g.keys|
    ensures var z := y.After(x); var p := y.Side(Who(x));
            && z.Side(!Who(x)).st == y.Side(!Who(x)).st
            && Stamps(y.h, p, z.Side(Who(x)).st.skipped, x.now) && |z.Side(Who(x)).st.skipped| <= MAX_SKIPPED_KEYS
            && p.dropped <= z.Side(Who(x)).dropped
            && forall id :: id in z.Side(Who(x)).dropped && id !in p.dropped ==> Evicted(p, id, x.now)
  {
    hide Party.Inv, Session.Returned, Stamps, Evicted, HeaderAt, Pruned, PrunedAway, Extended;
    var p := y.Side(Who(x));
    SideInv(y, Who(x));
    OwnStamps(y.h, p, x.now);
    PrunedStamps(y.h, p, x.now);
    PrunedIsSubsequence(p.st.skipped, x.now);
  }

  lemma DeliverStamps(y: Session, x: Step)
    requires y.Inv() && y.Enabled(x) && x.Deliver?
    requires |y.Side(Who(x)).st.skipped| <= MAX_SKIPPED_KEYS
    ensures |y.h.sent| == |y.h.g.keys|
    ensures var z := y.After(x); var p := y.Side(Who(x));
            && z.Side(!Who(x)).st == y.Side(!Who(x)).st
            && Stamps(y.h, p, z.Side(Who(x)).st.skipped, x.now) && |z.Side(Who(x)).st.skipped| <= MAX_SKIPPED_KEYS
            && p.dropped <= z.Side(Who(x)).dropped
            && forall id :: id in z.Side(Who(x)).dropped && id !in p.dropped ==> Evicted(p, id, x.now)
  {
    hide Party.Inv, Session.Returned, Stamps, Evicted, HeaderAt, AfterDelivery, Deliverable, Dropped, Grown;
    var p := y.Side(Who(x));
    SideInv(y, Who(x));
    OwnStamps(y.h, p, x.now);
    DeliveryExact(y.h, p, x.j, x.n, x.now, x.newKey);
    if Deliverable(y.h, p, x.j, x.n, x.now) {
      DeliveryStamps(y.h, p, x.j, x.n, x.now, x.newKey);
      DeliveryKeeps(y.h, p, x.j, x.n, x.now, x.newKey);
    }
  }

  lemma EntryRecorded(t: Timed, z: Session, who: bool, now: int, e: Skipped)
    requires t.Stamped(who) && e in z.Side(who).st.skipped
    requires e in t.Cache(who) || (e.storedAt == now && IdOf(e) !in Ids(t.Cache(who)))
    ensures (who, IdOf(e)) in t.Recorded(z, who, now) && t.Recorded(z, who, now)[(who, IdOf(e))] == e.storedAt
  {
    if e in t.Cache(who) {
      IdIn(t.Cache(who), e);
    } else {
      IdIn(z.Side(who).st.skipped, e);
    }
  }

  lemma OtherRecorded(t: Timed, z: Session, who: bool, now: int)
    requires t.Stamped(!who) && z.Side(!who).st == t.session.Side(!who).st
    ensures Timed(z, t.Recorded(z, who, now)).Stamped(!who)
  {
    hide Ids;
  }

  lemma StampedAfter(t: Timed, x: Step)
    requires t.Inv() && t.session.Enabled(x)
    ensures |t.session.h.sent| == |t.session.h.g.keys|
    ensures t.After(x).Stamped(Who(x)) && t.After(x).Stamped(!Who(x))
  {
    hide Session.Inv, Session.After, ForgedBody, HeaderAt, Ahead, Evicted, Ids, Timed.Recorded;
    var y, who := t.session, Who(x);
    SideInv(y, who);
    StepStamps(y, x);
    var z := y.After(x);
    OtherRecorded(t, z, who, x.now);
    forall e | e in z.Side(who).st.skipped
      ensures (who, IdOf(e)) in t.Recorded(z, who, x.now) && t.Recorded(z, who, x.now)[(who, IdOf(e))] == e.storedAt
    {
      if e !in t.Cache(who) {
        AheadNotCached(y.h, y.Side(who), IdOf(e));
      }
      EntryRecorded(t, z, who, x.now, e);
    }
  }

  lemma TimedStepKeepsInv(t: Timed, x: Step)
    requires t.Inv() && t.session.Enabled(x)
    ensures |t.session.h.sent| == |t.session.h.g.keys| && t.After(x).Inv()
  {
    hide Session.Inv, Session.After, ForgedBody, HeaderAt, Timed.Stamped;
    SideInv(t.session, true);
    StepKeepsInv(t.session, x);
    StampedAfter(t, x);
  }

  /** A key is cached by the step that passes its position, and by no later one. */
  lemma CachedWhenPassed(t: Timed, x: Step, id: Id)
    requires t.Inv() && t.session.Enabled(x) && |t.session.h.sent| == |t.session.h.g.keys|
    requires id in t.NewlyCached(t.session.After(x), Who(x))
    ensures var z := t.session.After(x); var q := z.Side(Who(x));
            && Ahead(t.session.h, t.session.Side(Who(x)), id)
            && |z.h.sent| == |z.h.g.keys| && exists j: nat :: PassedAt(z.h, q.s, q.st.receivedCount, id, j)
  {
    hide Session.Inv, Session.After, ForgedBody, HeaderAt, Ahead, Evicted, PassedAt;
    var z := t.session.After(x);
    StepStamps(t.session, x);
    StepKeepsInv(t.session, x);
    SideInv(z, Who(x));
    var e :| e in z.Side(Who(x)).st.skipped && IdOf(e) == id;
    if e in t.Cache(Who(x)) {
      IdIn(t.Cache(Who(x)), e);
      assert false;
    }
    EntryPassed(z.h, z.Side(Who(x)), e);
  }

  lemma EntryPassed(h: History, p: Party, e: Skipped)
    requires p.Inv(h) && e in p.st.skipped
    ensures exists j: nat :: PassedAt(h, p.s, p.st.receivedCount, IdOf(e), j)
  {
    hide History.Valid, KeysInv, CountsInv, DroppedInv, Distinct;
    var j: nat :| EntryAt(h, p.s, p.st.receivedCount, e, j) && (j, e.number) !in p.got;
  }

  // ----- the two ways to lose a key -----

  predicate RunOut(t: Timed, who: bool, id: Id, now: int) {
    id in Ids(t.Cache(who)) && (who, id) in t.cachedAt && t.cachedAt[(who, id)] < now - SKIPPED_KEY_TTL_MS
  }

  ghost predicate CrowdedOut(p: Party, id: Id, now: int) {
    exists skipped: seq<Skipped>, i: nat :: i < |skipped| && IdOf(skipped[i]) == id && CachedBy(p, skipped, now)
      && |Fresh(skipped[i + 1..], now - SKIPPED_KEY_TTL_MS)| >= MAX_SKIPPED_KEYS
  }

  /** In every run, a step drops a key only if it was cached more than SKIPPED_KEY_TTL_MS before, or if at least
      MAX_SKIPPED_KEYS unexpired keys come after it. */
  lemma DroppedMeansRunOutOrCrowdedOut(t: Timed, x: Step, id: Id)
    requires t.Inv() && t.session.Enabled(x) && |t.session.h.sent| == |t.session.h.g.keys|
    requires id in t.session.After(x).Side(Who(x)).dropped && id !in t.session.Side(Who(x)).dropped
    ensures RunOut(t, Who(x), id, x.now) || CrowdedOut(t.session.Side(Who(x)), id, x.now)
  {
    hide Session.Inv, Session.After, ForgedBody, HeaderAt, Stamps, Distinct;
    var p := t.session.Side(Who(x));
    StepStamps(t.session, x);
    var skipped: seq<Skipped>, i: nat :| Evicts(p, skipped, i, x.now) && IdOf(skipped[i]) == id;
    if skipped[i].storedAt < x.now - SKIPPED_KEY_TTL_MS {
      IdIn(t.Cache(Who(x)), skipped[i]);
    }
  }

  // ----- how long a cached key is good for -----

  lemma {:induction false} FreshAll(skipped: seq<Skipped>, cutoff: int)
    ensures |Fresh(skipped, cutoff)| <= |skipped|
    ensures (forall e :: e in skipped ==> e.storedAt >= cutoff) ==> Fresh(skipped, cutoff) == skipped
  {
    if skipped == [] {
    } else {
      var n := |skipped| - 1;
      FreshAll(skipped[..n], cutoff);
      assert skipped == skipped[..n] + [skipped[n]];
    }
  }

  /** Where there is room, pruning takes exactly what has expired. */
  lemma PrunedInTime(skipped: seq<Skipped>, e: Skipped, now: int)
    requires |skipped| <= MAX_SKIPPED_KEYS && Distinct(skipped) && e in skipped
    ensures IdOf(e) in PrunedAway(skipped, now) <==> e.storedAt < now - SKIPPED_KEY_TTL_MS
  {
    FreshAll(skipped, now - SKIPPED_KEY_TTL_MS);
    FreshIsSubsequence(skipped, now - SKIPPED_KEY_TTL_MS);
    IdIn(skipped, e);
    if e.storedAt >= now - SKIPPED_KEY_TTL_MS {
      IdIn(Pruned(skipped, now), e);
    }
  }

  lemma CachedFacts(h: History, p: Party, j: nat, n: nat)
    requires p.Inv(h) && 1 <= j < |h.g.keys| && (HeaderAt(h.g, j), n) in Ids(p.st.skipped)
    ensures (j, n) !in p.got && (HeaderAt(h.g, j), n) !in p.dropped && !TooFar(h, p, j, n)
    ensures Distinct(p.st.skipped) && exists e :: e in p.st.skipped && IdOf(e) == (HeaderAt(h.g, j), n)
  {
    hide History.Valid, KeysInv, HeaderAt, ChainAt, Distinct;
    var e :| e in p.st.skipped && IdOf(e) == (HeaderAt(h.g, j), n);
    var k: nat :| EntryAt(h, p.s, p.st.receivedCount, e, k) && (k, e.number) !in p.got;
    HeaderInjective(h.g, j, k);
    PassedOnce(h, p, j, n);
  }

  /** In every state that a run can reach, a message whose key is cached can be read exactly until SKIPPED_KEY_TTL_MS
      after the step that cached it. */
  lemma ReadableForTheTtl(t: Timed, toInitiator: bool, j: nat, n: nat, now: int, newKey: Secret)
    requires t.Inv() && 1 <= j < |t.session.h.g.keys| && |t.session.h.sent| == |t.session.h.g.keys| && n < |t.session.h.sent[j]|
    requires j % 2 == (if toInitiator then 0 else 1)
    requires (HeaderAt(t.session.h.g, j), n) in Ids(t.Cache(toInitiator))
    ensures var h := t.session.h; var id := (HeaderAt(h.g, j), n);
            && (toInitiator, id) in t.cachedAt
            && (AfterDelivery(t.session.Side(toInitiator).st, h.sent[j][n], h.associatedData, now, newKey).plain.Some?
                <==> now - t.cachedAt[(toInitiator, id)] <= SKIPPED_KEY_TTL_MS)
  {
    hide Session.Inv, AfterDelivery, HeaderAt, PrunedAway, TooFar, Distinct;
    var y := t.session;
    var p := y.Side(toInitiator);
    var id := (HeaderAt(y.h.g, j), n);
    SideInv(y, toInitiator);
    CachedFacts(y.h, p, j, n);
    var e :| e in p.st.skipped && IdOf(e) == id;
    PrunedInTime(p.st.skipped, e, now);
    DecryptsExactly(y, toInitiator, j, n, now, newKey);
  }

  ghost predicate TimedLeads(t: Timed, steps: seq<Step>, z: Timed)
    decreases |steps|
  {
    if steps == [] then z == t
    else && |t.session.h.sent| == |t.session.h.g.keys| && t.session.Enabled(steps[0])
         && TimedLeads(t.After(steps[0]), steps[1..], z)
  }

  lemma {:induction false} TimedRunKeepsInv(t: Timed, steps: seq<Step>, z: Timed)
    requires t.Inv() && TimedLeads(t, steps, z)
    ensures z.Inv()
    decreases |steps|
  {
    hide Timed.Inv, Timed.After;
    if steps == [] {
    } else {
      TimedStepKeepsInv(t, steps[0]);
      TimedRunKeepsInv(t.After(steps[0]), steps[1..], z);
    }
  }

  lemma TimedBeginInv(shared: SharedSecret, responderKey: Secret, initiatorKey: Secret, associatedData: Bytes)
    ensures Timed(Begin(shared, responderKey, initiatorKey, associatedData), map[]).Inv()
  {
    hide Session.Inv;
    BeginInv(shared, responderKey, initiatorKey, associatedData);
  }

  // ----- a message that comes in after its successor -----

  /** Where the cache has room for all that is skipped, and nothing in it has expired, nothing is dropped. */
  lemma RoomForAll(h: History, p: Party, until: nat, now: int)
    requires p.Inv(h) && 2 <= p.s && p.st.receivedCount <= until <= |h.sent[p.s - 1]|
    requires |p.st.skipped| + (until - p.st.receivedCount) <= MAX_SKIPPED_KEYS
    requires forall e :: e in p.st.skipped ==> e.storedAt >= now - SKIPPED_KEY_TTL_MS
    ensures SkipDrops(p.st, until, now) == {}
  {
    hide Party.Inv, SkipTo, Stamps, PrunedAway, HeaderAt, Distinct;
    PartyBounds(h, p);
    if !SkipsTooFar(p.st, until) && p.st.receivingChain.Some? && p.st.headerKeyReceiving.Some? {
      var more := SkipTo(p.st, until, now).skipped;
      SkipToAppends(h, p, until, now);
      SkipStamps(h, p, until, now);
      forall e | e in more
        ensures e.storedAt >= now - SKIPPED_KEY_TTL_MS
      {
        StampOf(h, p, more, e, now);
      }
      AllKept(more, now);
    }
  }

  lemma StampOf(h: History, p: Party, skipped: seq<Skipped>, e: Skipped, now: int)
    requires |h.sent| == |h.g.keys| && Stamps(h, p, skipped, now) && e in skipped
    ensures e in p.st.skipped || e.storedAt == now
  {
  }

  lemma AllKept(skipped: seq<Skipped>, now: int)
    requires |skipped| <= MAX_SKIPPED_KEYS && forall e :: e in skipped ==> e.storedAt >= now - SKIPPED_KEY_TTL_MS
    ensures PrunedAway(skipped, now) == {}
  {
    FreshAll(skipped, now - SKIPPED_KEY_TTL_MS);
  }

  /** The session in which the initiator has sent two messages, and neither has arrived. */
  function TwoSent(shared: SharedSecret, responderKey: Secret, initiatorKey: Secret, associatedData: Bytes,
                   first: Step, second: Step): Timed
    requires first.Send? && first.byInitiator && second.Send? && second.byInitiator
  {
    Timed(Begin(shared, responderKey, initiatorKey, associatedData), map[]).After(first).After(second)
  }

  lemma TwoSentFacts(shared: SharedSecret, responderKey: Secret, initiatorKey: Secret, associatedData: Bytes, first: Step, second: Step)
    requires first.Send? && first.byInitiator && second.Send? && second.byInitiator
    ensures var t0 := Timed(Begin(shared, responderKey, initiatorKey, associatedData), map[]);
            var t := TwoSent(shared, responderKey, initiatorKey, associatedData, first, second); var h := t.session.h;
            && t.Inv() && TimedLeads(t0, [first, second], t)
            && |h.sent| == |h.g.keys| == 2 && |h.sent[1]| == 2
            && h.sent[1][0].body.plain == first.plain && h.sent[1][1].body.plain == second.plain
            && t.session.responder == Party(0, InitResponder(shared, responderKey), {}, {}) && t.session.returned == []
  {
    hide Session.Inv, Timed.Stamped, Timed.Recorded, RootAt, ChainAt, HeaderAt, Dh;
    var t0 := Timed(Begin(shared, responderKey, initiatorKey, associatedData), map[]);
    TimedBeginInv(shared, responderKey, initiatorKey, associatedData);
    TimedStepKeepsInv(t0, first);
    var t1 := t0.After(first);
    TimedStepKeepsInv(t1, second);
    var t := t1.After(second);
    assert [first, second][1..] == [second] && [second][1..] == [];
    assert TimedLeads(t1, [second], t);
  }

  /** A responder that has received nothing yet, while two messages are on their way to it. */
  ghost predicate Waits(h: History, p: Party) {
    && p.Inv(h) && |h.sent| == |h.g.keys| == 2 && |h.sent[1]| == 2
    && p.s == 0 && p.st.skipped == [] && p.st.receivedCount == 0 && p.got == {} && p.dropped == {}
  }

  lemma SecondIsDeliverable(h: History, p: Party, now: int)
    requires Waits(h, p)
    ensures Deliverable(h, p, 1, 1, now)
  {
    hide Party.Inv, Pruned, Ids;
  }

  lemma NothingDroppedYet(h: History, p: Party, now: int, newKey: Secret)
    requires Waits(h, p)
    ensures Dropped(p.st, h.sent[1][1], h.associatedData, now, newKey) == {}
  {
    hide CacheInv, HeaderAt, ChainAt, RootAt, AfterDhRatchet, SkipTo, PrunedAway, History.Valid;
    AllKept([], now);
    assert p.st.(skipped := Pruned([], now)) == p.st;
    HeaderTellsChain(h, p, 1, 1);
    PlainHeader(h, 1, 1);
    StepKeeps(h, p, 1, now, newKey);
    var header := h.sent[1][1].header.plain;
    var q := Stepped(p, header, now, newKey);
    DhKeepsCache(p.st, header, newKey);
    RoomForAll(Grown(h, newKey), q, 1, now);
  }

  lemma FirstIsCached(h: History, p: Party, now: int, newKey: Secret)
    requires Waits(h, p)
    ensures (HeaderAt(h.g, 1), 0) in Ids(PartyAfter(h, p, 1, 1, now, newKey).st.skipped)
  {
    hide History.Valid, KeysInv, CountsInv, HeaderAt, ChainAt, AfterDelivery, Dropped, Deliverable, Ids, Distinct, DroppedInv;
    SecondIsDeliverable(h, p, now);
    NothingDroppedYet(h, p, now, newKey);
    DeliveryKeeps(h, p, 1, 1, now, newKey);
    var q, more := PartyAfter(h, p, 1, 1, now, newKey), Grown(h, newKey);
    assert (1, 1) in q.got;
    PassedOnce(more, q, 1, 0);
    HeaderExtends(h.g, more.g, 1);
  }

  /** The responder's first delivery, of the second message, caches the key of the first. */
  lemma SecondFirst(t: Timed, x: Step)
    requires t.Inv() && Waits(t.session.h, t.session.responder) && t.session.returned == []
    requires x.Deliver? && !x.toInitiator && x.j == 1 && x.n == 1
    ensures t.session.Enabled(x) && t.After(x).Inv()
    ensures var z := t.After(x); var id := (HeaderAt(t.session.h.g, 1), 0);
            && z.session.h == Grown(t.session.h, x.newKey)
            && z.session.returned == [RatchetRun.Delivery(false, (1, 1), t.session.h.sent[1][1].body.plain)]
            && id in Ids(z.Cache(false)) && (false, id) in z.cachedAt && z.cachedAt[(false, id)] == x.now
  {
    hide Session.Inv, Party.Inv, Timed.Stamped, HeaderAt, AfterDelivery, Dropped, Deliverable, Ids;
    var y, p := t.session, t.session.responder;
    DeliveryExact(y.h, p, 1, 1, x.now, x.newKey);
    SecondIsDeliverable(y.h, p, x.now);
    TimedStepKeepsInv(t, x);
    FirstIsCached(y.h, p, x.now, x.newKey);
    NoIds();
  }

  lemma NoIds()
    ensures Ids([]) == {}
  {
  }

  /** From a new session on: the second message comes in first. The first one is then read, too, exactly if it comes
      in within SKIPPED_KEY_TTL_MS. */
  lemma LateMessage(shared: SharedSecret, responderKey: Secret, initiatorKey: Secret, associatedData: Bytes,
                    first: Step, second: Step, x: Step, w: Step) returns (z: Timed)
    requires first.Send? && first.byInitiator && second.Send? && second.byInitiator
    requires x.Deliver? && !x.toInitiator && x.j == 1 && x.n == 1
    requires w.Deliver? && !w.toInitiator && w.j == 1 && w.n == 0
    ensures TimedLeads(Timed(Begin(shared, responderKey, initiatorKey, associatedData), map[]), [first, second, x, w], z)
    ensures z.session.returned == [RatchetRun.Delivery(false, (1, 1), second.plain)]
                                  + if w.now - x.now <= SKIPPED_KEY_TTL_MS then [RatchetRun.Delivery(false, (1, 0), first.plain)] else []
  {
    hide Session.Inv, Party.Inv, Timed.Stamped, Timed.Recorded, HeaderAt, AfterDelivery, PartyAfter, Ids, AfterEncrypt, TimedLeads, Begin;
    var t0 := Timed(Begin(shared, responderKey, initiatorKey, associatedData), map[]);
    var t := TwoSent(shared, responderKey, initiatorKey, associatedData, first, second);
    TwoSentFacts(shared, responderKey, initiatorKey, associatedData, first, second);
    SideInv(t.session, false);
    SecondFirst(t, x);
    var u := t.After(x);
    z := u.After(w);
    HeaderExtends(t.session.h.g, u.session.h.g, 1);
    ReadableForTheTtl(u, false, 1, 0, w.now, w.newKey);
    DecryptsExactly(u.session, false, 1, 0, w.now, w.newKey);
    TwoMore(t, x, w, z);
    TimedLeadsConcat(t0, [first, second], t, [x, w], z);
    assert [first, second] + [x, w] == [first, second, x, w];
  }

  lemma TwoMore(t: Timed, x: Step, w: Step, z: Timed)
    requires |t.session.h.sent| == |t.session.h.g.keys| && t.session.Enabled(x)
    requires var u := t.After(x); |u.session.h.sent| == |u.session.h.g.keys| && u.session.Enabled(w) && z == u.After(w)
    ensures TimedLeads(t, [x, w], z)
  {
    hide Timed.After, ForgedBody, HeaderAt;
    assert [x, w][1..] == [w] && [w][1..] == [];
    assert TimedLeads(t.After(x), [w], z);
  }

  lemma {:induction false} TimedLeadsConcat(t: Timed, a: seq<Step>, m: Timed, b: seq<Step>, z: Timed)
    requires TimedLeads(t, a, m) && TimedLeads(m, b, z)
    ensures TimedLeads(t, a + b, z)
    decreases |a|
  {
    hide Timed.After, ForgedBody, HeaderAt;
    if a == [] {
      assert a + b == b;
    } else {
      TimedLeadsConcat(t.After(a[0]), a[1..], m, b, z);
      assert (a + b)[0] == a[0] && (a + b)[1..] == a[1..] + b;
    }
  }
}
