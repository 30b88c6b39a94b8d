/**
 For how long a skipped group message can still be read. The cache is pruned only when the chain moves on, so a key
 goes at the first such step that comes more than GROUP_SKIPPED_KEY_TTL_MS after the one that skipped it, unless
 MAX_GROUP_SKIPPED_KEYS later ones push it out before.
 */
module GroupExpiry {
  import opened Bytes
  import opened GroupRatchet
  import opened GroupRatchetRun

  // ----- what a step puts into the cache -----

  /** Skipping appends one entry for each position, with the time of the step. */
  lemma {:induction false} RangeAppends(h: Sender, skipped: seq<Cached>, first: nat, count: nat, now: int)
    requires Ascending(skipped) && TrueKeys(h, skipped) && forall p :: p in Positions(skipped) ==> p < first
    ensures var t := PutRange(skipped, h.ChainAt(first), first, count, now);
            && skipped <= t && |t| == |skipped| + count
            && forall i :: |skipped| <= i < |t| ==> t[i].storedAt == now && t[i].position == first + i - |skipped|
  {
    hide Put, Sender.ChainAt, Sender.KeyAt;
    if count == 0 {
    } else {
      var t := PutRange(skipped, h.ChainAt(first), first, count - 1, now);
      RangeAppends(h, skipped, first, count - 1, now);
      PutRangeKeys(h, skipped, first, count - 1, now);
      PutAppends(t, Cached(first + count - 1, MessageKey(Steps(h.ChainAt(first), count - 1)), now));
    }
  }

  /** The cache in the middle of a step that moves the chain on to position n, before it is pruned. */
  function Filled(r: Receiver, n: nat, now: int): seq<Cached>
    requires n >= r.iteration
  {
    PutRange(r.skipped, r.chainKey, r.iteration, n - r.iteration, now)
  }

  lemma BelowIteration(h: Sender, p: Party)
    requires p.Inv(h)
    ensures forall q :: q in Positions(p.r.skipped) ==> q < p.r.iteration
    ensures Ascending(p.r.skipped) && TrueKeys(h, p.r.skipped) && p.r.chainKey == h.ChainAt(p.r.iteration)
  {
  }

  lemma FilledIs(h: Sender, p: Party, n: nat, now: int)
    requires p.Inv(h) && n >= p.r.iteration
    ensures var t := Filled(p.r, n, now);
            && Ascending(t) && p.r.skipped <= t && |t| == |p.r.skipped| + (n - p.r.iteration)
            && (forall e :: e in t ==> e in p.r.skipped || (e.storedAt == now && p.r.iteration <= e.position < n))
            && (forall q: nat :: q in Positions(t) <==> q in Positions(p.r.skipped) || p.r.iteration <= q < n)
  {
    hide Party.Inv, Sender.ChainAt, Sender.KeyAt, PutRange;
    BelowIteration(h, p);
    RangeAppends(h, p.r.skipped, p.r.iteration, n - p.r.iteration, now);
    PutRangeKeys(h, p.r.skipped, p.r.iteration, n - p.r.iteration, now);
    var t := Filled(p.r, n, now);
    forall i | 0 <= i < |t|
      ensures t[i] in p.r.skipped || (t[i].storedAt == now && p.r.iteration <= t[i].position < n)
    {
      if i < |p.r.skipped| {
        assert t[i] == p.r.skipped[i];
      }
    }
  }

  // ----- what pruning takes -----

  lemma {:induction false} UnexpiredCount(skipped: seq<Cached>, cutoff: int)
    ensures |Unexpired(skipped, cutoff)| <= |skipped|
  {
    if skipped == [] {
    } else {
      UnexpiredCount(skipped[..|skipped| - 1], cutoff);
    }
  }

  lemma OnePerPosition(skipped: seq<Cached>, e: Cached, f: Cached)
    requires Ascending(skipped) && e in skipped && f in skipped && e.position == f.position
    ensures e == f
  {
    var i :| 0 <= i < |skipped| && skipped[i] == e;
    var k :| 0 <= k < |skipped| && skipped[k] == f;
  }

  lemma InPositions(skipped: seq<Cached>, e: Cached)
    requires e in skipped
    ensures e.position in Positions(skipped)
  {
  }

  /** Where there is room, pruning takes exactly what has expired. */
  lemma PrunedInTime(skipped: seq<Cached>, e: Cached, now: int)
    requires |skipped| <= MAX_GROUP_SKIPPED_KEYS && Ascending(skipped) && e in skipped
    ensures e.position in Evicted(skipped, now) <==> e.storedAt < now - GROUP_SKIPPED_KEY_TTL_MS
  {
    var cutoff := now - GROUP_SKIPPED_KEY_TTL_MS;
    UnexpiredCount(skipped, cutoff);
    UnexpiredIsSubsequence(skipped, cutoff);
    assert Pruned(skipped, now) == Unexpired(skipped, cutoff);
    InPositions(skipped, e);
    if e.storedAt >= cutoff {
      InPositions(Pruned(skipped, now), e);
    } else if e.position in Positions(Pruned(skipped, now)) {
      var f :| f in Pruned(skipped, now) && f.position == e.position;
      OnePerPosition(skipped, e, f);
    }
  }

  // ----- runs with the time at which each key was cached -----

  datatype Timed = Timed(run: Run, cachedAt: map<nat, int>) {
    function Cache(): seq<Cached> {
      run.p.r.skipped
    }

    function Recorded(z: Run, now: int): map<nat, int> {
      cachedAt + map q | q in Positions(z.p.r.skipped) - Positions(Cache()) :: q := now
    }

    function After(x: Step): Timed {
      Timed(run.After(x), if x.Deliver? then Recorded(run.After(x), x.now) else cachedAt)
    }

    ghost predicate Inv() {
      run.Inv() && forall e :: e in Cache() ==> e.position in cachedAt && cachedAt[e.position] == e.storedAt
    }
  }

  /** What a delivery may add to the cache. */
  ghost predicate Stamps(p: Party, skipped: seq<Cached>, now: int) {
    forall e :: e in skipped ==> e in p.r.skipped || (e.storedAt == now && e.position !in Positions(p.r.skipped))
  }

  lemma MessageStamps(h: Sender, p: Party, n: nat, now: int)
    requires p.Inv(h) && n < |h.sent|
    ensures Stamps(p, AfterDelivery(p.r, h.Message(n), now).state.skipped, now)
  {
    hide Party.Inv, Sender.KeyAt, Sender.ChainAt, PutRange, Pruned, OpenBody, Verifies;
    PartyFacts(h, p);
    SearchIsExact(p.r.skipped, n);
    if n !in Positions(p.r.skipped) && n >= p.r.iteration {
      BelowIteration(h, p);
      FilledIs(h, p, n, now);
      PrunedIsSubsequence(Filled(p.r, n, now), now);
    }
  }

  lemma DeliveryStamps(y: Run, m: GroupMessage, now: int)
    requires y.Inv() && y.h.Unforged(m)
    ensures Stamps(y.p, AfterDelivery(y.p.r, m, now).state.skipped, now)
  {
    hide Party.Inv, AfterDelivery, Sender.Message, Sender.Unforged;
    OnlySenderWrites(y.h, y.p, m, now);
    if AfterDelivery(y.p.r, m, now) != Received(y.p.r, None) {
      var n: nat :| n < |y.h.sent| && m == y.h.Message(n);
      MessageStamps(y.h, y.p, n, now);
    }
  }

  lemma TimedStepKeepsInv(t: Timed, x: Step)
    requires t.Inv() && t.run.Enabled(x)
    ensures t.After(x).Inv()
  {
    hide Party.Inv, AfterDelivery, Sender.Unforged, Dropped;
    StepKeepsInv(t.run, x);
    if x.Deliver? {
      DeliveryStamps(t.run, x.m, x.now);
      var z := t.After(x);
      forall e | e in z.Cache()
        ensures e.position in z.cachedAt && z.cachedAt[e.position] == e.storedAt
      {
        InPositions(z.Cache(), e);
        if e in t.Cache() {
          InPositions(t.Cache(), e);
        }
      }
    }
  }

  lemma TimedBeginInv(h: Sender)
    requires |h.sent| <= TWO32
    ensures Timed(Run(h, Joined(h), []), map[]).Inv()
  {
    JoinedInv(h);
  }

  // ----- when a key goes -----

  /** In every run, a step drops a key only if it was cached more than GROUP_SKIPPED_KEY_TTL_MS before, or if as many
      keys of later positions stay as the cache may hold. */
  lemma DroppedMeansExpiredOrCrowdedOut(t: Timed, n: nat, now: int, q: nat)
    requires t.Inv() && n < |t.run.h.sent| && Takeable(t.run.p, n)
    requires var z := t.run.After(Deliver(t.run.h.Message(n), now)); q in z.p.dropped && q !in t.run.p.dropped
    ensures var z := t.run.After(Deliver(t.run.h.Message(n), now));
            || (q in Positions(t.Cache()) && q in t.cachedAt && t.cachedAt[q] < now - GROUP_SKIPPED_KEY_TTL_MS)
            || (|z.p.r.skipped| == MAX_GROUP_SKIPPED_KEYS && forall e :: e in z.p.r.skipped ==> e.position > q)
  {
    hide Party.Inv, Sender.KeyAt, Sender.ChainAt, PutRange, Pruned, OpenBody, Verifies, Takeable;
    var h, p := t.run.h, t.run.p;
    PartyFacts(h, p);
    SearchIsExact(p.r.skipped, n);
    DeliveryExact(h, p, n, now);
    FilledIs(h, p, n, now);
    var filled := Filled(p.r, n, now);
    var e :| e in filled && e.position == q;
    LowestGoFirst(filled, now, e);
    if e in p.r.skipped {
      InPositions(p.r.skipped, e);
    }
  }

  /** A step that moves the chain on, where the cache has room: it drops exactly the cached keys that have expired, and
      caches every key it skips. */
  lemma MovingOnDropsExpired(t: Timed, n: nat, now: int, q: nat)
    requires t.Inv() && t.run.p.r.iteration <= n <= t.run.p.r.iteration + MAX_GROUP_SKIP && n < |t.run.h.sent|
    requires |t.Cache()| + (n - t.run.p.r.iteration) <= MAX_GROUP_SKIPPED_KEYS
    ensures var z := t.run.After(Deliver(t.run.h.Message(n), now));
            && (q in Positions(t.Cache()) ==>
                  (q in t.cachedAt && (q in Positions(z.p.r.skipped) <==> now - t.cachedAt[q] <= GROUP_SKIPPED_KEY_TTL_MS)))
            && (t.run.p.r.iteration <= q < n ==> q in Positions(z.p.r.skipped))
  {
    hide Party.Inv, Sender.KeyAt, Sender.ChainAt, PutRange, Pruned, OpenBody, Verifies, Takeable, Positions;
    var h, p := t.run.h, t.run.p;
    PartyFacts(h, p);
    BelowIteration(h, p);
    SearchIsExact(p.r.skipped, n);
    TakeAhead(h, p, n, now);
    DeliveryExact(h, p, n, now);
    FilledIs(h, p, n, now);
    var filled := Filled(p.r, n, now);
    if q in Positions(filled) {
      var e := EntryOf(filled, q);
      PrunedInTime(filled, e, now);
      if q in Positions(p.r.skipped) {
        var f := EntryOf(p.r.skipped, q);
        OnePerPosition(filled, e, f);
      } else if e in p.r.skipped {
        InPositions(p.r.skipped, e);
      }
    }
  }

  lemma EntryOf(skipped: seq<Cached>, q: nat) returns (e: Cached)
    requires q in Positions(skipped)
    ensures e in skipped && e.position == q
  {
    e :| e in skipped && e.position == q;
  }

  /** A cached key is good for its message at any time, expired or not, until such a step comes. */
  lemma CachedIsReadable(t: Timed, n: nat, now: int)
    requires t.Inv() && n in Positions(t.Cache()) && n < |t.run.h.sent|
    ensures AfterDelivery(t.run.p.r, t.run.h.Message(n), now).plain == Some(t.run.h.sent[n])
  {
    hide Party.Inv, Sender.KeyAt, Sender.ChainAt, AfterDelivery;
    TakeCached(t.run.h, t.run.p, n, now);
    DeliveryExact(t.run.h, t.run.p, n, now);
  }

  lemma MovesOn(h: Sender, p: Party, n: nat, now: int)
    requires p.Inv(h) && p.r.iteration <= n <= p.r.iteration + MAX_GROUP_SKIP && n < |h.sent|
    ensures var r := AfterDelivery(p.r, h.Message(n), now); r.plain == Some(h.sent[n]) && r.state.iteration == n + 1
  {
    hide Party.Inv, Sender.KeyAt, Sender.ChainAt, PutRange, Pruned, OpenBody, Verifies, Takeable, Positions;
    PartyFacts(h, p);
    BelowIteration(h, p);
    SearchIsExact(p.r.skipped, n);
    TakeAhead(h, p, n, now);
    DeliveryExact(h, p, n, now);
    MessageOpens(h, n);
  }

  lemma LeadsStep(y: Run, x: Step, rest: seq<Step>, z: Run)
    requires y.Enabled(x) && Leads(y.After(x), rest, z)
    ensures Leads(y, [x] + rest, z)
  {
    hide Run.After, Run.Enabled;
    assert ([x] + rest)[1..] == rest;
  }

  lemma Unforged(h: Sender, n: nat)
    requires n < |h.sent|
    ensures h.Unforged(h.Message(n))
  {
  }

  function Grown(h: Sender, a: Bytes, b: Bytes, c: Bytes): Sender {
    h.(sent := h.sent + [a] + [b] + [c])
  }

  /** A receiver that has just joined, and three messages sent after that. */
  lemma ThreeSent(h: Sender, a: Bytes, b: Bytes, c: Bytes) returns (t: Timed)
    requires |h.sent| + 3 <= TWO32
    ensures t == Timed(Run(Grown(h, a, b, c), Joined(h), []), map[]) && t.Inv()
    ensures t.run.p.r.iteration == |h.sent| && t.Cache() == []
    ensures forall rest, z :: Leads(t.run, rest, z) ==> Leads(Run(h, Joined(h), []), [Send(a)] + ([Send(b)] + ([Send(c)] + rest)), z)
  {
    hide Leads, Party.Inv;
    JoinedInv(h);
    var y0 := Run(h, Joined(h), []);
    var y1 := y0.After(Send(a));
    var y2 := y1.After(Send(b));
    SendKeepsInv(h, Joined(h), a);
    SendKeepsInv(y1.h, Joined(h), b);
    SendKeepsInv(y2.h, Joined(h), c);
    t := Timed(y2.After(Send(c)), map[]);
    forall rest, z | Leads(t.run, rest, z)
      ensures Leads(y0, [Send(a)] + ([Send(b)] + ([Send(c)] + rest)), z)
    {
      LeadsStep(y2, Send(c), rest, z);
      LeadsStep(y1, Send(b), [Send(c)] + rest, z);
      LeadsStep(y0, Send(a), [Send(b)] + ([Send(c)] + rest), z);
    }
  }

  /** Three messages after a distribution; the first comes in last. It is read exactly if the third came in within
      GROUP_SKIPPED_KEY_TTL_MS of the second, however late it is itself. */
  lemma LateGroupMessage(h: Sender, a: Bytes, b: Bytes, c: Bytes, second: int, third: int, last: int) returns (z: Run)
    requires |h.sent| + 3 <= TWO32
    ensures var n := |h.sent|; var all := Grown(h, a, b, c);
            && Leads(Run(h, Joined(h), []),
                     [Send(a)] + ([Send(b)] + ([Send(c)] + ([Deliver(all.Message(n + 1), second)] + ([Deliver(all.Message(n + 2), third)]
                       + ([Deliver(all.Message(n), last)] + []))))), z)
            && z.yielded == [Yield(n + 1, b), Yield(n + 2, c)] + if third - second <= GROUP_SKIPPED_KEY_TTL_MS then [Yield(n, a)] else []
  {
    hide Party.Inv, AfterDelivery, PartyAfter, Positions, Leads, Sender.Unforged, Takeable;
    var n, all := |h.sent|, Grown(h, a, b, c);
    var t := ThreeSent(h, a, b, c);
    var t1 := AfterMessage(t, n + 1, second, n);
    var t2 := AfterMessage(t1, n + 2, third, n);
    z := t2.run.After(Deliver(all.Message(n), last));
    Unforged(all, n);
    if n in Positions(t2.Cache()) {
      CachedIsReadable(t2, n, last);
    } else {
      TakeTooLate(all, t2.run.p, n, last);
      DeliveryExact(all, t2.run.p, n, last);
    }
    var x1, x2, x3 := Deliver(all.Message(n + 1), second), Deliver(all.Message(n + 2), third), Deliver(all.Message(n), last);
    NoSteps(z);
    LeadsStep(t2.run, x3, [], z);
    LeadsStep(t1.run, x2, [x3] + [], z);
    LeadsStep(t.run, x1, [x2] + ([x3] + []), z);
  }

  lemma NoSteps(z: Run)
    ensures Leads(z, [], z)
  {
  }

  /** The next message, or the one after it, comes in; q is a position of interest. */
  lemma AfterMessage(t: Timed, n: nat, now: int, q: nat) returns (z: Timed)
    requires t.Inv() && n < |t.run.h.sent| && t.run.p.r.iteration <= n <= t.run.p.r.iteration + 1 && |t.Cache()| < MAX_GROUP_SKIPPED_KEYS
    ensures t.run.Enabled(Deliver(t.run.h.Message(n), now)) && z == t.After(Deliver(t.run.h.Message(n), now)) && z.Inv()
    ensures z.run.h == t.run.h && z.run.yielded == t.run.yielded + [Yield(n, t.run.h.sent[n])]
    ensures z.run.p.r.iteration == n + 1
    ensures q in Positions(t.Cache()) ==>
              q in t.cachedAt && (q in Positions(z.Cache()) <==> now - t.cachedAt[q] <= GROUP_SKIPPED_KEY_TTL_MS)
    ensures t.run.p.r.iteration <= q < n ==> q in Positions(z.Cache()) && q in z.cachedAt && z.cachedAt[q] == now
    ensures |z.Cache()| <= |t.Cache()| + 1
  {
    hide Party.Inv, AfterDelivery, GroupRatchetRun.Dropped, Positions, Sender.Unforged, Sender.KeyAt, Sender.ChainAt, Sender.Message, Takeable;
    PartyFacts(t.run.h, t.run.p);
    var m := t.run.h.Message(n);
    z := t.After(Deliver(m, now));
    Unforged(t.run.h, n);
    MessageNumber(t.run.h, n);
    TimedStepKeepsInv(t, Deliver(m, now));
    MovesOn(t.run.h, t.run.p, n, now);
    MovingOnDropsExpired(t, n, now, q);
    if q >= t.run.p.r.iteration {
      NotYetCached(t.run.h, t.run.p, q);
    }
    CacheLength(t.run.h, t.run.p, n, now);
  }

  lemma MessageNumber(h: Sender, n: nat)
    requires n < |h.sent| <= TWO32
    ensures h.Message(n).iteration == n
  {
  }

  lemma NotYetCached(h: Sender, p: Party, q: nat)
    requires p.Inv(h) && q >= p.r.iteration
    ensures q !in Positions(p.r.skipped)
  {
  }

  lemma CacheLength(h: Sender, p: Party, n: nat, now: int)
    requires p.Inv(h) && p.r.iteration <= n <= p.r.iteration + 1 && n < |h.sent|
    ensures |AfterDelivery(p.r, h.Message(n), now).state.skipped| <= |p.r.skipped| + 1
  {
    hide Party.Inv, Sender.KeyAt, Sender.ChainAt, PutRange, OpenBody, Verifies, Takeable, Positions;
    PartyFacts(h, p);
    MessageNumber(h, n);
    FilledIs(h, p, n, now);
    UnexpiredCount(Filled(p.r, n, now), now - GROUP_SKIPPED_KEY_TTL_MS);
    SearchIsExact(p.r.skipped, n);
  }
}
