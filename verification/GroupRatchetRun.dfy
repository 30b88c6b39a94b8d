/**
 Runs of the sender-key ratchet: one sender, one receiver, and a network that delivers anything, in any order,
 any number of times. The receiver joined with the distribution of position `from`.
 */
module GroupRatchetRun {
  import opened Bytes
  import opened GroupRatchet

  /** A sender key and the plaintexts sent with it; `sent[n]` went out at position n. */
  datatype Sender = Sender(groupId: string, seed: nat, signer: Signer, sent: seq<Bytes>) {
    function ChainAt(n: nat): ChainKey {
      Steps(Seed(seed), n)
    }

    function KeyAt(n: nat): MessageKey {
      MessageKey(ChainAt(n))
    }

    function Message(n: nat): GroupMessage
      requires n < |sent|
    {
      MessageAt(groupId, signer, ChainAt(n), n, sent[n])
    }

    /** What the sender hands out before it sends at position |sent|. */
    function Distribution(): Receiver {
      Receiver(groupId, ChainAt(|sent|), |sent|, signer, [])
    }

    /** Only the sender signs as the sender. */
    ghost predicate Unforged(m: GroupMessage) {
      m.signature.signer == signer ==> exists n: nat :: n < |sent| && m.signature == Message(n).signature
    }
  }

  /** The sender's object stands where its history ends. */
  ghost predicate StandsAt(k: SenderKey, h: Sender)
    reads k
  {
    k.groupId == h.groupId && k.signer == h.signer && k.chainKey == h.ChainAt(|h.sent|) && k.iteration == |h.sent|
  }

  /** Encrypting sends the next message of the chain; distributing hands out the chain from there on. */
  method SendNext(k: SenderKey, ghost h: Sender, plain: Bytes) returns (m: GroupMessage)
    requires StandsAt(k, h)
    modifies k
    ensures var next := h.(sent := h.sent + [plain]);
            && StandsAt(k, next) && m == next.Message(|h.sent|) && k.Distribution() == next.Distribution()
  {
    m := k.Encrypt(plain);
  }

  function Length(chain: ChainKey): nat {
    match chain
    case Seed(_) => 0
    case Next(before) => 1 + Length(before)
  }

  lemma {:induction false} StepsLength(chain: ChainKey, k: nat)
    ensures Length(Steps(chain, k)) == Length(chain) + k
  {
    if k == 0 {
    } else {
      StepsLength(chain, k - 1);
    }
  }

  lemma {:induction false} StepsAdd(chain: ChainKey, j: nat, k: nat)
    ensures Steps(Steps(chain, j), k) == Steps(chain, j + k)
  {
    if k == 0 {
    } else {
      StepsAdd(chain, j, k - 1);
    }
  }

  lemma KeyInjective(h: Sender, m: nat, n: nat)
    requires h.KeyAt(m) == h.KeyAt(n)
    ensures m == n
  {
    StepsLength(Seed(h.seed), m);
    StepsLength(Seed(h.seed), n);
  }

  // ----- the invariant -----

  function Positions(skipped: seq<Cached>): set<nat> {
    set e | e in skipped :: e.position
  }

  ghost predicate Ascending(skipped: seq<Cached>) {
    forall i, k :: 0 <= i < k < |skipped| ==> skipped[i].position < skipped[k].position
  }

  /** Every cached key is the true key of its position. */
  ghost predicate TrueKeys(h: Sender, skipped: seq<Cached>) {
    forall e :: e in skipped ==> e.messageKey == h.KeyAt(e.position)
  }

  /** The passed positions, from `first` on, are those yielded, those cached and those dropped, each once. */
  ghost predicate Partition(first: nat, iteration: nat, got: set<nat>, cached: set<nat>, dropped: set<nat>) {
    && (forall p: nat :: (p in got || p in cached || p in dropped) <==> first <= p < iteration)
    && got !! cached && got !! dropped && cached !! dropped
  }

  datatype Party = Party(r: Receiver, first: nat, got: set<nat>, dropped: set<nat>) {
    ghost predicate Inv(h: Sender) {
      && r.groupId == h.groupId && r.signer == h.signer
      && first <= r.iteration <= |h.sent| <= TWO32
      && r.chainKey == h.ChainAt(r.iteration)
      && Ascending(r.skipped) && TrueKeys(h, r.skipped) && |r.skipped| <= MAX_GROUP_SKIPPED_KEYS
      && Partition(first, r.iteration, got, Positions(r.skipped), dropped)
    }
  }

  function Joined(h: Sender): Party {
    Party(h.Distribution(), |h.sent|, {}, {})
  }

  lemma JoinedInv(h: Sender)
    requires |h.sent| <= TWO32
    ensures Joined(h).Inv(h)
  {
    assert Positions([]) == {};
  }

  // ----- pruning -----

  lemma {:induction false} UnexpiredIsSubsequence(skipped: seq<Cached>, cutoff: int)
    ensures forall e :: e in Unexpired(skipped, cutoff) <==> e in skipped && e.storedAt >= cutoff
    ensures Ascending(skipped) ==> Ascending(Unexpired(skipped, cutoff))
  {
    if skipped == [] {
    } else {
      var n := |skipped| - 1;
      UnexpiredIsSubsequence(skipped[..n], cutoff);
      assert skipped == skipped[..n] + [skipped[n]];
      var kept := Unexpired(skipped[..n], cutoff);
      if Ascending(skipped) {
        forall i | 0 <= i < |kept|
          ensures kept[i].position < skipped[n].position
        {
          assert kept[i] in skipped[..n];
        }
      }
    }
  }

  lemma PrunedIsSubsequence(skipped: seq<Cached>, now: int)
    ensures |Pruned(skipped, now)| <= MAX_GROUP_SKIPPED_KEYS
    ensures forall e :: e in Pruned(skipped, now) ==> e in skipped
    ensures Ascending(skipped) ==> Ascending(Pruned(skipped, now))
  {
    UnexpiredIsSubsequence(skipped, now - GROUP_SKIPPED_KEY_TTL_MS);
  }

  function Evicted(skipped: seq<Cached>, now: int): set<nat> {
    Positions(skipped) - Positions(Pruned(skipped, now))
  }

  /** What is evicted has expired, or MAX_GROUP_SKIPPED_KEYS unexpired entries have higher positions. */
  lemma LowestGoFirst(skipped: seq<Cached>, now: int, e: Cached)
    requires Ascending(skipped) && e in skipped && e.position in Evicted(skipped, now)
    ensures var kept := Unexpired(skipped, now - GROUP_SKIPPED_KEY_TTL_MS);
            || e.storedAt < now - GROUP_SKIPPED_KEY_TTL_MS
            || (&& |Pruned(skipped, now)| == MAX_GROUP_SKIPPED_KEYS
                && forall x :: x in Pruned(skipped, now) ==> x.position > e.position)
  {
    hide Unexpired;
    var cutoff := now - GROUP_SKIPPED_KEY_TTL_MS;
    var kept := Unexpired(skipped, cutoff);
    UnexpiredIsSubsequence(skipped, cutoff);
    if e.storedAt >= cutoff {
      var i :| 0 <= i < |kept| && kept[i] == e;
      NewestKeeps(kept, i);
    }
  }

  lemma NewestKeeps(kept: seq<Cached>, i: nat)
    requires i < |kept| && kept[i].position !in Positions(Newest(kept)) && Ascending(kept)
    ensures |Newest(kept)| == MAX_GROUP_SKIPPED_KEYS
    ensures forall x :: x in Newest(kept) ==> x.position > kept[i].position
  {
    var d := |kept| - |Newest(kept)|;
    forall k | d <= k < |kept|
      ensures kept[k].position in Positions(Newest(kept))
    {
      assert Newest(kept)[k - d] == kept[k];
    }
  }

  // ----- what taking a key does -----

  lemma PutAppends(skipped: seq<Cached>, e: Cached)
    requires e.position !in Positions(skipped)
    ensures Put(skipped, e) == skipped + [e]
  {
    forall k | 0 <= k < |skipped|
      ensures skipped[k].position != e.position
    {
      assert skipped[k] in skipped;
    }
  }

  /** Skipping caches the true keys of the positions it passes, in order. */
  lemma {:induction false} PutRangeKeys(h: Sender, skipped: seq<Cached>, first: nat, count: nat, now: int)
    requires Ascending(skipped) && TrueKeys(h, skipped) && forall p :: p in Positions(skipped) ==> p < first
    ensures var t := PutRange(skipped, h.ChainAt(first), first, count, now);
            && Ascending(t) && TrueKeys(h, t)
            && forall p: nat :: p in Positions(t) <==> p in Positions(skipped) || first <= p < first + count
  {
    hide Put;
    if count == 0 {
    } else {
      PutRangeKeys(h, skipped, first, count - 1, now);
      var t := PutRange(skipped, h.ChainAt(first), first, count - 1, now);
      var e := Cached(first + count - 1, MessageKey(Steps(h.ChainAt(first), count - 1)), now);
      StepsAdd(Seed(h.seed), first, count - 1);
      PutAppends(t, e);
      AppendKeeps(h, t, e);
    }
  }

  lemma AppendKeeps(h: Sender, t: seq<Cached>, e: Cached)
    requires Ascending(t) && TrueKeys(h, t) && (forall p :: p in Positions(t) ==> p < e.position)
    requires e.messageKey == h.KeyAt(e.position)
    ensures Ascending(t + [e]) && TrueKeys(h, t + [e]) && Positions(t + [e]) == Positions(t) + {e.position}
  {
    forall i | 0 <= i < |t|
      ensures t[i].position < e.position
    {
      assert t[i] in t && t[i].position in Positions(t);
    }
  }

  lemma WithoutKeeps(h: Sender, skipped: seq<Cached>, i: nat)
    requires i < |skipped| && Ascending(skipped) && TrueKeys(h, skipped)
    ensures var t := Without(skipped, i);
            Ascending(t) && TrueKeys(h, t) && Positions(t) == Positions(skipped) - {skipped[i].position}
  {
    hide Sender.KeyAt;
    var t := Without(skipped, i);
    forall k | 0 <= k < |t|
      ensures t[k] == skipped[if k < i then k else k + 1]
    {
    }
    forall e | e in skipped && e.position != skipped[i].position
      ensures e in t
    {
      assert skipped == skipped[..i] + [skipped[i]] + skipped[i + 1..];
    }
  }

  lemma SearchIsExact(skipped: seq<Cached>, n: nat)
    ensures PlaceOf(skipped, n) < |skipped| <==> n in Positions(skipped)
  {
    var i := PlaceOf(skipped, n);
    if i < |skipped| {
      assert skipped[i] in skipped;
    }
  }

  /** Whether the key of a position can still be taken. */
  predicate Takeable(p: Party, n: nat) {
    p.first <= n <= p.r.iteration + MAX_GROUP_SKIP && n !in p.got && n !in p.dropped
  }

  function Dropped(r: Receiver, n: nat, now: int): set<nat> {
    if n in Positions(r.skipped) then {}
    else if n < r.iteration then {}
    else Evicted(PutRange(r.skipped, r.chainKey, r.iteration, n - r.iteration, now), now)
  }

  lemma TakeCached(h: Sender, p: Party, n: nat, now: int)
    requires p.Inv(h) && n in Positions(p.r.skipped)
    ensures var t := AfterTake(p.r, n, now);
            && t.key == Some(h.KeyAt(n)) && Takeable(p, n)
            && Party(t.state, p.first, p.got + {n}, p.dropped).Inv(h)
  {
    hide Sender.KeyAt, Steps;
    SearchIsExact(p.r.skipped, n);
    var i := PlaceOf(p.r.skipped, n);
    assert p.r.skipped[i] in p.r.skipped;
    WithoutKeeps(h, p.r.skipped, i);
  }

  lemma TakeAhead(h: Sender, p: Party, n: nat, now: int)
    requires p.Inv(h) && p.r.iteration <= n <= p.r.iteration + MAX_GROUP_SKIP && n < |h.sent|
    ensures var t := AfterTake(p.r, n, now);
            && t.key == Some(h.KeyAt(n)) && Takeable(p, n)
            && Party(t.state, p.first, p.got + {n}, p.dropped + Dropped(p.r, n, now)).Inv(h)
  {
    hide Pruned, PutRange, Evicted;
    SearchIsExact(p.r.skipped, n);
    var count := n - p.r.iteration;
    StepsAdd(Seed(h.seed), p.r.iteration, count);
    StepsAdd(Seed(h.seed), p.r.iteration, count + 1);
    TakeAheadCache(h, p, n, now);
  }

  lemma TakeAheadCache(h: Sender, p: Party, n: nat, now: int)
    requires p.Inv(h) && p.r.iteration <= n
    ensures var t := PutRange(p.r.skipped, p.r.chainKey, p.r.iteration, n - p.r.iteration, now); var kept := Pruned(t, now);
            && Ascending(kept) && TrueKeys(h, kept) && |kept| <= MAX_GROUP_SKIPPED_KEYS
            && Partition(p.first, n + 1, p.got + {n}, Positions(kept), p.dropped + Evicted(t, now))
  {
    hide Pruned, PutRange, Sender.KeyAt, Sender.ChainAt;
    PutRangeKeys(h, p.r.skipped, p.r.iteration, n - p.r.iteration, now);
    PrunedIsSubsequence(PutRange(p.r.skipped, p.r.chainKey, p.r.iteration, n - p.r.iteration, now), now);
  }

  lemma TakeTooLate(h: Sender, p: Party, n: nat, now: int)
    requires p.Inv(h) && n !in Positions(p.r.skipped) && (n < p.r.iteration || n > p.r.iteration + MAX_GROUP_SKIP)
    ensures AfterTake(p.r, n, now) == Taken(p.r, None) && !Takeable(p, n)
  {
    hide Pruned, PutRange;
    SearchIsExact(p.r.skipped, n);
  }

  // ----- one delivery -----

  lemma MessageOpens(h: Sender, n: nat)
    requires n < |h.sent| <= TWO32
    ensures var m := h.Message(n);
            && m.groupId == h.groupId && m.iteration == n && Verifies(h.signer, m)
            && OpenBody(h.KeyAt(n), m, h.signer) == Some(h.sent[n])
  {
  }

  function PartyAfter(p: Party, n: nat, now: int, r: Receiver): Party {
    Party(r, p.first, p.got + {n}, p.dropped + Dropped(p.r, n, now))
  }

  /** A message of the sender yields its plaintext exactly once, unless its position lies before the
      distribution, its key was evicted, or it is too far ahead; then the stored state stays as it was. */
  lemma DeliveryExact(h: Sender, p: Party, n: nat, now: int)
    requires p.Inv(h) && n < |h.sent|
    ensures var r := AfterDelivery(p.r, h.Message(n), now);
            if Takeable(p, n) then r.plain == Some(h.sent[n]) && PartyAfter(p, n, now, r.state).Inv(h)
            else r == Received(p.r, None)
  {
    hide Party.Inv, AfterTake, OpenBody, Dropped, Sender.KeyAt, Sender.Message, Verifies;
    PartyFacts(h, p);
    MessageOpens(h, n);
    if n in Positions(p.r.skipped) {
      TakeCached(h, p, n, now);
      NothingDropped(p, n, now);
    } else if p.r.iteration <= n <= p.r.iteration + MAX_GROUP_SKIP {
      TakeAhead(h, p, n, now);
    } else {
      TakeTooLate(h, p, n, now);
    }
  }

  lemma PartyFacts(h: Sender, p: Party)
    requires p.Inv(h)
    ensures p.r.groupId == h.groupId && p.r.signer == h.signer && |h.sent| <= TWO32
  {
  }

  lemma NothingDropped(p: Party, n: nat, now: int)
    requires n in Positions(p.r.skipped)
    ensures p.dropped + Dropped(p.r, n, now) == p.dropped
  {
  }

  /** Whatever does not carry the sender's signature is rejected, by whomever it was made and whatever keys
      that member holds; and what does carry it is a message of the sender. */
  lemma OnlySenderWrites(h: Sender, p: Party, m: GroupMessage, now: int)
    requires p.Inv(h) && h.Unforged(m)
    ensures || AfterDelivery(p.r, m, now) == Received(p.r, None)
            || exists n: nat :: n < |h.sent| && m == h.Message(n)
  {
    hide AfterTake;
    if m.groupId == p.r.groupId && Verifies(p.r.signer, m) {
      var n: nat :| n < |h.sent| && m.signature == h.Message(n).signature;
      assert m == h.Message(n);
    }
  }

  /** Whatever arrives, what yields nothing leaves the stored state as it was. */
  lemma FailureChangesNothing(r: Receiver, m: GroupMessage, now: int)
    ensures AfterDelivery(r, m, now).plain.None? ==> AfterDelivery(r, m, now).state == r
  {
    hide AfterDecrypt;
  }

  /** The sender goes on: nothing changes for the receiver. */
  lemma SendKeepsInv(h: Sender, p: Party, plain: Bytes)
    requires p.Inv(h) && |h.sent| < TWO32
    ensures p.Inv(h.(sent := h.sent + [plain]))
  {
  }

  // ----- which keys a receiver's state gives away -----

  ghost predicate OnChain(r: Receiver, key: MessageKey) {
    exists k: nat :: key == MessageKey(Steps(r.chainKey, k))
  }

  ghost predicate InCache(r: Receiver, key: MessageKey) {
    exists e :: e in r.skipped && e.messageKey == key
  }

  /** Stepping the chain and reading the cache yield this key. */
  ghost predicate Derivable(r: Receiver, key: MessageKey) {
    OnChain(r, key) || InCache(r, key)
  }

  /** The state gives away the key of a position exactly if the position is not before the distribution and
      was neither yielded nor dropped. */
  lemma DerivableExactly(h: Sender, p: Party, n: nat)
    requires p.Inv(h)
    ensures Derivable(p.r, h.KeyAt(n)) <==> n >= p.first && n !in p.got && n !in p.dropped
  {
    hide OnChain, InCache;
    FromChain(h, p, n);
    FromCache(h, p, n);
  }

  lemma FromChain(h: Sender, p: Party, n: nat)
    requires p.Inv(h)
    ensures OnChain(p.r, h.KeyAt(n)) <==> n >= p.r.iteration
  {
    if n >= p.r.iteration {
      StepsAdd(Seed(h.seed), p.r.iteration, n - p.r.iteration);
      assert h.KeyAt(n) == MessageKey(Steps(p.r.chainKey, n - p.r.iteration));
    }
    forall k: nat | h.KeyAt(n) == MessageKey(Steps(p.r.chainKey, k))
      ensures n >= p.r.iteration
    {
      StepsAdd(Seed(h.seed), p.r.iteration, k);
      KeyInjective(h, n, p.r.iteration + k);
    }
  }

  lemma FromCache(h: Sender, p: Party, n: nat)
    requires p.Inv(h)
    ensures InCache(p.r, h.KeyAt(n)) <==> n in Positions(p.r.skipped)
  {
    hide Sender.KeyAt;
    forall e | e in p.r.skipped && e.messageKey == h.KeyAt(n)
      ensures e.position == n
    {
      KeyInjective(h, n, e.position);
    }
  }

  // ----- whole runs -----

  datatype Step = Send(plain: Bytes) | Deliver(m: GroupMessage, now: int)

  datatype Yield = Yield(position: nat, plain: Bytes)

  datatype Run = Run(h: Sender, p: Party, yielded: seq<Yield>) {
    ghost predicate Enabled(x: Step) {
      match x
      case Send(_) => |h.sent| < TWO32
      case Deliver(m, _) => h.Unforged(m)
    }

    function After(x: Step): Run {
      match x
      case Send(plain) => this.(h := h.(sent := h.sent + [plain]))
      case Deliver(m, now) =>
        var r := AfterDelivery(p.r, m, now);
        if r.plain.None? then this.(p := p.(r := r.state))
        else Run(h, PartyAfter(p, m.iteration, now, r.state), yielded + [Yield(m.iteration, r.plain.value)])
    }

    ghost predicate Inv() {
      && p.Inv(h)
      && (forall i :: 0 <= i < |yielded| ==> (
            yielded[i].position in p.got && yielded[i].position < |h.sent| && yielded[i].plain == h.sent[yielded[i].position]))
      && (forall i, k :: 0 <= i < k < |yielded| ==> yielded[i].position != yielded[k].position)
    }
  }

  lemma StepKeepsInv(y: Run, x: Step)
    requires y.Inv() && y.Enabled(x)
    ensures y.After(x).Inv()
  {
    hide Party.Inv, AfterDelivery, Dropped, Sender.Message, Sender.Unforged;
    match x {
      case Send(plain) => SendKeepsInv(y.h, y.p, plain);
      case Deliver(m, now) =>
        OnlySenderWrites(y.h, y.p, m, now);
        if AfterDelivery(y.p.r, m, now) != Received(y.p.r, None) {
          var n: nat :| n < |y.h.sent| && m == y.h.Message(n);
          PartyFacts(y.h, y.p);
          MessageOpens(y.h, n);
          DeliveryExact(y.h, y.p, n, now);
        }
    }
  }

  ghost predicate Leads(y: Run, steps: seq<Step>, z: Run)
    decreases |steps|
  {
    if steps == [] then z == y else y.Enabled(steps[0]) && Leads(y.After(steps[0]), steps[1..], z)
  }

  /** In every run each position is yielded at most once, as the sender wrote it, and nothing before the
      distribution is ever yielded or derivable. */
  lemma RunIsSafe(h: Sender, steps: seq<Step>, z: Run)
    requires |h.sent| <= TWO32 && Leads(Run(h, Joined(h), []), steps, z)
    ensures z.Inv() && z.p.first == |h.sent|
    ensures forall n: nat :: n < |h.sent| ==> !Derivable(z.p.r, z.h.KeyAt(n)) && forall i :: 0 <= i < |z.yielded| ==> z.yielded[i].position != n
  {
    hide Party.Inv, Derivable, Leads, Sender.KeyAt;
    JoinedInv(h);
    RunKeepsInv(Run(h, Joined(h), []), steps, z);
    forall n: nat | n < |h.sent|
      ensures !Derivable(z.p.r, z.h.KeyAt(n)) && n !in z.p.got
    {
      DerivableExactly(z.h, z.p, n);
      NotBeforeFirst(z.h, z.p, n);
    }
  }

  lemma NotBeforeFirst(h: Sender, p: Party, n: nat)
    requires p.Inv(h) && n < p.first
    ensures n !in p.got
  {
  }

  lemma {:induction false} RunKeepsInv(y: Run, steps: seq<Step>, z: Run)
    requires y.Inv() && Leads(y, steps, z)
    ensures z.Inv() && z.p.first == y.p.first
    decreases |steps|
  {
    hide Run.Inv, AfterDelivery, Dropped;
    if steps == [] {
    } else {
      StepKeepsInv(y, steps[0]);
      RunKeepsInv(y.After(steps[0]), steps[1..], z);
    }
  }
}
