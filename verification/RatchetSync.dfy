/**
 How the two ends of one session stay in step.

 Number the ratchet key pairs in the order in which they are generated: 0 is the responder's prekey,
 1 the initiator's first pair, and so on in turn. Pair j begins chain j. All keys of the session are
 functions of this list, and a party is described by the index of its own newest pair.
 */
module RatchetSync {
  import opened Bytes
  import opened Ratchet

  /** The secret that the handshake agreed on, and the key pairs. */
  datatype Pairs = Pairs(shared: SharedSecret, keys: seq<Secret>) {
    function Plus(newKey: Secret): Pairs {
      Pairs(shared, keys + [newKey])
    }

    predicate Before(more: Pairs) {
      shared == more.shared && keys <= more.keys
    }
  }

  function RootAt(g: Pairs, j: nat): Key
    requires j < |g.keys|
  {
    if j == 0 then FirstRoot(g.shared) else RootKey(RootAt(g, j - 1), Dh(g.keys[j - 1], g.keys[j]))
  }

  /** The key of chain j before its n-th message. */
  function ChainAt(g: Pairs, j: nat, n: nat): Key
    requires 1 <= j < |g.keys|
    decreases n
  {
    if n == 0 then FirstChainKey(RootAt(g, j - 1), Dh(g.keys[j - 1], g.keys[j])) else NextChainKey(ChainAt(g, j, n - 1))
  }

  /** The header key of chain j: fixed two pairs ahead, so that both sides know it before the chain begins. */
  function HeaderAt(g: Pairs, j: nat): Key
    requires 1 <= j && j - 2 < |g.keys|
  {
    if j == 1 then InitiatorHeader(g.shared)
    else if j == 2 then ResponderHeader(g.shared)
    else NextHeaderKey(RootAt(g, j - 3), Dh(g.keys[j - 3], g.keys[j - 2]))
  }

  function Depth(k: Key): nat {
    match k
    case RootKey(root, _) => 1 + Depth(root)
    case FirstChainKey(root, _) => 1 + Depth(root)
    case NextHeaderKey(root, _) => 1 + Depth(root)
    case NextChainKey(chain) => 1 + Depth(chain)
    case _ => 0
  }

  lemma {:induction false} RootDepth(g: Pairs, j: nat)
    requires j < |g.keys|
    ensures Depth(RootAt(g, j)) == j
  {
    if j == 0 {
    } else {
      RootDepth(g, j - 1);
    }
  }

  /** No two chains share a header key. */
  lemma HeaderInjective(g: Pairs, i: nat, j: nat)
    requires 1 <= i && i - 2 < |g.keys| && 1 <= j && j - 2 < |g.keys|
    ensures HeaderAt(g, i) == HeaderAt(g, j) ==> i == j
  {
    hide RootAt;
    if i >= 3 && j >= 3 {
      RootDepth(g, i - 3);
      RootDepth(g, j - 3);
    }
  }

  lemma {:induction false} ChainDepth(g: Pairs, j: nat, n: nat)
    requires 1 <= j < |g.keys|
    ensures Depth(ChainAt(g, j, n)) == j + n
  {
    if n == 0 {
      RootDepth(g, j - 1);
    } else {
      ChainDepth(g, j, n - 1);
    }
  }

  lemma ChainInjective(g: Pairs, j: nat, m: nat, n: nat)
    requires 1 <= j < |g.keys| && ChainAt(g, j, m) == ChainAt(g, j, n)
    ensures m == n
  {
    ChainDepth(g, j, m);
    ChainDepth(g, j, n);
  }

  lemma {:induction false} RootExtends(g: Pairs, more: Pairs, j: nat)
    requires j < |g.keys| && g.Before(more)
    ensures RootAt(more, j) == RootAt(g, j)
  {
    if j == 0 {
    } else {
      RootExtends(g, more, j - 1);
    }
  }

  lemma HeaderExtends(g: Pairs, more: Pairs, j: nat)
    requires 1 <= j && j - 2 < |g.keys| && g.Before(more)
    ensures HeaderAt(more, j) == HeaderAt(g, j)
  {
    if j >= 3 {
      RootExtends(g, more, j - 3);
    }
  }

  lemma {:induction false} ChainExtends(g: Pairs, more: Pairs, j: nat, n: nat)
    requires 1 <= j < |g.keys| && g.Before(more)
    ensures ChainAt(more, j, n) == ChainAt(g, j, n)
    decreases n
  {
    if n == 0 {
      RootExtends(g, more, j - 1);
    } else {
      ChainExtends(g, more, j, n - 1);
    }
  }

  // ----- what has happened on a session -----

  /** All messages sent so far, by chain. */
  datatype History = History(g: Pairs, sent: seq<seq<Message>>, associatedData: Bytes) {
    function Previous(j: nat): nat
      requires j < |sent|
    {
      if j >= 2 then |sent[j - 2]| else 0
    }

    /** Message n of chain j is the one that the owner of pair j produces there. */
    ghost predicate Genuine(j: nat, n: nat)
      requires |sent| == |g.keys| && 1 <= j < |g.keys| && n < |sent[j]|
    {
      var m := sent[j][n];
      && m.header.key == HeaderAt(g, j)
      && m.header.plain == Header(g.keys[j], Previous(j), n)
      && m.body.key == MessageKey(ChainAt(g, j, n))
      && m.body.associatedData == associatedData && m.body.header == m.header
    }

    ghost predicate Valid() {
      && |sent| == |g.keys| >= 1 && sent[0] == []
      && (forall j :: 0 <= j < |sent| ==> |sent[j]| < TWO32)
      && (forall j, n :: 1 <= j < |g.keys| && 0 <= n < |sent[j]| ==> Genuine(j, n))
    }
  }

  /** The peer's chains that a party at index s has begun to receive. */
  predicate PeerChain(s: nat, j: nat) {
    1 <= j < s && (s - j) % 2 == 1
  }

  /** How far the party has moved on in one of them. */
  function Reach(h: History, s: nat, received: nat, j: nat): nat
    requires j < |h.sent|
  {
    if j + 1 == s then received else |h.sent[j]|
  }

  type Position = (nat, nat)
  type Id = (Key, nat)

  /** The id names a position of chain j that the party has passed. */
  ghost predicate PassedAt(h: History, s: nat, received: nat, id: Id, j: nat)
    requires |h.sent| == |h.g.keys|
  {
    PeerChain(s, j) && j < |h.g.keys| && id.0 == HeaderAt(h.g, j) && id.1 < Reach(h, s, received, j)
  }

  function IdOf(e: Skipped): Id {
    (e.headerKey, e.number)
  }

  function Ids(skipped: seq<Skipped>): set<Id> {
    set e | e in skipped :: IdOf(e)
  }

  /** The cache entry holds the key of its position in chain j. */
  ghost predicate EntryAt(h: History, s: nat, received: nat, e: Skipped, j: nat)
    requires |h.sent| == |h.g.keys|
  {
    PassedAt(h, s, received, IdOf(e), j) && e.messageKey == MessageKey(ChainAt(h.g, j, e.number))
  }

  /** A dropped id was passed, was not delivered, and is not cached any more. */
  ghost predicate DroppedInv(h: History, s: nat, received: nat, skipped: seq<Skipped>, got: set<Position>, dropped: set<Id>)
    requires |h.sent| == |h.g.keys|
  {
    && dropped !! Ids(skipped)
    && forall id :: id in dropped ==> exists j: nat :: PassedAt(h, s, received, id, j) && (j, id.1) !in got
  }

  ghost predicate Distinct(skipped: seq<Skipped>) {
    forall i, k :: 0 <= i < k < |skipped| ==> IdOf(skipped[i]) != IdOf(skipped[k])
  }

  /** Every cached key is the true key of a position that was passed and not yet delivered; every
      position passed was delivered, is cached, or was dropped by pruning. */
  ghost predicate CacheInv(h: History, s: nat, received: nat, skipped: seq<Skipped>, got: set<Position>, dropped: set<Id>)
    requires |h.sent| == |h.g.keys|
  {
    && Distinct(skipped)
    && (forall e :: e in skipped ==> exists j: nat :: EntryAt(h, s, received, e, j) && (j, e.number) !in got)
    && (forall p :: p in got ==> PeerChain(s, p.0) && p.0 < |h.g.keys| && p.1 < Reach(h, s, received, p.0))
    && (forall j: nat, n: nat :: PeerChain(s, j) && j < |h.g.keys| && n < Reach(h, s, received, j)
          ==> (j, n) in got || (HeaderAt(h.g, j), n) in Ids(skipped) || (HeaderAt(h.g, j), n) in dropped)
    && DroppedInv(h, s, received, skipped, got, dropped)
  }

  /** Dropped ids stay dropped when the party moves on, or its history grows. */
  lemma DroppedMoves(h: History, s: nat, received: nat, skipped: seq<Skipped>, got: set<Position>, dropped: set<Id>,
                     h': History, s': nat, received': nat, skipped': seq<Skipped>, got': set<Position>)
    requires |h.sent| == |h.g.keys| && |h'.sent| == |h'.g.keys| && DroppedInv(h, s, received, skipped, got, dropped)
    requires dropped !! Ids(skipped')
    requires forall id, j: nat :: id in dropped && PassedAt(h, s, received, id, j) ==> PassedAt(h', s', received', id, j)
    requires forall id, j: nat :: id in dropped && PassedAt(h, s, received, id, j) && (j, id.1) !in got ==> (j, id.1) !in got'
    ensures DroppedInv(h', s', received', skipped', got', dropped)
  {
    hide PassedAt;
    forall id | id in dropped
      ensures exists j: nat :: PassedAt(h', s', received', id, j) && (j, id.1) !in got'
    {
      var j: nat :| PassedAt(h, s, received, id, j) && (j, id.1) !in got;
      assert PassedAt(h', s', received', id, j);
    }
  }

  /** The keys a party at index s holds. */
  ghost predicate KeysInv(g: Pairs, s: nat, st: State) {
    && s < |g.keys|
    && st.sending == g.keys[s] && st.rootKey == RootAt(g, s)
    && st.receiving == (if s >= 1 then Some(g.keys[s - 1]) else None)
    && st.nextHeaderKeySending == HeaderAt(g, s + 2) && st.nextHeaderKeyReceiving == HeaderAt(g, s + 1)
    && st.headerKeySending == (if s >= 1 then Some(HeaderAt(g, s)) else None)
    && st.sendingChain == (if s >= 1 then Some(ChainAt(g, s, st.sentCount)) else None)
    && st.headerKeyReceiving == (if s >= 2 then Some(HeaderAt(g, s - 1)) else None)
    && st.receivingChain == (if s >= 2 then Some(ChainAt(g, s - 1, st.receivedCount)) else None)
  }

  ghost predicate CountsInv(h: History, s: nat, st: State)
    requires s < |h.sent|
  {
    && st.sentCount == |h.sent[s]| && st.previousChainLength == h.Previous(s)
    && st.receivedCount <= (if s >= 2 then |h.sent[s - 1]| else 0)
  }

  datatype Party = Party(s: nat, st: State, got: set<Position>, dropped: set<Id>) {
    /** The invariant of one party: the header keys ping-pong, one pair behind or ahead of the peer. */
    ghost predicate Inv(h: History) {
      && h.Valid() && s + 1 <= |h.sent| == |h.g.keys| <= s + 2
      && KeysInv(h.g, s, st) && CountsInv(h, s, st)
      && CacheInv(h, s, st.receivedCount, st.skipped, got, dropped)
    }
  }

  // ----- pruning -----

  function PrunedAway(skipped: seq<Skipped>, now: int): set<Id> {
    Ids(skipped) - Ids(Pruned(skipped, now))
  }

  lemma {:induction false} FreshIsSubsequence(skipped: seq<Skipped>, cutoff: int)
    ensures forall e :: e in Fresh(skipped, cutoff) <==> e in skipped && e.storedAt >= cutoff
    ensures Distinct(skipped) ==> Distinct(Fresh(skipped, cutoff))
  {
    if skipped == [] {
    } else {
      var n := |skipped| - 1;
      FreshIsSubsequence(skipped[..n], cutoff);
      assert skipped == skipped[..n] + [skipped[n]];
      var kept := Fresh(skipped[..n], cutoff);
      if Distinct(skipped) {
        forall i | 0 <= i < |kept|
          ensures IdOf(kept[i]) != IdOf(skipped[n])
        {
          assert kept[i] in skipped[..n];
        }
      }
    }
  }

  /** Pruning keeps a duplicate-free part of the cache, at most MAX_SKIPPED_KEYS of it. */
  lemma PrunedIsSubsequence(skipped: seq<Skipped>, now: int)
    ensures |Pruned(skipped, now)| <= MAX_SKIPPED_KEYS
    ensures forall e :: e in Pruned(skipped, now) ==> e in skipped && e.storedAt >= now - SKIPPED_KEY_TTL_MS
    ensures Distinct(skipped) ==> Distinct(Pruned(skipped, now))
  {
    FreshIsSubsequence(skipped, now - SKIPPED_KEY_TTL_MS);
  }

  /** What pruning drops has expired, or at least MAX_SKIPPED_KEYS unexpired entries were inserted after it. */
  lemma DroppedMeansExpiredOrOldest(skipped: seq<Skipped>, now: int, i: nat)
    requires i < |skipped| && IdOf(skipped[i]) in PrunedAway(skipped, now)
    ensures || skipped[i].storedAt < now - SKIPPED_KEY_TTL_MS
            || |Fresh(skipped[i + 1..], now - SKIPPED_KEY_TTL_MS)| >= MAX_SKIPPED_KEYS
  {
    hide Fresh;
    var cutoff := now - SKIPPED_KEY_TTL_MS;
    if skipped[i].storedAt >= cutoff {
      var before, after := Fresh(skipped[..i], cutoff), Fresh(skipped[i + 1..], cutoff);
      var kept := Fresh(skipped, cutoff);
      FreshAround(skipped, i, cutoff);
      if |kept| - |before| <= MAX_SKIPPED_KEYS {
        NewestKeeps(kept, |before|);
      }
    }
  }

  lemma NewestKeeps(kept: seq<Skipped>, i: nat)
    requires i < |kept| && |kept| - i <= MAX_SKIPPED_KEYS
    ensures IdOf(kept[i]) in Ids(Newest(kept))
  {
    var d := |kept| - |Newest(kept)|;
    assert Newest(kept)[i - d] == kept[i];
  }

  lemma FreshAround(skipped: seq<Skipped>, i: nat, cutoff: int)
    requires i < |skipped| && skipped[i].storedAt >= cutoff
    ensures Fresh(skipped, cutoff) == Fresh(skipped[..i], cutoff) + [skipped[i]] + Fresh(skipped[i + 1..], cutoff)
  {
    var one := skipped[i..i + 1];
    assert skipped[..i + 1] == skipped[..i] + one && skipped == skipped[..i + 1] + skipped[i + 1..];
    FreshConcat(skipped[..i], one, cutoff);
    FreshConcat(skipped[..i + 1], skipped[i + 1..], cutoff);
    assert one[..0] == [] && one[0] == skipped[i];
  }

  lemma {:induction false} FreshConcat(a: seq<Skipped>, b: seq<Skipped>, cutoff: int)
    ensures Fresh(a + b, cutoff) == Fresh(a, cutoff) + Fresh(b, cutoff)
    decreases |b|
  {
    if b == [] {
      assert a + b == a;
    } else {
      var n := |b| - 1;
      assert (a + b)[..|a| + n] == a + b[..n];
      FreshConcat(a, b[..n], cutoff);
    }
  }

  lemma PruneKeepsDropped(h: History, s: nat, received: nat, skipped: seq<Skipped>, got: set<Position>, dropped: set<Id>, now: int)
    requires |h.sent| == |h.g.keys| && CacheInv(h, s, received, skipped, got, dropped)
    ensures DroppedInv(h, s, received, Pruned(skipped, now), got, dropped + PrunedAway(skipped, now))
  {
    hide PassedAt, Pruned, Distinct, ChainAt;
    PrunedIsSubsequence(skipped, now);
    forall id | id in PrunedAway(skipped, now)
      ensures exists j: nat :: PassedAt(h, s, received, id, j) && (j, id.1) !in got
    {
      var e :| e in skipped && IdOf(e) == id;
      var j: nat :| EntryAt(h, s, received, e, j) && (j, e.number) !in got;
    }
  }

  lemma PruneKeepsCache(h: History, s: nat, received: nat, skipped: seq<Skipped>, got: set<Position>, dropped: set<Id>, now: int)
    requires |h.sent| == |h.g.keys| && CacheInv(h, s, received, skipped, got, dropped)
    ensures CacheInv(h, s, received, Pruned(skipped, now), got, dropped + PrunedAway(skipped, now))
  {
    hide EntryAt, Pruned, HeaderAt, PeerChain, Reach, DroppedInv;
    PrunedIsSubsequence(skipped, now);
    PruneKeepsDropped(h, s, received, skipped, got, dropped, now);
  }

  // ----- skipping -----

  lemma {:induction false} PutNewIsAppend(skipped: seq<Skipped>, e: Skipped)
    requires IdOf(e) !in Ids(skipped)
    ensures Put(skipped, e) == skipped + [e]
    decreases |skipped|
  {
    if skipped == [] {
    } else {
      assert skipped[0] in skipped;
      forall x | x in skipped[1..]
        ensures x in skipped && IdOf(x) != IdOf(e)
      {
        assert IdOf(x) in Ids(skipped);
      }
      PutNewIsAppend(skipped[1..], e);
    }
  }

  lemma IdsOfAppend(skipped: seq<Skipped>, e: Skipped)
    ensures Ids(skipped + [e]) == Ids(skipped) + {IdOf(e)}
  {
  }

  /** A key at or beyond the receiving position is not in the cache. */
  lemma NotCachedYet(h: History, s: nat, received: nat, skipped: seq<Skipped>, got: set<Position>, dropped: set<Id>, n: nat)
    requires |h.sent| == |h.g.keys| && 2 <= s < |h.g.keys| && CacheInv(h, s, received, skipped, got, dropped) && received <= n
    ensures (HeaderAt(h.g, s - 1), n) !in Ids(skipped)
  {
    hide History.Valid, HeaderAt, ChainAt, DroppedInv;
    forall e | e in skipped
      ensures IdOf(e) != (HeaderAt(h.g, s - 1), n)
    {
      var j: nat :| EntryAt(h, s, received, e, j) && (j, e.number) !in got;
      HeaderInjective(h.g, j, s - 1);
    }
  }

  lemma NotGotYet(h: History, s: nat, received: nat, skipped: seq<Skipped>, got: set<Position>, dropped: set<Id>, n: nat)
    requires |h.sent| == |h.g.keys| && 2 <= s < |h.g.keys| && CacheInv(h, s, received, skipped, got, dropped) && received <= n
    ensures (s - 1, n) !in got
  {
    hide EntryAt, DroppedInv;
  }

  lemma NotDroppedYet(h: History, s: nat, received: nat, skipped: seq<Skipped>, got: set<Position>, dropped: set<Id>, n: nat)
    requires |h.sent| == |h.g.keys| && 2 <= s < |h.g.keys| && DroppedInv(h, s, received, skipped, got, dropped) && received <= n
    ensures (HeaderAt(h.g, s - 1), n) !in dropped
  {
    hide HeaderAt;
    var id := (HeaderAt(h.g, s - 1), n);
    if id in dropped {
      var j: nat :| PassedAt(h, s, received, id, j);
      HeaderInjective(h.g, j, s - 1);
    }
  }

  lemma GrowKeepsDropped(h: History, s: nat, received: nat, skipped: seq<Skipped>, got: set<Position>, dropped: set<Id>, e: Skipped)
    requires |h.sent| == |h.g.keys| && DroppedInv(h, s, received, skipped, got, dropped) && IdOf(e) !in dropped
    ensures DroppedInv(h, s, received + 1, skipped + [e], got, dropped)
  {
    IdsOfAppend(skipped, e);
    DroppedMoves(h, s, received, skipped, got, dropped, h, s, received + 1, skipped + [e], got);
  }

  lemma CacheGrows(h: History, s: nat, received: nat, skipped: seq<Skipped>, got: set<Position>, dropped: set<Id>, e: Skipped)
    requires |h.sent| == |h.g.keys| && 2 <= s < |h.g.keys| && CacheInv(h, s, received, skipped, got, dropped)
    requires e.headerKey == HeaderAt(h.g, s - 1) && e.number == received && e.messageKey == MessageKey(ChainAt(h.g, s - 1, received))
    ensures CacheInv(h, s, received + 1, skipped + [e], got, dropped)
  {
    hide HeaderAt, ChainAt, DroppedInv, Ids;
    NotCachedYet(h, s, received, skipped, got, dropped, received);
    NotDroppedYet(h, s, received, skipped, got, dropped, received);
    IdsOfAppend(skipped, e);
    GrowKeepsDropped(h, s, received, skipped, got, dropped, e);
    assert EntryAt(h, s, received + 1, e, s - 1) && (s - 1, e.number) !in got;
    forall x | x in skipped
      ensures exists j: nat :: EntryAt(h, s, received + 1, x, j) && (j, x.number) !in got
    {
      var j: nat :| EntryAt(h, s, received, x, j) && (j, x.number) !in got;
      assert EntryAt(h, s, received + 1, x, j);
    }
    forall x | x in skipped
      ensures IdOf(x) != IdOf(e)
    {
      IdIn(skipped, x);
    }
  }

  lemma IdIn(skipped: seq<Skipped>, e: Skipped)
    requires e in skipped
    ensures IdOf(e) in Ids(skipped)
  {
  }

  lemma SkipOneKeeps(h: History, p: Party, now: int)
    requires p.Inv(h) && 2 <= p.s && p.st.receivedCount < |h.sent[p.s - 1]|
    ensures Party(p.s, SkipOne(p.st, now), p.got, p.dropped).Inv(h)
  {
    hide History.Valid, HeaderAt, CacheInv, Put, Ids;
    var st, n := p.st, p.st.receivedCount;
    var e := Skipped(HeaderAt(h.g, p.s - 1), n, MessageKey(ChainAt(h.g, p.s - 1, n)), now);
    NotCachedYet(h, p.s, n, st.skipped, p.got, p.dropped, n);
    PutNewIsAppend(st.skipped, e);
    CacheGrows(h, p.s, n, st.skipped, p.got, p.dropped, e);
  }

  /** Skipping moves the receiving chain to the wanted position and changes nothing else but the cache. */
  lemma {:induction false} SkipToKeeps(h: History, p: Party, until: nat, now: int)
    requires p.Inv(h) && 2 <= p.s && until <= |h.sent[p.s - 1]|
    ensures var t := SkipTo(p.st, until, now);
            && Party(p.s, t, p.got, p.dropped).Inv(h)
            && t == p.st.(receivingChain := t.receivingChain, receivedCount := t.receivedCount, skipped := t.skipped)
            && t.receivedCount == if p.st.receivedCount < until then until else p.st.receivedCount
    decreases until - p.st.receivedCount
  {
    hide History.Valid, CacheInv, Put, HeaderAt, ChainAt;
    if p.st.receivedCount < until {
      SkipOneKeeps(h, p, now);
      SkipToKeeps(h, Party(p.s, SkipOne(p.st, now), p.got, p.dropped), until, now);
    }
  }

  lemma PruneKeeps(h: History, p: Party, now: int)
    requires p.Inv(h)
    ensures Party(p.s, p.st.(skipped := Pruned(p.st.skipped, now)), p.got,
                  p.dropped + PrunedAway(p.st.skipped, now)).Inv(h)
  {
    hide History.Valid, CacheInv, Pruned, PrunedAway, HeaderAt, ChainAt;
    PruneKeepsCache(h, p.s, p.st.receivedCount, p.st.skipped, p.got, p.dropped, now);
  }

  /** The ids that skipMessageKeys evicts. */
  function SkipDrops(s: State, until: nat, now: int): set<Id> {
    if SkipsTooFar(s, until) || s.receivingChain.None? || s.headerKeyReceiving.None? then {}
    else PrunedAway(SkipTo(s, until, now).skipped, now)
  }

  lemma AfterSkipKeeps(h: History, p: Party, until: nat, now: int)
    requires p.Inv(h) && !SkipsTooFar(p.st, until) && until <= (if p.s >= 2 then |h.sent[p.s - 1]| else 0)
    ensures var t := AfterSkip(p.st, until, now);
            && Party(p.s, t, p.got, p.dropped + SkipDrops(p.st, until, now)).Inv(h)
            && t == p.st.(receivingChain := t.receivingChain, receivedCount := t.receivedCount, skipped := t.skipped)
            && t.receivedCount == if p.st.receivedCount < until then until else p.st.receivedCount
  {
    hide History.Valid, CacheInv, SkipTo, Pruned, PrunedAway, HeaderAt, ChainAt;
    if p.s >= 2 {
      SkipToKeeps(h, p, until, now);
      PruneKeeps(h, Party(p.s, SkipTo(p.st, until, now), p.got, p.dropped), now);
    } else {
      assert p.dropped + {} == p.dropped;
    }
  }

  // ----- taking the key of the current position, and of a cached one -----

  lemma DeliveryKeepsDropped(h: History, s: nat, received: nat, skipped: seq<Skipped>, got: set<Position>, dropped: set<Id>)
    requires |h.sent| == |h.g.keys| && 2 <= s < |h.g.keys| && DroppedInv(h, s, received, skipped, got, dropped)
    ensures DroppedInv(h, s, received + 1, skipped, got + {(s - 1, received)}, dropped)
  {
    hide HeaderAt, Ids;
    DroppedMoves(h, s, received, skipped, got, dropped, h, s, received + 1, skipped, got + {(s - 1, received)});
  }

  lemma CacheDelivers(h: History, s: nat, received: nat, skipped: seq<Skipped>, got: set<Position>, dropped: set<Id>)
    requires |h.sent| == |h.g.keys| && 2 <= s < |h.g.keys| && CacheInv(h, s, received, skipped, got, dropped)
    ensures CacheInv(h, s, received + 1, skipped, got + {(s - 1, received)}, dropped)
  {
    hide HeaderAt, ChainAt, Distinct, DroppedInv;
    DeliveryKeepsDropped(h, s, received, skipped, got, dropped);
    forall x | x in skipped
      ensures exists j: nat :: EntryAt(h, s, received + 1, x, j) && (j, x.number) !in got + {(s - 1, received)}
    {
      var j: nat :| EntryAt(h, s, received, x, j) && (j, x.number) !in got;
      assert EntryAt(h, s, received + 1, x, j) && (j, x.number) !in got + {(s - 1, received)};
    }
  }

  lemma IdsWithout(skipped: seq<Skipped>, i: nat)
    requires i < |skipped| && Distinct(skipped)
    ensures Distinct(Without(skipped, i)) && Ids(Without(skipped, i)) == Ids(skipped) - {IdOf(skipped[i])}
    ensures forall x :: x in Without(skipped, i) ==> x in skipped && IdOf(x) != IdOf(skipped[i])
  {
    var rest := Without(skipped, i);
    forall k | 0 <= k < |rest|
      ensures rest[k] == skipped[if k < i then k else k + 1]
    {
    }
    forall x | x in skipped && IdOf(x) != IdOf(skipped[i])
      ensures IdOf(x) in Ids(rest)
    {
      assert skipped == skipped[..i] + [skipped[i]] + skipped[i + 1..];
      assert x in rest;
    }
  }

  lemma HitKeepsDropped(h: History, s: nat, received: nat, skipped: seq<Skipped>, got: set<Position>, dropped: set<Id>, i: nat, j: nat)
    requires |h.sent| == |h.g.keys| && s < |h.g.keys| && CacheInv(h, s, received, skipped, got, dropped)
    requires i < |skipped| && EntryAt(h, s, received, skipped[i], j)
    ensures DroppedInv(h, s, received, Without(skipped, i), got + {(j, skipped[i].number)}, dropped)
  {
    hide ChainAt, HeaderAt, Distinct, Without;
    IdsWithout(skipped, i);
    assert IdOf(skipped[i]) in Ids(skipped);
    forall id, k: nat | id in dropped && PassedAt(h, s, received, id, k) && (k, id.1) !in got
      ensures (k, id.1) != (j, skipped[i].number)
    {
      assert id != IdOf(skipped[i]);
    }
    DroppedMoves(h, s, received, skipped, got, dropped, h, s, received, Without(skipped, i), got + {(j, skipped[i].number)});
  }

  lemma CacheHit(h: History, s: nat, received: nat, skipped: seq<Skipped>, got: set<Position>, dropped: set<Id>, i: nat, j: nat)
    requires |h.sent| == |h.g.keys| && s < |h.g.keys| && CacheInv(h, s, received, skipped, got, dropped)
    requires i < |skipped| && EntryAt(h, s, received, skipped[i], j)
    ensures CacheInv(h, s, received, Without(skipped, i), got + {(j, skipped[i].number)}, dropped)
  {
    hide ChainAt, HeaderAt, Ids, Distinct, Without, DroppedInv;
    IdsWithout(skipped, i);
    HitKeepsDropped(h, s, received, skipped, got, dropped, i, j);
    var at := (j, skipped[i].number);
    forall x | x in Without(skipped, i)
      ensures exists k: nat :: EntryAt(h, s, received, x, k) && (k, x.number) !in got + {at}
    {
      var k: nat :| EntryAt(h, s, received, x, k) && (k, x.number) !in got;
      assert (k, x.number) != at;
    }
    forall k: nat, n: nat | PeerChain(s, k) && k < |h.g.keys| && n < Reach(h, s, received, k)
      ensures || (k, n) in got + {at} || (HeaderAt(h.g, k), n) in Ids(Without(skipped, i))
              || (HeaderAt(h.g, k), n) in dropped
    {
      HeaderInjective(h.g, k, j);
    }
  }

  // ----- the DH ratchet step -----

  lemma DhCommutes(a: Secret, b: Secret)
    ensures Dh(a, b) == Dh(b, a)
  {
  }

  function Grown(h: History, newKey: Secret): History {
    h.(g := h.g.Plus(newKey), sent := h.sent + [[]])
  }

  lemma RatchetKeys(g: Pairs, s: nat, st: State, header: Header, newKey: Secret)
    requires KeysInv(g, s, st) && |g.keys| == s + 2 && header.ratchetKey == g.keys[s + 1]
    ensures KeysInv(g.Plus(newKey), s + 2, AfterDhRatchet(st, header, newKey))
  {
    hide RootAt, ChainAt, HeaderAt, Dh;
    KeysExtend(g, s, newKey);
    RatchetRoots(g.Plus(newKey), s, st.rootKey);
  }

  lemma KeysExtend(g: Pairs, s: nat, newKey: Secret)
    requires |g.keys| == s + 2
    ensures var more := g.Plus(newKey);
            && more.keys[s] == g.keys[s] && more.keys[s + 1] == g.keys[s + 1] && more.keys[s + 2] == newKey
            && RootAt(more, s) == RootAt(g, s)
            && HeaderAt(more, s + 1) == HeaderAt(g, s + 1) && HeaderAt(more, s + 2) == HeaderAt(g, s + 2)
  {
    hide RootAt, HeaderAt;
    var more := g.Plus(newKey);
    RootExtends(g, more, s);
    HeaderExtends(g, more, s + 1);
    HeaderExtends(g, more, s + 2);
  }

  lemma RatchetRoots(g: Pairs, s: nat, root: Key)
    requires |g.keys| == s + 3 && root == RootAt(g, s)
    ensures var dh := Dh(g.keys[s], g.keys[s + 1]);
            && RootAt(g, s + 1) == RootKey(root, dh) && ChainAt(g, s + 1, 0) == FirstChainKey(root, dh)
            && HeaderAt(g, s + 3) == NextHeaderKey(root, dh)
    ensures var next, dh := RootAt(g, s + 1), Dh(g.keys[s + 2], g.keys[s + 1]);
            && RootAt(g, s + 2) == RootKey(next, dh) && ChainAt(g, s + 2, 0) == FirstChainKey(next, dh)
            && HeaderAt(g, s + 4) == NextHeaderKey(next, dh)
  {
    DhCommutes(g.keys[s + 2], g.keys[s + 1]);
  }
}
