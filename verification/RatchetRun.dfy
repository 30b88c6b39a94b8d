/**
 Runs of the Double Ratchet between two parties: messages may arrive in any order, late, twice or never,
 and each delivery is saved only if it succeeds.
 */
module RatchetRun {
  import opened Bytes
  import opened Ratchet
  import opened RatchetSync

  // ----- growth of the history -----

  lemma GrownValid(h: History, newKey: Secret)
    requires h.Valid()
    ensures Grown(h, newKey).Valid()
  {
    hide HeaderAt, ChainAt;
    var more := Grown(h, newKey);
    forall j, n | 1 <= j < |more.g.keys| && 0 <= n < |more.sent[j]|
      ensures more.Genuine(j, n)
    {
      assert h.Genuine(j, n);
      HeaderExtends(h.g, more.g, j);
      ChainExtends(h.g, more.g, j, n);
    }
  }

  lemma EntryInGrown(h: History, newKey: Secret, s: nat, received: nat, e: Skipped, j: nat)
    requires |h.sent| == |h.g.keys| && s < |h.g.keys| && EntryAt(h, s, received, e, j)
    ensures EntryAt(Grown(h, newKey), s, received, e, j)
  {
    HeaderExtends(h.g, Grown(h, newKey).g, j);
    ChainExtends(h.g, Grown(h, newKey).g, j, e.number);
  }

  lemma GrownKeepsDropped(h: History, newKey: Secret, s: nat, received: nat, skipped: seq<Skipped>, got: set<Position>, dropped: set<Id>)
    requires |h.sent| == |h.g.keys| && s < |h.g.keys| && DroppedInv(h, s, received, skipped, got, dropped)
    ensures DroppedInv(Grown(h, newKey), s, received, skipped, got, dropped)
  {
    hide HeaderAt, Ids;
    var more := Grown(h, newKey);
    forall id, j: nat | id in dropped && PassedAt(h, s, received, id, j)
      ensures PassedAt(more, s, received, id, j)
    {
      HeaderExtends(h.g, more.g, j);
    }
    DroppedMoves(h, s, received, skipped, got, dropped, more, s, received, skipped, got);
  }

  lemma CacheInGrown(h: History, newKey: Secret, s: nat, received: nat, skipped: seq<Skipped>, got: set<Position>, dropped: set<Id>)
    requires |h.sent| == |h.g.keys| && s < |h.g.keys| && CacheInv(h, s, received, skipped, got, dropped)
    ensures CacheInv(Grown(h, newKey), s, received, skipped, got, dropped)
  {
    hide EntryAt, HeaderAt, Ids, Distinct, DroppedInv;
    var more := Grown(h, newKey);
    GrownKeepsDropped(h, newKey, s, received, skipped, got, dropped);
    forall e | e in skipped
      ensures exists j: nat :: EntryAt(more, s, received, e, j) && (j, e.number) !in got
    {
      var j: nat :| EntryAt(h, s, received, e, j) && (j, e.number) !in got;
      EntryInGrown(h, newKey, s, received, e, j);
    }
    forall j: nat, n: nat | PeerChain(s, j) && j < |more.g.keys| && n < Reach(more, s, received, j)
      ensures (j, n) in got || (HeaderAt(more.g, j), n) in Ids(skipped) || (HeaderAt(more.g, j), n) in dropped
    {
      HeaderExtends(h.g, more.g, j);
    }
  }

  lemma KeysInGrown(g: Pairs, newKey: Secret, s: nat, st: State)
    requires KeysInv(g, s, st)
    ensures KeysInv(g.Plus(newKey), s, st)
  {
    hide HeaderAt, ChainAt, RootAt;
    var more := g.Plus(newKey);
    RootExtends(g, more, s);
    HeaderExtends(g, more, s + 1);
    HeaderExtends(g, more, s + 2);
    if s >= 1 {
      HeaderExtends(g, more, s);
      ChainExtends(g, more, s, st.sentCount);
    }
    if s >= 2 {
      HeaderExtends(g, more, s - 1);
      ChainExtends(g, more, s - 1, st.receivedCount);
    }
  }

  /** The peer generates a new pair: nothing changes for us. */
  lemma PeerRatchets(h: History, p: Party, newKey: Secret)
    requires p.Inv(h) && |h.g.keys| == p.s + 1
    ensures p.Inv(Grown(h, newKey))
  {
    hide History.Valid, CacheInv, KeysInv;
    GrownValid(h, newKey);
    CacheInGrown(h, newKey, p.s, p.st.receivedCount, p.st.skipped, p.got, p.dropped);
    KeysInGrown(h.g, newKey, p.s, p.st);
  }

  lemma RatchetKeepsDropped(h: History, s: nat, received: nat, skipped: seq<Skipped>, got: set<Position>, dropped: set<Id>)
    requires |h.sent| == |h.g.keys| == s + 3 && DroppedInv(h, s, received, skipped, got, dropped)
    requires s >= 2 ==> received == |h.sent[s - 1]|
    ensures DroppedInv(h, s + 2, 0, skipped, got, dropped)
  {
    hide HeaderAt, Ids;
    DroppedMoves(h, s, received, skipped, got, dropped, h, s + 2, 0, skipped, got);
  }

  lemma CacheAfterRatchet(h: History, s: nat, received: nat, skipped: seq<Skipped>, got: set<Position>, dropped: set<Id>)
    requires |h.sent| == |h.g.keys| == s + 3 && CacheInv(h, s, received, skipped, got, dropped)
    requires s >= 2 ==> received == |h.sent[s - 1]|
    ensures CacheInv(h, s + 2, 0, skipped, got, dropped)
  {
    hide HeaderAt, ChainAt, Ids, Distinct, DroppedInv;
    RatchetKeepsDropped(h, s, received, skipped, got, dropped);
    forall e | e in skipped
      ensures exists j: nat :: EntryAt(h, s + 2, 0, e, j) && (j, e.number) !in got
    {
      var j: nat :| EntryAt(h, s, received, e, j) && (j, e.number) !in got;
      assert EntryAt(h, s + 2, 0, e, j);
    }
  }

  /** Our own DH ratchet step, once the peer's previous chain has been followed to its end. */
  lemma WeRatchet(h: History, p: Party, header: Header, newKey: Secret)
    requires p.Inv(h) && |h.g.keys| == p.s + 2 && header.ratchetKey == h.g.keys[p.s + 1]
    requires p.s >= 2 ==> p.st.receivedCount == |h.sent[p.s - 1]|
    ensures Party(p.s + 2, AfterDhRatchet(p.st, header, newKey), p.got, p.dropped).Inv(Grown(h, newKey))
  {
    hide History.Valid, CacheInv, KeysInv;
    GrownValid(h, newKey);
    RatchetKeys(h.g, p.s, p.st, header, newKey);
    CacheInGrown(h, newKey, p.s, p.st.receivedCount, p.st.skipped, p.got, p.dropped);
    CacheAfterRatchet(Grown(h, newKey), p.s, p.st.receivedCount, p.st.skipped, p.got, p.dropped);
  }

  // ----- sending -----

  function Extended(h: History, j: nat, m: Message): History
    requires j < |h.sent|
  {
    h.(sent := h.sent[j := h.sent[j] + [m]])
  }

  lemma ExtendedValid(h: History, s: nat, m: Message)
    requires h.Valid() && 1 <= s < |h.g.keys| <= s + 2 && |h.sent[s]| + 1 < TWO32
    requires Extended(h, s, m).Genuine(s, |h.sent[s]|)
    ensures Extended(h, s, m).Valid()
  {
    hide HeaderAt, ChainAt;
    var more := Extended(h, s, m);
    forall j, n | 1 <= j < |more.g.keys| && 0 <= n < |more.sent[j]|
      ensures more.Genuine(j, n)
    {
      if j != s || n < |h.sent[s]| {
        assert h.Genuine(j, n);
      }
    }
  }

  lemma ExtendedKeepsDropped(h: History, j: nat, m: Message, s: nat, received: nat, skipped: seq<Skipped>, got: set<Position>, dropped: set<Id>)
    requires |h.sent| == |h.g.keys| && j < |h.g.keys| && s <= j + 1 && DroppedInv(h, s, received, skipped, got, dropped)
    ensures DroppedInv(Extended(h, j, m), s, received, skipped, got, dropped)
  {
    hide HeaderAt, Ids;
    DroppedMoves(h, s, received, skipped, got, dropped, Extended(h, j, m), s, received, skipped, got);
  }

  lemma CacheInExtended(h: History, j: nat, m: Message, s: nat, received: nat, skipped: seq<Skipped>, got: set<Position>, dropped: set<Id>)
    requires |h.sent| == |h.g.keys| && j < |h.g.keys| && s <= j + 1 && CacheInv(h, s, received, skipped, got, dropped)
    ensures CacheInv(Extended(h, j, m), s, received, skipped, got, dropped)
  {
    hide HeaderAt, ChainAt, Ids, Distinct, DroppedInv;
    var more := Extended(h, j, m);
    ExtendedKeepsDropped(h, j, m, s, received, skipped, got, dropped);
    forall e | e in skipped
      ensures exists k: nat :: EntryAt(more, s, received, e, k) && (k, e.number) !in got
    {
      var k: nat :| EntryAt(h, s, received, e, k) && (k, e.number) !in got;
      assert EntryAt(more, s, received, e, k);
    }
  }

  /** Sending produces the genuine next message of our chain. */
  lemma WeSend(h: History, p: Party, plain: Bytes, now: int, nonce: nat)
    requires p.Inv(h) && p.s >= 1 && |h.sent[p.s]| + 1 < TWO32
    ensures var r := AfterEncrypt(p.st, plain, h.associatedData, now, nonce);
            && r.message.Some? && r.message.value.body.plain == plain
            && Party(p.s, r.state, p.got, p.dropped + PrunedAway(p.st.skipped, now)).Inv(Extended(h, p.s, r.message.value))
  {
    hide CacheInv, Pruned, PrunedAway, HeaderAt;
    var r := AfterEncrypt(p.st, plain, h.associatedData, now, nonce);
    var m := r.message.value;
    PruneKeeps(h, p, now);
    ExtendedValid(h, p.s, m);
    CacheInExtended(h, p.s, m, p.s, p.st.receivedCount, r.state.skipped, p.got, p.dropped + PrunedAway(p.st.skipped, now));
  }

  /** The peer at index j sends: nothing changes for us. */
  lemma PeerSends(h: History, p: Party, j: nat, m: Message)
    requires p.Inv(h) && j < |h.g.keys| && (j == p.s + 1 || j + 1 == p.s) && Extended(h, j, m).Valid()
    ensures p.Inv(Extended(h, j, m))
  {
    hide History.Valid, CacheInv, KeysInv;
    CacheInExtended(h, j, m, p.s, p.st.receivedCount, p.st.skipped, p.got, p.dropped);
  }

  // ----- receiving a genuine message -----

  lemma EntryFits(h: History, s: nat, received: nat, e: Skipped, k: nat, j: nat, n: nat)
    requires h.Valid() && s < |h.g.keys| && EntryAt(h, s, received, e, k)
    requires 1 <= j < |h.g.keys| && n < |h.sent[j]|
    ensures Fits(e, h.sent[j][n], h.associatedData) <==> IdOf(e) == (HeaderAt(h.g, j), n)
    ensures IdOf(e) == (HeaderAt(h.g, j), n) ==> k == j
  {
    hide HeaderAt, ChainAt;
    assert h.Genuine(j, n);
    HeaderInjective(h.g, k, j);
  }

  /** The cache search succeeds exactly when the key of that position is cached. */
  lemma SearchIsExact(h: History, s: nat, received: nat, skipped: seq<Skipped>, got: set<Position>, dropped: set<Id>, j: nat, n: nat)
    requires h.Valid() && s < |h.sent| == |h.g.keys| && CacheInv(h, s, received, skipped, got, dropped)
    requires 1 <= j < |h.g.keys| && n < |h.sent[j]|
    ensures var i := FirstFit(skipped, h.sent[j][n], h.associatedData);
            && (i < |skipped| <==> (HeaderAt(h.g, j), n) in Ids(skipped))
            && (i < |skipped| ==> EntryAt(h, s, received, skipped[i], j) && skipped[i].number == n && (j, n) !in got)
  {
    hide History.Valid, EntryAt, Fits, HeaderAt, Distinct;
    var m := h.sent[j][n];
    forall e | e in skipped
      ensures Fits(e, m, h.associatedData) <==> IdOf(e) == (HeaderAt(h.g, j), n)
      ensures IdOf(e) == (HeaderAt(h.g, j), n) ==> EntryAt(h, s, received, e, j) && (j, n) !in got
    {
      var k: nat :| EntryAt(h, s, received, e, k) && (k, e.number) !in got;
      EntryFits(h, s, received, e, k, j, n);
    }
  }

  /** Which of the two header keys opens a message tells on which chain it travels. */
  lemma HeaderTellsChain(h: History, p: Party, j: nat, n: nat)
    requires p.Inv(h) && 1 <= j < |h.g.keys| && n < |h.sent[j]|
    ensures var m := h.sent[j][n];
            MatchHeader(p.st, m.header) == if j + 1 == p.s then Current(m.header.plain)
                                           else if j == p.s + 1 then Ahead(m.header.plain)
                                           else Unreadable
  {
    hide CacheInv, HeaderAt, ChainAt;
    assert h.Genuine(j, n);
    HeaderInjective(h.g, j, p.s + 1);
    if p.s >= 2 {
      HeaderInjective(h.g, j, p.s - 1);
    }
  }

  predicate InReach(received: nat, n: nat) {
    received <= n <= received + MAX_SKIP
  }

  /** On the current chain the message decrypts if its position is ahead, by no more than the bound. */
  lemma ReceiveOnChain(h: History, p: Party, n: nat, now: int)
    requires p.Inv(h) && p.s >= 2 && n < |h.sent[p.s - 1]|
    ensures var m := h.sent[p.s - 1][n]; var r := ReceiveAt(p.st, n, m, h.associatedData, now);
            r.plain == if InReach(p.st.receivedCount, n) then Some(m.body.plain) else None
  {
    hide History.Valid, CacheInv, HeaderAt, ChainAt, SkipTo, Pruned;
    KeyOfPosition(h, p.s - 1, n);
    if !SkipsTooFar(p.st, n) {
      AfterSkipKeeps(h, p, n, now);
      if n < p.st.receivedCount && ChainAt(h.g, p.s - 1, n) == ChainAt(h.g, p.s - 1, p.st.receivedCount) {
        ChainInjective(h.g, p.s - 1, n, p.st.receivedCount);
      }
    }
  }

  lemma KeyOfPosition(h: History, j: nat, n: nat)
    requires h.Valid() && 1 <= j < |h.g.keys| && n < |h.sent[j]|
    ensures var m := h.sent[j][n];
            forall key :: OpenBody(key, m, h.associatedData)
                          == if key == MessageKey(ChainAt(h.g, j, n)) then Some(m.body.plain) else None
  {
    hide HeaderAt, ChainAt;
    assert h.Genuine(j, n);
  }

  lemma ReceiveOnChainKeeps(h: History, p: Party, n: nat, now: int)
    requires p.Inv(h) && p.s >= 2 && n < |h.sent[p.s - 1]| && InReach(p.st.receivedCount, n)
    ensures var r := ReceiveAt(p.st, n, h.sent[p.s - 1][n], h.associatedData, now);
            && Party(p.s, r.state, p.got + {(p.s - 1, n)}, p.dropped + SkipDrops(p.st, n, now)).Inv(h)
            && |r.state.skipped| <= MAX_SKIPPED_KEYS
    ensures (p.s - 1, n) !in p.got
  {
    hide History.Valid, HeaderAt, SkipTo, Pruned, SkipDrops, CacheInv, OpenBody, Ids;
    NotGotYet(h, p.s, p.st.receivedCount, p.st.skipped, p.got, p.dropped, n);
    AfterSkipKeeps(h, p, n, now);
    var t := AfterSkip(p.st, n, now);
    PrunedIsSubsequence(SkipTo(p.st, n, now).skipped, now);
    CacheDelivers(h, p.s, n, t.skipped, p.got, p.dropped + SkipDrops(p.st, n, now));
  }

  function AheadDrops(s: State, header: Header, now: int, newKey: Secret): set<Id> {
    if SkipsTooFar(s, header.previousChainLength) then {}
    else SkipDrops(s, header.previousChainLength, now)
         + SkipDrops(AfterDhRatchet(AfterSkip(s, header.previousChainLength, now), header, newKey), header.messageNumber, now)
  }

  /** The party just after its DH ratchet step, before it looks for the message's position. */
  function Stepped(p: Party, header: Header, now: int, newKey: Secret): Party {
    Party(p.s + 2, AfterDhRatchet(AfterSkip(p.st, header.previousChainLength, now), header, newKey), p.got,
          p.dropped + SkipDrops(p.st, header.previousChainLength, now))
  }

  lemma StepKeeps(h: History, p: Party, n: nat, now: int, newKey: Secret)
    requires p.Inv(h) && p.s + 1 < |h.g.keys| && n < |h.sent[p.s + 1]|
    requires !SkipsTooFar(p.st, h.Previous(p.s + 1))
    ensures var header := h.sent[p.s + 1][n].header.plain;
            && header == Header(h.g.keys[p.s + 1], h.Previous(p.s + 1), n)
            && Stepped(p, header, now, newKey).Inv(Grown(h, newKey))
            && Stepped(p, header, now, newKey).st.receivedCount == 0
  {
    hide CacheInv, HeaderAt, ChainAt, AfterSkip, SkipDrops, KeysInv, Grown;
    assert h.Genuine(p.s + 1, n);
    var header := h.sent[p.s + 1][n].header.plain;
    AfterSkipKeeps(h, p, header.previousChainLength, now);
    WeRatchet(h, Party(p.s, AfterSkip(p.st, header.previousChainLength, now), p.got,
                       p.dropped + SkipDrops(p.st, header.previousChainLength, now)), header, newKey);
  }

  predicate StepInReach(received: nat, previous: nat, n: nat) {
    previous <= received + MAX_SKIP && n <= MAX_SKIP
  }

  /** A message of the peer's next chain decrypts if neither skip is beyond the bound. */
  lemma ReceiveAheadExact(h: History, p: Party, n: nat, now: int, newKey: Secret)
    requires p.Inv(h) && p.s + 1 < |h.g.keys| && n < |h.sent[p.s + 1]|
    ensures var m := h.sent[p.s + 1][n];
            ReceiveAhead(p.st, m.header.plain, m, h.associatedData, now, newKey).plain
            == if StepInReach(p.st.receivedCount, h.Previous(p.s + 1), n) then Some(m.body.plain) else None
  {
    hide CacheInv, KeysInv, HeaderAt, ChainAt, AfterSkip, SkipDrops, AfterDhRatchet, ReceiveAt;
    assert h.Genuine(p.s + 1, n);
    if !SkipsTooFar(p.st, h.Previous(p.s + 1)) {
      StepKeeps(h, p, n, now, newKey);
      ReceiveOnChain(Grown(h, newKey), Stepped(p, h.sent[p.s + 1][n].header.plain, now, newKey), n, now);
    }
  }

  lemma ReceiveAheadKeeps(h: History, p: Party, n: nat, now: int, newKey: Secret)
    requires p.Inv(h) && p.s + 1 < |h.g.keys| && n < |h.sent[p.s + 1]|
    requires StepInReach(p.st.receivedCount, h.Previous(p.s + 1), n)
    ensures var m := h.sent[p.s + 1][n]; var r := ReceiveAhead(p.st, m.header.plain, m, h.associatedData, now, newKey);
            && Party(p.s + 2, r.state, p.got + {(p.s + 1, n)},
                     p.dropped + AheadDrops(p.st, m.header.plain, now, newKey)).Inv(Grown(h, newKey))
            && |r.state.skipped| <= MAX_SKIPPED_KEYS
    ensures (p.s + 1, n) !in p.got
  {
    hide CacheInv, KeysInv, HeaderAt, ChainAt, AfterSkip, SkipDrops, AfterDhRatchet, ReceiveAt;
    assert h.Genuine(p.s + 1, n);
    var header := h.sent[p.s + 1][n].header.plain;
    StepKeeps(h, p, n, now, newKey);
    var t := Stepped(p, header, now, newKey);
    ReceiveOnChainKeeps(Grown(h, newKey), t, n, now);
    assert t.dropped + SkipDrops(t.st, n, now) == p.dropped + AheadDrops(p.st, header, now, newKey);
  }

  // ----- one delivery -----

  /** When a peer's message still decrypts: its key is cached and survives pruning, or its position is
      within reach on the current chain or on the next one. */
  predicate Deliverable(h: History, p: Party, j: nat, n: nat, now: int)
    requires |h.sent| == |h.g.keys| && 1 <= j < |h.g.keys|
  {
    || (HeaderAt(h.g, j), n) in Ids(Pruned(p.st.skipped, now))
    || (j + 1 == p.s && InReach(p.st.receivedCount, n))
    || (j == p.s + 1 && StepInReach(p.st.receivedCount, h.Previous(j), n))
  }

  function HistoryAfter(h: History, p: Party, j: nat, newKey: Secret): History {
    if j == p.s + 1 then Grown(h, newKey) else h
  }

  /** The ids evicted while a message is decrypted. */
  function Dropped(s: State, m: Message, associatedData: Bytes, now: int, newKey: Secret): set<Id> {
    var t := s.(skipped := Pruned(s.skipped, now));
    PrunedAway(s.skipped, now)
    + if FirstFit(t.skipped, m, associatedData) < |t.skipped| then {}
      else match MatchHeader(t, m.header)
           case Unreadable => {}
           case Current(header) => SkipDrops(t, header.messageNumber, now)
           case Ahead(header) => AheadDrops(t, header, now, newKey)
  }

  function PartyAfter(h: History, p: Party, j: nat, n: nat, now: int, newKey: Secret): Party
    requires j < |h.sent| && n < |h.sent[j]|
  {
    var m := h.sent[j][n];
    Party(if j == p.s + 1 then p.s + 2 else p.s, AfterDelivery(p.st, m, h.associatedData, now, newKey).state,
          p.got + {(j, n)}, p.dropped + Dropped(p.st, m, h.associatedData, now, newKey))
  }

  function PrunedParty(p: Party, now: int): Party {
    Party(p.s, p.st.(skipped := Pruned(p.st.skipped, now)), p.got, p.dropped + PrunedAway(p.st.skipped, now))
  }

  lemma PlainHeader(h: History, j: nat, n: nat)
    requires h.Valid() && 1 <= j < |h.g.keys| && n < |h.sent[j]|
    ensures h.sent[j][n].header.plain == Header(h.g.keys[j], h.Previous(j), n)
  {
    assert h.Genuine(j, n);
  }

  lemma PartySearch(h: History, p: Party, j: nat, n: nat)
    requires p.Inv(h) && 1 <= j < |h.g.keys| && n < |h.sent[j]|
    ensures var m := h.sent[j][n]; var i := FirstFit(p.st.skipped, m, h.associatedData);
            && (i < |p.st.skipped| <==> (HeaderAt(h.g, j), n) in Ids(p.st.skipped))
            && (i < |p.st.skipped| ==> OpenBody(p.st.skipped[i].messageKey, m, h.associatedData) == Some(m.body.plain))
  {
    hide CacheInv, KeysInv, HeaderAt, FirstFit, Ids, History.Valid;
    SearchIsExact(h, p.s, p.st.receivedCount, p.st.skipped, p.got, p.dropped, j, n);
    KeyOfPosition(h, j, n);
  }

  /** A delivery returns exactly the peer's plaintext if the message is deliverable; otherwise it returns
      nothing and the saved state stays as it was. Our own messages, sent back to us, are never deliverable. */
  lemma DeliveryExact(h: History, p: Party, j: nat, n: nat, now: int, newKey: Secret)
    requires p.Inv(h) && 1 <= j < |h.g.keys| && n < |h.sent[j]|
    ensures var m := h.sent[j][n];
            AfterDelivery(p.st, m, h.associatedData, now, newKey)
            == if Deliverable(h, p, j, n, now)
               then Received(PartyAfter(h, p, j, n, now, newKey).st, Some(m.body.plain)) else Received(p.st, None)
  {
    hide CacheInv, KeysInv, CountsInv, HeaderAt, Pruned, PrunedAway, ReceiveAt, ReceiveAhead, FirstFit, History.Valid, Ids,
      OpenBody, MatchHeader;
    var q := PrunedParty(p, now);
    PruneKeeps(h, p, now);
    PartySearch(h, q, j, n);
    HeaderTellsChain(h, q, j, n);
    PlainHeader(h, j, n);
    if j + 1 == p.s {
      ReceiveOnChain(h, q, n, now);
    } else if j == p.s + 1 {
      ReceiveAheadExact(h, q, n, now, newKey);
    }
  }

  lemma CachedDeliveryKeeps(h: History, p: Party, j: nat, n: nat)
    requires p.Inv(h) && 1 <= j < |h.g.keys| && n < |h.sent[j]|
    requires (HeaderAt(h.g, j), n) in Ids(p.st.skipped)
    ensures var i := FirstFit(p.st.skipped, h.sent[j][n], h.associatedData);
            && i < |p.st.skipped| && j < p.s
            && Party(p.s, p.st.(skipped := Without(p.st.skipped, i)), p.got + {(j, n)}, p.dropped).Inv(h)
    ensures (j, n) !in p.got
  {
    hide CacheInv, HeaderAt, ChainAt, FirstFit, Ids, History.Valid;
    SearchIsExact(h, p.s, p.st.receivedCount, p.st.skipped, p.got, p.dropped, j, n);
    CacheHit(h, p.s, p.st.receivedCount, p.st.skipped, p.got, p.dropped, FirstFit(p.st.skipped, h.sent[j][n], h.associatedData), j);
  }

  /** A successful delivery keeps the invariant, is the first one of its position, and leaves at most
      MAX_SKIPPED_KEYS keys cached. */
  lemma DeliveryKeeps(h: History, p: Party, j: nat, n: nat, now: int, newKey: Secret)
    requires p.Inv(h) && 1 <= j < |h.g.keys| && n < |h.sent[j]| && Deliverable(h, p, j, n, now)
    ensures PartyAfter(h, p, j, n, now, newKey).Inv(HistoryAfter(h, p, j, newKey))
    ensures (j, n) !in p.got && |PartyAfter(h, p, j, n, now, newKey).st.skipped| <= MAX_SKIPPED_KEYS
  {
    hide CacheInv, KeysInv, CountsInv, HeaderAt, Pruned, PrunedAway, ReceiveAt, ReceiveAhead, FirstFit, History.Valid, Ids,
      OpenBody, MatchHeader, Grown, AfterDelivery, SkipDrops, AheadDrops;
    var q := PrunedParty(p, now);
    var m := h.sent[j][n];
    PruneKeeps(h, p, now);
    PrunedIsSubsequence(p.st.skipped, now);
    PartySearch(h, q, j, n);
    HeaderTellsChain(h, q, j, n);
    PlainHeader(h, j, n);
    DeliveryExact(h, p, j, n, now, newKey);
    DeliverySaves(p.st, m, h.associatedData, now, newKey);
    if (HeaderAt(h.g, j), n) in Ids(q.st.skipped) {
      CachedDeliveryKeeps(h, q, j, n);
      assert q.dropped == p.dropped + Dropped(p.st, m, h.associatedData, now, newKey);
      var i := FirstFit(q.st.skipped, m, h.associatedData);
      assert PartyAfter(h, p, j, n, now, newKey)
          == Party(q.s, q.st.(skipped := Without(q.st.skipped, i)), q.got + {(j, n)}, q.dropped);
    } else if j + 1 == p.s {
      ReceiveOnChainKeeps(h, q, n, now);
      assert q.dropped + SkipDrops(q.st, n, now) == p.dropped + Dropped(p.st, m, h.associatedData, now, newKey);
    } else {
      ReceiveAheadKeeps(h, q, n, now, newKey);
      assert q.dropped + AheadDrops(q.st, m.header.plain, now, newKey) == p.dropped + Dropped(p.st, m, h.associatedData, now, newKey);
    }
  }

  lemma DeliverySaves(s: State, m: Message, associatedData: Bytes, now: int, newKey: Secret)
    requires AfterDelivery(s, m, associatedData, now, newKey).plain.Some?
    ensures AfterDelivery(s, m, associatedData, now, newKey) == AfterDecrypt(s, m, associatedData, now, newKey)
  {
    hide AfterDecrypt;
  }

  // ----- what else the network may carry -----

  /** A body that was sealed for another header, or with other associated data, is never accepted. */
  lemma MovedBodyRejected(st: State, m: Message, associatedData: Bytes, now: int, newKey: Secret)
    requires m.body.header != m.header || m.body.associatedData != associatedData
    ensures AfterDelivery(st, m, associatedData, now, newKey) == Received(st, None)
  {
    hide Pruned, SkipTo, AfterDhRatchet, AfterSkip;
  }

  /** A message of another session: no chain of this session that the party listens on has its header key. */
  lemma ForeignRejected(h: History, p: Party, m: Message, now: int, newKey: Secret)
    requires p.Inv(h) && forall j :: 1 <= j <= p.s + 1 ==> m.header.key != HeaderAt(h.g, j)
    ensures AfterDelivery(p.st, m, h.associatedData, now, newKey) == Received(p.st, None)
  {
    hide HeaderAt, ChainAt, Pruned, History.Valid, CountsInv, Distinct, DroppedInv, ReceiveAt, ReceiveAhead;
    var q := PrunedParty(p, now);
    PruneKeeps(h, p, now);
    forall e | e in q.st.skipped
      ensures !Fits(e, m, h.associatedData)
    {
      var j: nat :| EntryAt(h, p.s, p.st.receivedCount, e, j) && (j, e.number) !in p.got;
    }
  }

  /** A header that was sent, with a body under a key that is no message key of the session. */
  ghost predicate ForgedBody(h: History, m: Message)
    requires |h.sent| == |h.g.keys|
  {
    && (exists j, n :: 1 <= j < |h.g.keys| && 0 <= n < |h.sent[j]| && m.header == h.sent[j][n].header)
    && (forall j: nat :: 1 <= j < |h.g.keys| ==> NoKeyOf(h.g, j, m.body.key))
  }

  ghost predicate NoKeyOf(g: Pairs, j: nat, key: Key)
    requires 1 <= j < |g.keys|
  {
    forall n: nat :: key != MessageKey(ChainAt(g, j, n))
  }

  lemma ForgedOnChain(h: History, p: Party, n: nat, m: Message, now: int)
    requires p.Inv(h) && p.s >= 2 && n <= |h.sent[p.s - 1]| && NoKeyOf(h.g, p.s - 1, m.body.key)
    ensures ReceiveAt(p.st, n, m, h.associatedData, now).plain.None?
  {
    hide History.Valid, CacheInv, HeaderAt, ChainAt, AfterSkip;
    if !SkipsTooFar(p.st, n) {
      AfterSkipKeeps(h, p, n, now);
    }
  }

  lemma StillNoKey(g: Pairs, more: Pairs, j: nat, key: Key)
    requires 1 <= j < |g.keys| && g.Before(more) && NoKeyOf(g, j, key)
    ensures NoKeyOf(more, j, key)
  {
    hide ChainAt;
    forall n: nat
      ensures key != MessageKey(ChainAt(more, j, n))
    {
      ChainExtends(g, more, j, n);
    }
  }

  lemma ForgedAhead(h: History, p: Party, n: nat, m: Message, now: int, newKey: Secret)
    requires p.Inv(h) && p.s + 1 < |h.g.keys| && n < |h.sent[p.s + 1]|
    requires NoKeyOf(h.g, p.s + 1, m.body.key)
    ensures ReceiveAhead(p.st, h.sent[p.s + 1][n].header.plain, m, h.associatedData, now, newKey).plain.None?
  {
    hide CacheInv, KeysInv, HeaderAt, ChainAt, AfterSkip, SkipDrops, AfterDhRatchet, ReceiveAt, History.Valid;
    PlainHeader(h, p.s + 1, n);
    if !SkipsTooFar(p.st, h.Previous(p.s + 1)) {
      StepKeeps(h, p, n, now, newKey);
      StillNoKey(h.g, Grown(h, newKey).g, p.s + 1, m.body.key);
      ForgedOnChain(Grown(h, newKey), Stepped(p, h.sent[p.s + 1][n].header.plain, now, newKey), n, m, now);
    }
  }

  lemma ForgedFitsNothing(h: History, p: Party, m: Message)
    requires p.Inv(h) && forall j: nat :: 1 <= j < |h.g.keys| ==> NoKeyOf(h.g, j, m.body.key)
    ensures FirstFit(p.st.skipped, m, h.associatedData) == |p.st.skipped|
  {
    hide History.Valid, KeysInv, CountsInv, HeaderAt, ChainAt, Distinct, DroppedInv;
    forall e | e in p.st.skipped
      ensures !Fits(e, m, h.associatedData)
    {
      var j: nat :| EntryAt(h, p.s, p.st.receivedCount, e, j) && (j, e.number) !in p.got;
      assert NoKeyOf(h.g, j, m.body.key);
    }
  }

  /** This is the message for which saving only on success is there: its header moves the state on, and its body fails. */
  lemma ForgedBodyRejected(h: History, p: Party, m: Message, now: int, newKey: Secret)
    requires p.Inv(h) && ForgedBody(h, m)
    ensures AfterDelivery(p.st, m, h.associatedData, now, newKey) == Received(p.st, None)
  {
    hide Party.Inv, HeaderAt, ChainAt, Pruned, PrunedAway, FirstFit, ReceiveAt, ReceiveAhead, MatchHeader, OpenBody, NoKeyOf;
    PartyBounds(h, p);
    var j, n :| 1 <= j < |h.g.keys| && 0 <= n < |h.sent[j]| && m.header == h.sent[j][n].header;
    var q := PrunedParty(p, now);
    PruneKeeps(h, p, now);
    PartyBounds(h, q);
    ForgedFitsNothing(h, q, m);
    HeaderTellsChain(h, q, j, n);
    PlainHeader(h, j, n);
    if j + 1 == p.s {
      ForgedOnChain(h, q, n, m, now);
    } else if j == p.s + 1 {
      ForgedAhead(h, q, n, m, now, newKey);
    }
  }

  lemma PartyBounds(h: History, p: Party)
    requires p.Inv(h)
    ensures h.Valid() && |h.sent| == |h.g.keys| && p.s + 1 <= |h.g.keys| <= p.s + 2
  {
  }

  // ----- whole runs -----

  datatype Delivery = Delivery(toInitiator: bool, position: Position, plain: Bytes) {
    function Key(): (bool, Position) {
      (toInitiator, position)
    }
  }

  datatype Step =
    | Send(byInitiator: bool, plain: Bytes, now: int, nonce: nat)
    | Deliver(toInitiator: bool, j: nat, n: nat, now: int, newKey: Secret)   // message n of chain j
    | Noise(toInitiator: bool, m: Message, now: int, newKey: Secret)

  datatype Session = Session(h: History, initiator: Party, responder: Party, returned: seq<Delivery>) {
    function Side(isInitiator: bool): Party {
      if isInitiator then initiator else responder
    }

    function With(isInitiator: bool, p: Party): Session {
      if isInitiator then this.(initiator := p) else this.(responder := p)
    }

    /** What can happen next. A chain ends at 2^32 messages, where the u32 number in the header would wrap. */
    ghost predicate Enabled(x: Step)
      requires |h.sent| == |h.g.keys|
    {
      match x
      case Send(who, _, _, _) => Side(who).s < |h.sent| && |h.sent[Side(who).s]| + 1 < TWO32
      case Deliver(who, j, n, _, _) => 1 <= j < |h.g.keys| && n < |h.sent[j]|
      case Noise(who, m, _, _) =>
        || m.body.header != m.header || m.body.associatedData != h.associatedData
        || (forall j :: 1 <= j <= Side(who).s + 1 && j - 2 < |h.g.keys| ==> m.header.key != HeaderAt(h.g, j))
        || ForgedBody(h, m)
    }

    ghost predicate Inv() {
      && initiator.Inv(h) && responder.Inv(h) && initiator.s % 2 == 1 && responder.s % 2 == 0
      && (forall i :: 0 <= i < |returned| ==> Returned(i))
      && forall i, k :: 0 <= i < k < |returned| ==> returned[i].Key() != returned[k].Key()
    }

    /** Entry i of the log is a message of the peer, with the plaintext the peer gave to it. */
    ghost predicate Returned(i: nat)
      requires i < |returned|
    {
      var d := returned[i];
      var (j, n) := d.position;
      && d.position in Side(d.toInitiator).got
      && j < |h.sent| && n < |h.sent[j]| && j % 2 == (if d.toInitiator then 0 else 1)
      && d.plain == h.sent[j][n].body.plain
    }

    function Logged(who: bool, position: Position, plain: Option<Bytes>): seq<Delivery> {
      if plain.Some? then returned + [Delivery(who, position, plain.value)] else returned
    }

    /** Every step is a transaction: what throws changes nothing. */
    function After(x: Step): Session
      requires |h.sent| == |h.g.keys|
      requires x.Send? ==> Side(x.byInitiator).s < |h.sent|
      requires x.Deliver? ==> x.j < |h.g.keys| && x.n < |h.sent[x.j]|
    {
      match x
      case Send(who, plain, now, nonce) =>
        var p := Side(who);
        var r := AfterEncrypt(p.st, plain, h.associatedData, now, nonce);
        if r.message.None? then this
        else With(who, Party(p.s, r.state, p.got, p.dropped + PrunedAway(p.st.skipped, now)))
             .(h := Extended(h, p.s, r.message.value))
      case Deliver(who, j, n, now, newKey) =>
        var r := AfterDelivery(Side(who).st, h.sent[j][n], h.associatedData, now, newKey);
        if r.plain.None? then this
        else With(who, PartyAfter(h, Side(who), j, n, now, newKey))
             .(h := HistoryAfter(h, Side(who), j, newKey), returned := Logged(who, (j, n), r.plain))
      case Noise(who, m, now, newKey) =>
        var p := Side(who);
        var r := AfterDelivery(p.st, m, h.associatedData, now, newKey);
        With(who, p.(st := r.state)).(returned := Logged(who, (0, 0), r.plain))
    }
  }

  function Begin(shared: SharedSecret, responderKey: Secret, initiatorKey: Secret, associatedData: Bytes): Session {
    Session(History(Pairs(shared, [responderKey, initiatorKey]), [[], []], associatedData),
            Party(1, InitInitiator(shared, initiatorKey, responderKey), {}, {}), Party(0, InitResponder(shared, responderKey), {}, {}), [])
  }

  /** initInitiator and initResponder agree on every key that both will use. */
  lemma BeginInv(shared: SharedSecret, responderKey: Secret, initiatorKey: Secret, associatedData: Bytes)
    ensures Begin(shared, responderKey, initiatorKey, associatedData).Inv()
  {
    var y := Begin(shared, responderKey, initiatorKey, associatedData);
    DhCommutes(initiatorKey, responderKey);
    assert y.h.g.keys[0] == responderKey && y.h.g.keys[1] == initiatorKey;
    assert RootAt(y.h.g, 0) == FirstRoot(shared);
    assert KeysInv(y.h.g, 1, y.initiator.st);
    assert KeysInv(y.h.g, 0, y.responder.st);
  }

  lemma CannotSendYet(h: History, p: Party, plain: Bytes, now: int, nonce: nat)
    requires p.Inv(h) && p.s == 0
    ensures AfterEncrypt(p.st, plain, h.associatedData, now, nonce).message.None?
  {
    hide CacheInv, History.Valid;
  }

  lemma SendKeepsParties(y: Session, x: Step)
    requires y.Inv() && x.Send? && y.Enabled(x)
    ensures var z := y.After(x); z.initiator.Inv(z.h) && z.responder.Inv(z.h)
  {
    hide CacheInv, KeysInv, AfterEncrypt, Extended, PrunedAway, History.Valid;
    var p := y.Side(x.byInitiator);
    if p.s >= 1 {
      WeSend(y.h, p, x.plain, x.now, x.nonce);
      PeerSends(y.h, y.Side(!x.byInitiator), p.s, AfterEncrypt(p.st, x.plain, y.h.associatedData, x.now, x.nonce).message.value);
    } else {
      CannotSendYet(y.h, p, x.plain, x.now, x.nonce);
    }
  }

  lemma DeliverKeepsParties(y: Session, x: Step)
    requires y.Inv() && x.Deliver? && y.Enabled(x)
    ensures var z := y.After(x); z.initiator.Inv(z.h) && z.responder.Inv(z.h)
  {
    hide CacheInv, KeysInv, CountsInv, Grown, History.Valid, Deliverable, AfterDelivery, PartyAfter;
    var p := y.Side(x.toInitiator);
    DeliveryExact(y.h, p, x.j, x.n, x.now, x.newKey);
    if Deliverable(y.h, p, x.j, x.n, x.now) {
      DeliveryKeeps(y.h, p, x.j, x.n, x.now, x.newKey);
      if x.j == p.s + 1 {
        PeerRatchets(y.h, y.Side(!x.toInitiator), x.newKey);
      }
    }
  }

  lemma NoiseChangesNothing(y: Session, x: Step)
    requires y.Inv() && x.Noise? && y.Enabled(x)
    ensures y.After(x) == y
  {
    hide Party.Inv, AfterDelivery, HeaderAt, ForgedBody, PartyAfter, AfterEncrypt;
    var p := y.Side(x.toInitiator);
    if x.m.body.header != x.m.header || x.m.body.associatedData != y.h.associatedData {
      MovedBodyRejected(p.st, x.m, y.h.associatedData, x.now, x.newKey);
    } else {
      PartyBounds(y.h, p);
      if ForgedBody(y.h, x.m) {
        ForgedBodyRejected(y.h, p, x.m, x.now, x.newKey);
      } else {
        ForeignRejected(y.h, p, x.m, x.now, x.newKey);
      }
    }
  }

  /** A position that is delivered was not delivered before. */
  lemma DeliverKeepsLog(y: Session, x: Step)
    requires y.Inv() && x.Deliver? && y.Enabled(x)
    ensures var z := y.After(x);
            && (forall i :: 0 <= i < |z.returned| ==> z.Returned(i))
            && (forall i, k :: 0 <= i < k < |z.returned| ==> z.returned[i].Key() != z.returned[k].Key())
  {
    hide Party.Inv, AfterDelivery, Deliverable, Dropped;
    var p := y.Side(x.toInitiator);
    PartyBounds(y.h, p);
    var z := y.After(x);
    DeliveryExact(y.h, p, x.j, x.n, x.now, x.newKey);
    if Deliverable(y.h, p, x.j, x.n, x.now) {
      DeliveryKeeps(y.h, p, x.j, x.n, x.now, x.newKey);
      ComesFromPeer(y.h, p, x.j, x.n, x.now);
      forall i | 0 <= i < |y.returned|
        ensures z.Returned(i) && y.returned[i].Key() != (x.toInitiator, (x.j, x.n))
      {
        assert y.Returned(i);
      }
    }
  }

  lemma ComesFromPeer(h: History, p: Party, j: nat, n: nat, now: int)
    requires p.Inv(h) && 1 <= j < |h.g.keys| && n < |h.sent[j]| && Deliverable(h, p, j, n, now)
    ensures j % 2 != p.s % 2
  {
    hide CacheInv, KeysInv, HeaderAt, Ids, Pruned;
    if (HeaderAt(h.g, j), n) in Ids(Pruned(p.st.skipped, now)) {
      PruneKeeps(h, p, now);
      var q := PrunedParty(p, now);
      SearchIsExact(h, q.s, q.st.receivedCount, q.st.skipped, q.got, q.dropped, j, n);
    }
  }

  lemma SendKeepsLog(y: Session, x: Step)
    requires y.Inv() && x.Send? && y.Enabled(x)
    ensures var z := y.After(x);
            && z.returned == y.returned && (forall i :: 0 <= i < |z.returned| ==> z.Returned(i))
  {
    hide Party.Inv, AfterEncrypt;
    PartyBounds(y.h, y.Side(x.byInitiator));
    var z := y.After(x);
    forall i | 0 <= i < |z.returned|
      ensures z.Returned(i)
    {
      assert y.Returned(i);
      var (j, n) := y.returned[i].position;
      assert z.h.sent[j][n] == y.h.sent[j][n];
      assert z.Side(y.returned[i].toInitiator).got == y.Side(y.returned[i].toInitiator).got;
    }
  }

  lemma StepKeepsInv(y: Session, x: Step)
    requires y.Inv() && y.Enabled(x)
    ensures y.After(x).Inv()
  {
    hide Party.Inv, Session.After, Session.Returned;
    match x {
      case Send(_, _, _, _) =>
        SendKeepsParties(y, x);
        SendKeepsLog(y, x);
      case Deliver(_, _, _, _, _) =>
        DeliverKeepsParties(y, x);
        DeliverKeepsLog(y, x);
      case Noise(_, _, _, _) =>
        NoiseChangesNothing(y, x);
    }
    StepKeepsParity(y, x);
  }

  lemma StepKeepsParity(y: Session, x: Step)
    requires y.Inv() && y.Enabled(x)
    ensures y.After(x).initiator.s % 2 == y.initiator.s % 2 && y.After(x).responder.s % 2 == y.responder.s % 2
  {
    hide Party.Inv, AfterEncrypt, AfterDelivery;
  }

  /** The steps lead from y to z. */
  ghost predicate Leads(y: Session, steps: seq<Step>, z: Session)
    decreases |steps|
  {
    if steps == [] then z == y
    else |y.h.sent| == |y.h.g.keys| && y.Enabled(steps[0]) && Leads(y.After(steps[0]), steps[1..], z)
  }

  lemma {:induction false} RunKeepsInv(y: Session, steps: seq<Step>, z: Session)
    requires y.Inv() && Leads(y, steps, z)
    ensures z.Inv()
    decreases |steps|
  {
    hide Session.Inv, Session.After;
    if steps == [] {
    } else {
      StepKeepsInv(y, steps[0]);
      RunKeepsInv(y.After(steps[0]), steps[1..], z);
    }
  }

  /** No run returns a message twice, and what it returns is the plaintext that the peer sent. */
  lemma AtMostOnce(shared: SharedSecret, responderKey: Secret, initiatorKey: Secret, associatedData: Bytes, steps: seq<Step>, z: Session)
    requires Leads(Begin(shared, responderKey, initiatorKey, associatedData), steps, z)
    ensures forall i, k :: 0 <= i < k < |z.returned| ==> z.returned[i].Key() != z.returned[k].Key()
    ensures forall i :: 0 <= i < |z.returned| ==> z.Returned(i)
  {
    hide Party.Inv, Session.Returned, Leads;
    BeginInv(shared, responderKey, initiatorKey, associatedData);
    RunKeepsInv(Begin(shared, responderKey, initiatorKey, associatedData), steps, z);
  }

  // ----- exactly which messages still decrypt -----

  /** A passed position was delivered, or is cached, or was dropped: one of the three only. */
  lemma PassedOnce(h: History, p: Party, j: nat, n: nat)
    requires p.Inv(h) && PeerChain(p.s, j) && j < |h.g.keys| && n < Reach(h, p.s, p.st.receivedCount, j)
    ensures var id := (HeaderAt(h.g, j), n);
            && ((j, n) in p.got || id in Ids(p.st.skipped) || id in p.dropped)
            && !((j, n) in p.got && id in Ids(p.st.skipped))
            && !((j, n) in p.got && id in p.dropped)
            && !(id in p.dropped && id in Ids(p.st.skipped))
  {
    hide History.Valid, KeysInv, CountsInv, HeaderAt, ChainAt, Distinct;
    var id := (HeaderAt(h.g, j), n);
    if id in Ids(p.st.skipped) {
      var e :| e in p.st.skipped && IdOf(e) == id;
      var k: nat :| EntryAt(h, p.s, p.st.receivedCount, e, k) && (k, e.number) !in p.got;
      HeaderInjective(h.g, j, k);
    }
    if id in p.dropped {
      var k: nat :| PassedAt(h, p.s, p.st.receivedCount, id, k) && (k, id.1) !in p.got;
      HeaderInjective(h.g, j, k);
    }
  }

  lemma NotPassed(h: History, p: Party, j: nat, n: nat)
    requires p.Inv(h) && 1 <= j < |h.g.keys| && !(PeerChain(p.s, j) && n < Reach(h, p.s, p.st.receivedCount, j))
    ensures var id := (HeaderAt(h.g, j), n); (j, n) !in p.got && id !in Ids(p.st.skipped) && id !in p.dropped
  {
    hide History.Valid, KeysInv, CountsInv, HeaderAt, ChainAt, Distinct;
    var id := (HeaderAt(h.g, j), n);
    if id in Ids(p.st.skipped) {
      var e :| e in p.st.skipped && IdOf(e) == id;
      var k: nat :| EntryAt(h, p.s, p.st.receivedCount, e, k) && (k, e.number) !in p.got;
      HeaderInjective(h.g, j, k);
    }
    if id in p.dropped {
      var k: nat :| PassedAt(h, p.s, p.st.receivedCount, id, k) && (k, id.1) !in p.got;
      HeaderInjective(h.g, j, k);
    }
  }

  /** Reaching the message would take a step that skips more than MAX_SKIP keys. */
  predicate TooFar(h: History, p: Party, j: nat, n: nat)
    requires j < |h.sent|
  {
    || (j + 1 == p.s && n > p.st.receivedCount + MAX_SKIP)
    || (j == p.s + 1 && !StepInReach(p.st.receivedCount, h.Previous(j), n))
  }

  lemma DeliverableIff(h: History, p: Party, j: nat, n: nat, now: int)
    requires p.Inv(h) && 1 <= j < |h.g.keys| && n < |h.sent[j]| && j % 2 != p.s % 2
    ensures Deliverable(h, p, j, n, now)
       <==> (&& (j, n) !in p.got && !TooFar(h, p, j, n)
             && (HeaderAt(h.g, j), n) !in p.dropped + PrunedAway(p.st.skipped, now))
  {
    hide History.Valid, KeysInv, CacheInv, HeaderAt, Pruned, Ids;
    assert Ids(Pruned(p.st.skipped, now)) <= Ids(p.st.skipped) by {
      PrunedIds(p.st.skipped, now);
    }
    if PeerChain(p.s, j) && n < Reach(h, p.s, p.st.receivedCount, j) {
      PassedOnce(h, p, j, n);
    } else {
      NotPassed(h, p, j, n);
    }
  }

  lemma PrunedIds(skipped: seq<Skipped>, now: int)
    ensures Ids(Pruned(skipped, now)) <= Ids(skipped)
  {
    hide Pruned;
    PrunedIsSubsequence(skipped, now);
  }

  /** In every state that a run can reach, a message of the peer decrypts, to exactly its plaintext, if and only
      if it was not delivered before, its key was not evicted or expired, and no step skips more than MAX_SKIP. */
  lemma DecryptsExactly(y: Session, toInitiator: bool, j: nat, n: nat, now: int, newKey: Secret)
    requires y.Inv() && 1 <= j < |y.h.g.keys| && n < |y.h.sent[j]| && j % 2 == (if toInitiator then 0 else 1)
    ensures var p := y.Side(toInitiator);
            var r := AfterDelivery(p.st, y.h.sent[j][n], y.h.associatedData, now, newKey);
            && (r.plain.Some? <==> (&& (j, n) !in p.got && !TooFar(y.h, p, j, n)
                                    && (HeaderAt(y.h.g, j), n) !in p.dropped + PrunedAway(p.st.skipped, now)))
            && (r.plain.Some? ==> r.plain.value == y.h.sent[j][n].body.plain)
            && (r.plain.None? ==> r.state == p.st)
  {
    hide Party.Inv, AfterDelivery, Deliverable, PartyAfter, TooFar, HeaderAt, PrunedAway;
    var p := y.Side(toInitiator);
    PartyBounds(y.h, p);
    DeliveryExact(y.h, p, j, n, now, newKey);
    DeliverableIff(y.h, p, j, n, now);
  }

  // ----- the bound on the cache -----

  lemma EncryptBoundsCache(s: State, plain: Bytes, associatedData: Bytes, now: int, nonce: nat)
    ensures |AfterEncrypt(s, plain, associatedData, now, nonce).state.skipped| <= MAX_SKIPPED_KEYS
  {
    hide Pruned;
    PrunedIsSubsequence(s.skipped, now);
  }

  lemma SkipBoundsCache(s: State, until: nat, now: int)
    requires |s.skipped| <= MAX_SKIPPED_KEYS
    ensures |AfterSkip(s, until, now).skipped| <= MAX_SKIPPED_KEYS
  {
    hide Pruned, SkipTo;
    if s.receivingChain.Some? && s.headerKeyReceiving.Some? {
      PrunedIsSubsequence(SkipTo(s, until, now).skipped, now);
    }
  }

  /** Whatever the state and the message, and whether or not the message authenticates. */
  lemma DecryptBoundsCache(s: State, m: Message, associatedData: Bytes, now: int, newKey: Secret)
    ensures |AfterDecrypt(s, m, associatedData, now, newKey).state.skipped| <= MAX_SKIPPED_KEYS
  {
    hide Pruned, FirstFit, AfterSkip;
    PrunedIsSubsequence(s.skipped, now);
    var t := s.(skipped := Pruned(s.skipped, now));
    match MatchHeader(t, m.header) {
      case Unreadable =>
      case Current(header) => SkipBoundsCache(t, header.messageNumber, now);
      case Ahead(header) =>
        SkipBoundsCache(t, header.previousChainLength, now);
        SkipBoundsCache(AfterDhRatchet(AfterSkip(t, header.previousChainLength, now), header, newKey), header.messageNumber, now);
    }
  }
}
