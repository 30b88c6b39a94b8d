/**
 What a stolen session state gives away. Whoever takes it may know every Diffie-Hellman secret as well, and may
 apply the key derivations as often as it likes: keys of messages that were sent, or received, are gone.
 */
module RatchetSecrecy {
  import opened Bytes
  import opened Ratchet
  import opened RatchetSync

  /** The key derivations lead from one key to the other, whatever else they are given. */
  predicate LeadsTo(b: Key, k: Key) {
    b == k || match k
              case RootKey(root, _) => LeadsTo(b, root)
              case FirstChainKey(root, _) => LeadsTo(b, root)
              case NextHeaderKey(root, _) => LeadsTo(b, root)
              case NextChainKey(chain) => LeadsTo(b, chain)
              case MessageKey(chain) => LeadsTo(b, chain)
              case _ => false
  }

  predicate IsIn(o: Option<Key>, k: Key) {
    o == Some(k)
  }

  /** Every key in the state, header keys included. */
  predicate Holds(st: State, k: Key) {
    || k == st.rootKey || IsIn(st.sendingChain, k) || IsIn(st.receivingChain, k)
    || IsIn(st.headerKeySending, k) || IsIn(st.headerKeyReceiving, k)
    || k == st.nextHeaderKeySending || k == st.nextHeaderKeyReceiving
    || exists e :: e in st.skipped && e.messageKey == k
  }

  ghost predicate Derivable(st: State, k: Key) {
    exists b :: Holds(st, b) && LeadsTo(b, k)
  }

  // ----- the ancestors of a message key -----

  ghost predicate IsRoot(g: Pairs, j: nat, b: Key)
    requires j < |g.keys|
  {
    exists i: nat :: i <= j && b == RootAt(g, i)
  }

  ghost predicate IsChain(g: Pairs, j: nat, n: nat, b: Key)
    requires 1 <= j < |g.keys|
  {
    exists m: nat :: m <= n && b == ChainAt(g, j, m)
  }

  lemma {:induction false} RootAncestors(g: Pairs, j: nat, b: Key)
    requires j < |g.keys|
    ensures LeadsTo(b, RootAt(g, j)) <==> IsRoot(g, j, b)
  {
    hide IsRoot, LeadsTo, RootAt;
    if j == 0 {
      FirstRootAlone(g, b);
    } else {
      RootAncestors(g, j - 1, b);
      RootsUpTo(g, j, b);
    }
  }

  lemma FirstRootAlone(g: Pairs, b: Key)
    requires 0 < |g.keys|
    ensures LeadsTo(b, RootAt(g, 0)) <==> b == RootAt(g, 0)
    ensures IsRoot(g, 0, b) <==> b == RootAt(g, 0)
  {
  }

  lemma RootsUpTo(g: Pairs, j: nat, b: Key)
    requires 1 <= j < |g.keys|
    ensures IsRoot(g, j, b) <==> b == RootAt(g, j) || IsRoot(g, j - 1, b)
    ensures LeadsTo(b, RootAt(g, j)) <==> b == RootAt(g, j) || LeadsTo(b, RootAt(g, j - 1))
  {
    RootStep(g, j, b);
    hide RootAt, LeadsTo;
    if IsRoot(g, j - 1, b) {
      var i: nat :| i <= j - 1 && b == RootAt(g, i);
      assert IsRoot(g, j, b);
    }
  }

  lemma RootStep(g: Pairs, j: nat, b: Key)
    requires 1 <= j < |g.keys|
    ensures LeadsTo(b, RootAt(g, j)) <==> b == RootAt(g, j) || LeadsTo(b, RootAt(g, j - 1))
  {
    hide Dh, IsRoot;
  }

  lemma {:induction false} ChainAncestors(g: Pairs, j: nat, n: nat, b: Key)
    requires 1 <= j < |g.keys|
    ensures LeadsTo(b, ChainAt(g, j, n)) <==> IsChain(g, j, n, b) || IsRoot(g, j - 1, b)
    decreases n
  {
    hide RootAt, IsRoot;
    if n == 0 {
      RootAncestors(g, j - 1, b);
      assert b == ChainAt(g, j, 0) ==> IsChain(g, j, 0, b);
    } else {
      ChainAncestors(g, j, n - 1, b);
      assert b == ChainAt(g, j, n) ==> IsChain(g, j, n, b);
      if IsChain(g, j, n - 1, b) {
        var m: nat :| m <= n - 1 && b == ChainAt(g, j, m);
        assert IsChain(g, j, n, b);
      }
    }
  }

  lemma KeyAncestors(g: Pairs, j: nat, n: nat, b: Key)
    requires 1 <= j < |g.keys|
    ensures LeadsTo(b, MessageKey(ChainAt(g, j, n)))
       <==> b == MessageKey(ChainAt(g, j, n)) || IsChain(g, j, n, b) || IsRoot(g, j - 1, b)
  {
    hide RootAt, ChainAt, IsRoot, IsChain;
    ChainAncestors(g, j, n, b);
  }

  // ----- no two of the session's keys are one -----

  function Origin(chain: Key): Key {
    match chain
    case NextChainKey(before) => Origin(before)
    case FirstChainKey(root, _) => root
    case other => other
  }

  lemma {:induction false} ChainOrigin(g: Pairs, j: nat, n: nat)
    requires 1 <= j < |g.keys|
    ensures Origin(ChainAt(g, j, n)) == RootAt(g, j - 1)
    ensures ChainAt(g, j, n).FirstChainKey? || ChainAt(g, j, n).NextChainKey?
    decreases n
  {
    hide RootAt;
    if n == 0 {
    } else {
      ChainOrigin(g, j, n - 1);
    }
  }

  /** Chains of different pairs have no key in common. */
  lemma ChainUnique(g: Pairs, i: nat, m: nat, j: nat, n: nat)
    requires 1 <= i < |g.keys| && 1 <= j < |g.keys| && ChainAt(g, i, m) == ChainAt(g, j, n)
    ensures i == j && m == n
  {
    hide RootAt, ChainAt, Origin;
    ChainOrigin(g, i, m);
    ChainOrigin(g, j, n);
    RootDepth(g, i - 1);
    RootDepth(g, j - 1);
    ChainInjective(g, j, m, n);
  }

  lemma ChainIsNoRoot(g: Pairs, i: nat, m: nat, j: nat)
    requires 1 <= i < |g.keys| && j < |g.keys|
    ensures ChainAt(g, i, m) != RootAt(g, j)
  {
    ChainOrigin(g, i, m);
  }

  // ----- what each kind of key in the state gives away -----

  lemma RootGivesNothing(g: Pairs, s: nat, j: nat, n: nat)
    requires 1 <= j <= s < |g.keys|
    ensures !LeadsTo(RootAt(g, s), MessageKey(ChainAt(g, j, n)))
  {
    hide RootAt, ChainAt;
    KeyAncestors(g, j, n, RootAt(g, s));
    RootDepth(g, s);
    forall i: nat | i <= j - 1
      ensures RootAt(g, i) != RootAt(g, s)
    {
      RootDepth(g, i);
    }
    forall m: nat | m <= n
      ensures ChainAt(g, j, m) != RootAt(g, s)
    {
      ChainIsNoRoot(g, j, m, s);
    }
    RootIsNoMessageKey(g, s, ChainAt(g, j, n));
  }

  lemma RootIsNoMessageKey(g: Pairs, s: nat, chain: Key)
    requires s < |g.keys|
    ensures RootAt(g, s) != MessageKey(chain)
  {
  }

  lemma ChainGives(g: Pairs, i: nat, m: nat, j: nat, n: nat)
    requires 1 <= i < |g.keys| && 1 <= j < |g.keys|
    ensures LeadsTo(ChainAt(g, i, m), MessageKey(ChainAt(g, j, n))) <==> i == j && m <= n
  {
    hide RootAt, ChainAt;
    var b := ChainAt(g, i, m);
    KeyAncestors(g, j, n, b);
    ChainOrigin(g, i, m);
    forall k: nat | k <= j - 1
      ensures RootAt(g, k) != b
    {
      ChainIsNoRoot(g, i, m, k);
    }
    forall k: nat | k <= n && b == ChainAt(g, j, k)
      ensures i == j && m == k
    {
      ChainUnique(g, i, m, j, k);
    }
    if i == j && m <= n {
      assert IsChain(g, j, n, b);
    }
  }

  lemma HeaderGivesNothing(g: Pairs, i: nat, j: nat, n: nat)
    requires 1 <= i && i - 2 < |g.keys| && 1 <= j < |g.keys|
    ensures !LeadsTo(HeaderAt(g, i), MessageKey(ChainAt(g, j, n)))
  {
    hide RootAt, ChainAt;
    KeyAncestors(g, j, n, HeaderAt(g, i));
    forall k: nat | k <= j - 1
      ensures RootAt(g, k) != HeaderAt(g, i)
    {
      RootIsNoHeader(g, k, i);
    }
    forall k: nat | k <= n
      ensures ChainAt(g, j, k) != HeaderAt(g, i)
    {
      ChainOrigin(g, j, k);
    }
  }

  lemma RootIsNoHeader(g: Pairs, k: nat, i: nat)
    requires k < |g.keys| && 1 <= i && i - 2 < |g.keys|
    ensures RootAt(g, k) != HeaderAt(g, i)
  {
  }

  lemma MessageKeyGives(g: Pairs, i: nat, m: nat, j: nat, n: nat)
    requires 1 <= i < |g.keys| && 1 <= j < |g.keys|
    ensures LeadsTo(MessageKey(ChainAt(g, i, m)), MessageKey(ChainAt(g, j, n))) <==> i == j && m == n
  {
    hide RootAt, ChainAt;
    var b := MessageKey(ChainAt(g, i, m));
    KeyAncestors(g, j, n, b);
    forall k: nat | k <= j - 1
      ensures RootAt(g, k) != b
    {
      RootIsNoMessageKey(g, k, ChainAt(g, i, m));
    }
    forall k: nat | k <= n
      ensures ChainAt(g, j, k) != b
    {
      ChainOrigin(g, j, k);
    }
    if b == MessageKey(ChainAt(g, j, n)) {
      ChainUnique(g, i, m, j, n);
    }
  }

  // ----- the theorem -----

  /** The state gives away the key of message n of chain j, one of the chains begun so far, if and only if the
      party's own chain or the chain it is receiving has not reached that position yet, or the key is cached. */
  lemma DerivableExactly(h: History, p: Party, j: nat, n: nat)
    requires p.Inv(h) && 1 <= j <= p.s
    ensures Derivable(p.st, MessageKey(ChainAt(h.g, j, n)))
       <==> || (j == p.s && n >= p.st.sentCount)
            || (j + 1 == p.s && n >= p.st.receivedCount)
            || (HeaderAt(h.g, j), n) in Ids(p.st.skipped)
  {
    hide RootAt, ChainAt, HeaderAt, LeadsTo, History.Valid, Distinct, DroppedInv;
    var k := MessageKey(ChainAt(h.g, j, n));
    RootGivesNothing(h.g, p.s, j, n);
    ChainGives(h.g, p.s, p.st.sentCount, j, n);
    HeaderGivesNothing(h.g, p.s, j, n);
    HeaderGivesNothing(h.g, p.s + 1, j, n);
    HeaderGivesNothing(h.g, p.s + 2, j, n);
    if p.s >= 2 {
      HeaderGivesNothing(h.g, p.s - 1, j, n);
      ChainGives(h.g, p.s - 1, p.st.receivedCount, j, n);
    }
    CacheGives(h, p, j, n);
    Witnesses(p.st, k);
  }

  ghost predicate CacheLeadsTo(skipped: seq<Skipped>, k: Key) {
    exists e :: e in skipped && LeadsTo(e.messageKey, k)
  }

  lemma CacheGives(h: History, p: Party, j: nat, n: nat)
    requires p.Inv(h) && 1 <= j <= p.s
    ensures CacheLeadsTo(p.st.skipped, MessageKey(ChainAt(h.g, j, n))) <==> (HeaderAt(h.g, j), n) in Ids(p.st.skipped)
  {
    hide RootAt, ChainAt, HeaderAt, LeadsTo, History.Valid, Distinct, DroppedInv, KeysInv, CountsInv;
    forall e | e in p.st.skipped
      ensures LeadsTo(e.messageKey, MessageKey(ChainAt(h.g, j, n))) <==> IdOf(e) == (HeaderAt(h.g, j), n)
    {
      var i: nat :| EntryAt(h, p.s, p.st.receivedCount, e, i) && (i, e.number) !in p.got;
      MessageKeyGives(h.g, i, e.number, j, n);
      HeaderInjective(h.g, i, j);
    }
  }

  lemma Witnesses(st: State, k: Key)
    ensures Derivable(st, k)
       <==> || LeadsTo(st.rootKey, k) || LeadsTo(st.nextHeaderKeySending, k) || LeadsTo(st.nextHeaderKeyReceiving, k)
            || (st.sendingChain.Some? && LeadsTo(st.sendingChain.value, k))
            || (st.receivingChain.Some? && LeadsTo(st.receivingChain.value, k))
            || (st.headerKeySending.Some? && LeadsTo(st.headerKeySending.value, k))
            || (st.headerKeyReceiving.Some? && LeadsTo(st.headerKeyReceiving.value, k))
            || CacheLeadsTo(st.skipped, k)
  {
    hide LeadsTo;
    assert Holds(st, st.rootKey) && Holds(st, st.nextHeaderKeySending) && Holds(st, st.nextHeaderKeyReceiving);
    assert st.sendingChain.Some? ==> Holds(st, st.sendingChain.value);
    assert st.receivingChain.Some? ==> Holds(st, st.receivingChain.value);
    assert st.headerKeySending.Some? ==> Holds(st, st.headerKeySending.value);
    assert st.headerKeyReceiving.Some? ==> Holds(st, st.headerKeyReceiving.value);
    assert forall e :: e in st.skipped ==> Holds(st, e.messageKey);
  }

  /** Forward secrecy: no message that was delivered, whose key was dropped, or that we sent ourselves can be read
      with the state, and neither can one of an earlier chain of ours. */
  lemma ForwardSecrecy(h: History, p: Party, j: nat, n: nat)
    requires p.Inv(h) && 1 <= j <= p.s && n < |h.sent[j]|
    requires j % 2 == p.s % 2 || (j, n) in p.got || (HeaderAt(h.g, j), n) in p.dropped
    ensures !Derivable(p.st, MessageKey(ChainAt(h.g, j, n)))
  {
    hide RootAt, ChainAt, HeaderAt, Derivable, History.Valid, KeysInv, Distinct;
    DerivableExactly(h, p, j, n);
    NotInCache(h, p, j, n);
  }

  lemma NotInCache(h: History, p: Party, j: nat, n: nat)
    requires p.Inv(h) && 1 <= j <= p.s && n < |h.sent[j]|
    requires j % 2 == p.s % 2 || (j, n) in p.got || (HeaderAt(h.g, j), n) in p.dropped
    ensures (HeaderAt(h.g, j), n) !in Ids(p.st.skipped)
    ensures j + 1 == p.s ==> n < p.st.receivedCount
  {
    hide RootAt, ChainAt, HeaderAt, History.Valid, KeysInv, Distinct;
    var id := (HeaderAt(h.g, j), n);
    forall e | e in p.st.skipped
      ensures IdOf(e) != id
    {
      var i: nat :| EntryAt(h, p.s, p.st.receivedCount, e, i) && (i, e.number) !in p.got;
      HeaderInjective(h.g, i, j);
      assert IdOf(e) in Ids(p.st.skipped);
    }
    if id in p.dropped {
      var i: nat :| PassedAt(h, p.s, p.st.receivedCount, id, i) && (i, id.1) !in p.got;
      HeaderInjective(h.g, i, j);
    }
  }
}
