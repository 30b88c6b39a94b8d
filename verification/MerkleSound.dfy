/**
 What the accepted proofs mean.

 Completeness: the honest prover always convinces the verifier.
 Soundness: whatever convinces the verifier against the root of a leaf list is true of that list, or
 two different strings with the same hash stand among the finitely many that the two sides hashed.
 The sets below list those strings, so a failure of soundness exhibits a collision.
 */
module MerkleSound {
  import opened Bytes
  import opened Merkle

  /** Two different strings of the given set have the same hash. */
  ghost predicate Collision(sha: Sha, inputs: set<Bytes>) {
    exists x, y :: x in inputs && y in inputs && x != y && sha(x) == sha(y)
  }

  lemma CollisionGrows(sha: Sha, small: set<Bytes>, large: set<Bytes>)
    requires small <= large
    ensures Collision(sha, small) ==> Collision(sha, large)
  {
    if Collision(sha, small) {
      var x, y :| x in small && y in small && x != y && sha(x) == sha(y);
      assert x in large && y in large;
    }
  }

  /** The strings hashed to compute a root. */
  function TreeInputs(sha: Sha, leaves: seq<Digest>): set<Bytes>
    decreases |leaves|
  {
    if |leaves| <= 1 then {}
    else
      var k := Split(|leaves|);
      {NodeInput(RootHash(sha, leaves[..k]), RootHash(sha, leaves[k..]))}
      + TreeInputs(sha, leaves[..k]) + TreeInputs(sha, leaves[k..])
  }

  /** The strings a verifier hashes on an audit path that it accepts. */
  function PathInputs(sha: Sha, leaf: Bytes, index: nat, n: nat, path: seq<Bytes>): set<Bytes>
    requires index < n
    requires RootFromPath(sha, leaf, index, n, path).Some?
    decreases n
  {
    if n == 1 then {}
    else
      var k := Split(n);
      var top, rest := path[|path| - 1], path[..|path| - 1];
      if index < k then
        {NodeInput(RootFromPath(sha, leaf, index, k, rest).value, top)} + PathInputs(sha, leaf, index, k, rest)
      else
        {NodeInput(top, RootFromPath(sha, leaf, index - k, n - k, rest).value)}
        + PathInputs(sha, leaf, index - k, n - k, rest)
  }

  /** The strings a verifier hashes towards the newer root on a consistency path that it accepts. */
  function GrowthInputs(sha: Sha, m: nat, n: nat, seed: Bytes, path: seq<Bytes>): set<Bytes>
    requires 1 <= m <= n
    requires RootsFromPath(sha, m, n, seed, path).Some?
    decreases n
  {
    if m == n then {}
    else
      var k := Split(n);
      var top, rest := path[|path| - 1], path[..|path| - 1];
      if m <= k then
        {NodeInput(RootsFromPath(sha, m, k, seed, rest).value.after, top)} + GrowthInputs(sha, m, k, seed, rest)
      else
        {NodeInput(top, RootsFromPath(sha, m - k, n - k, seed, rest).value.after)}
        + GrowthInputs(sha, m - k, n - k, seed, rest)
  }

  lemma NodeInputInjective(a: Bytes, b: Bytes, x: Bytes, y: Bytes)
    requires NodeInput(a, b) == NodeInput(x, y)
    requires |a| == |x| || |b| == |y|
    ensures a == x && b == y
  {
    assert |NodeInput(a, b)| == 1 + |a| + |b| && |NodeInput(x, y)| == 1 + |x| + |y|;
    SplitEqualPrefix([1] + a, [1] + x, b, y);
    SplitEqualPrefix([1], [1], a, x);
  }

  /** Equal node hashes have equal children, one of which has the right width, or collide. */
  lemma SameChildren(sha: Sha, a: Bytes, b: Bytes, x: Bytes, y: Bytes, inputs: set<Bytes>)
    requires HashChildren(sha, a, b) == HashChildren(sha, x, y)
    requires |a| == |x| || |b| == |y|
    requires NodeInput(a, b) in inputs && NodeInput(x, y) in inputs
    ensures (a == x && b == y) || Collision(sha, inputs)
  {
    if NodeInput(a, b) == NodeInput(x, y) {
      NodeInputInjective(a, b, x, y);
    }
  }

  /** Leaf lists of one length with the same root are the same, or a collision is exhibited. */
  lemma {:induction false} SameRootSameLeaves(sha: Sha, a: seq<Digest>, b: seq<Digest>)
    requires |a| == |b| && RootHash(sha, a) == RootHash(sha, b)
    ensures a == b || Collision(sha, TreeInputs(sha, a) + TreeInputs(sha, b))
    decreases |a|
  {
    hide Pow2, SplitExp, Split, Collision, NodeInput, HashChildren;
    if |a| <= 1 {
    } else {
      var k := Split(|a|);
      var inputs := TreeInputs(sha, a) + TreeInputs(sha, b);
      SameChildren(sha, RootHash(sha, a[..k]), RootHash(sha, a[k..]), RootHash(sha, b[..k]), RootHash(sha, b[k..]), inputs);
      if !Collision(sha, inputs) {
        CollisionGrows(sha, TreeInputs(sha, a[..k]) + TreeInputs(sha, b[..k]), inputs);
        CollisionGrows(sha, TreeInputs(sha, a[k..]) + TreeInputs(sha, b[k..]), inputs);
        SameRootSameLeaves(sha, a[..k], b[..k]);
        SameRootSameLeaves(sha, a[k..], b[k..]);
        assert a == a[..k] + a[k..] && b == b[..k] + b[k..];
      }
    }
  }

  // ----- inclusion -----

  lemma {:induction false} InclusionComplete(sha: Sha, leaves: seq<Digest>, index: nat)
    requires index < |leaves|
    ensures RootFromPath(sha, leaves[index], index, |leaves|, InclusionPath(sha, leaves, index))
         == Some(RootHash(sha, leaves))
    decreases |leaves|
  {
    hide NodeInput, HashChildren, Split, Pow2, SplitExp;
    if |leaves| > 1 {
      var k := Split(|leaves|);
      var path := InclusionPath(sha, leaves, index);
      if index < k {
        InclusionComplete(sha, leaves[..k], index);
        assert path[..|path| - 1] == InclusionPath(sha, leaves[..k], index);
      } else {
        InclusionComplete(sha, leaves[k..], index - k);
        assert path[..|path| - 1] == InclusionPath(sha, leaves[k..], index - k);
      }
    }
  }

  lemma {:induction false} InclusionSound(sha: Sha, leaves: seq<Digest>, leaf: Bytes, index: nat, path: seq<Bytes>)
    requires index < |leaves|
    requires RootFromPath(sha, leaf, index, |leaves|, path) == Some(RootHash(sha, leaves))
    ensures || (leaf == leaves[index] && path == InclusionPath(sha, leaves, index))
            || Collision(sha, TreeInputs(sha, leaves) + PathInputs(sha, leaf, index, |leaves|, path))
    decreases |leaves|
  {
    hide Pow2, SplitExp, Split, Collision, NodeInput, HashChildren;
    if |leaves| > 1 {
      var n, k := |leaves|, Split(|leaves|);
      var left, right := leaves[..k], leaves[k..];
      var top, rest := path[|path| - 1], path[..|path| - 1];
      var inputs := TreeInputs(sha, leaves) + PathInputs(sha, leaf, index, n, path);
      assert path == rest + [top];
      if index < k {
        var sub := RootFromPath(sha, leaf, index, k, rest).value;
        SameChildren(sha, RootHash(sha, left), RootHash(sha, right), sub, top, inputs);
        if !Collision(sha, inputs) {
          InclusionSound(sha, left, leaf, index, rest);
          CollisionGrows(sha, TreeInputs(sha, left) + PathInputs(sha, leaf, index, k, rest), inputs);
        }
      } else {
        var sub := RootFromPath(sha, leaf, index - k, n - k, rest).value;
        SameChildren(sha, RootHash(sha, left), RootHash(sha, right), top, sub, inputs);
        if !Collision(sha, inputs) {
          InclusionSound(sha, right, leaf, index - k, rest);
          CollisionGrows(sha, TreeInputs(sha, right) + PathInputs(sha, leaf, index - k, n - k, rest), inputs);
        }
      }
    }
  }

  // ----- consistency -----

  /** Cutting a list behind its split point leaves the left subtree alone. */
  lemma RootOfPrefix(sha: Sha, leaves: seq<Digest>, m: nat)
    requires |leaves| >= 2 && Split(|leaves|) < m <= |leaves|
    ensures var k := Split(|leaves|);
            RootHash(sha, leaves[..m]) == HashChildren(sha, RootHash(sha, leaves[..k]), RootHash(sha, leaves[k..][..m - k]))
  {
    var k := Split(|leaves|);
    SplitUnique(m, SplitExp(|leaves|));
    assert leaves[..m][..k] == leaves[..k];
    assert leaves[..m][k..] == leaves[k..][..m - k];
  }

  /** The seed and the rest of the honest path, as the verifier takes them apart. */
  function HonestSeed(sha: Sha, leaves: seq<Digest>, m: nat): Digest
    requires 1 <= m <= |leaves|
    decreases |leaves|
  {
    if m == |leaves| then RootHash(sha, leaves)
    else
      var k := Split(|leaves|);
      if m <= k then HonestSeed(sha, leaves[..k], m) else HonestSeed(sha, leaves[k..], m - k)
  }

  function HonestRest(sha: Sha, leaves: seq<Digest>, m: nat): seq<Digest>
    requires 1 <= m <= |leaves|
    decreases |leaves|
  {
    if m == |leaves| then []
    else
      var k := Split(|leaves|);
      if m <= k then HonestRest(sha, leaves[..k], m) + [RootHash(sha, leaves[k..])]
      else HonestRest(sha, leaves[k..], m - k) + [RootHash(sha, leaves[..k])]
  }

  lemma {:induction false} ConsistencyPathParts(sha: Sha, leaves: seq<Digest>, m: nat, complete: bool)
    requires 1 <= m <= |leaves|
    ensures ConsistencyPath(sha, leaves, m, complete)
         == (if complete && EndsComplete(m, |leaves|) then [] else [HonestSeed(sha, leaves, m)]) + HonestRest(sha, leaves, m)
    ensures EndsComplete(m, |leaves|) ==> HonestSeed(sha, leaves, m) == RootHash(sha, leaves[..m])
    decreases |leaves|
  {
    hide HashChildren, Pow2, SplitExp, Split;
    if m == |leaves| {
      assert leaves[..m] == leaves;
    } else {
      var k := Split(|leaves|);
      if m <= k {
        ConsistencyPathParts(sha, leaves[..k], m, complete);
        assert leaves[..k][..m] == leaves[..m];
      } else {
        ConsistencyPathParts(sha, leaves[k..], m - k, false);
      }
    }
  }

  ghost predicate GrowthHonest(sha: Sha, leaves: seq<Digest>, m: nat, seed: Bytes, path: seq<Bytes>)
    requires 1 <= m <= |leaves|
  {
    && seed == HonestSeed(sha, leaves, m) && path == HonestRest(sha, leaves, m)
    && RootsFromPath(sha, m, |leaves|, seed, path) == Some(Roots(RootHash(sha, leaves[..m]), RootHash(sha, leaves)))
  }

  lemma GrowthHonestLeft(sha: Sha, leaves: seq<Digest>, m: nat, seed: Bytes, rest: seq<Bytes>)
    requires |leaves| >= 2 && 1 <= m <= Split(|leaves|)
    requires GrowthHonest(sha, leaves[..Split(|leaves|)], m, seed, rest)
    ensures GrowthHonest(sha, leaves, m, seed, rest + [RootHash(sha, leaves[Split(|leaves|)..])])
  {
    hide NodeInput, HashChildren, Pow2, SplitExp;
    var k := Split(|leaves|);
    var path := rest + [RootHash(sha, leaves[k..])];
    assert path[..|path| - 1] == rest;
    assert leaves[..k][..m] == leaves[..m];
  }

  lemma GrowthHonestRight(sha: Sha, leaves: seq<Digest>, m: nat, seed: Bytes, rest: seq<Bytes>)
    requires |leaves| >= 2 && Split(|leaves|) < m < |leaves|
    requires GrowthHonest(sha, leaves[Split(|leaves|)..], m - Split(|leaves|), seed, rest)
    ensures GrowthHonest(sha, leaves, m, seed, rest + [RootHash(sha, leaves[..Split(|leaves|)])])
  {
    hide HashChildren, Pow2, SplitExp, Split;
    TreeTop(sha, leaves);
    var k := Split(|leaves|);
    var path := rest + [RootHash(sha, leaves[..k])];
    assert path[..|path| - 1] == rest;
    RootOfPrefix(sha, leaves, m);
  }

  /** The topmost element of an accepted path, and what lies below it. */
  lemma GrowthTop(sha: Sha, m: nat, n: nat, seed: Bytes, path: seq<Bytes>)
    requires 1 <= m < n && RootsFromPath(sha, m, n, seed, path).Some?
    ensures path != [] && |path[|path| - 1]| == HASH_SIZE
    ensures var top, rest, k := path[|path| - 1], path[..|path| - 1], Split(n);
      var (m', n') := if m <= k then (m, k) else (m - k, n - k);
      && RootsFromPath(sha, m', n', seed, rest).Some?
      && var sub := RootsFromPath(sha, m', n', seed, rest).value.after;
         var (l, r) := if m <= k then (sub, top) else (top, sub);
         && RootsFromPath(sha, m, n, seed, path).value.after == HashChildren(sha, l, r)
         && GrowthInputs(sha, m, n, seed, path) == {NodeInput(l, r)} + GrowthInputs(sha, m', n', seed, rest)
  {
  }

  lemma TreeTop(sha: Sha, leaves: seq<Digest>)
    requires |leaves| >= 2
    ensures var k := Split(|leaves|);
      var l, r := RootHash(sha, leaves[..k]), RootHash(sha, leaves[k..]);
      && RootHash(sha, leaves) == HashChildren(sha, l, r)
      && TreeInputs(sha, leaves) == {NodeInput(l, r)} + TreeInputs(sha, leaves[..k]) + TreeInputs(sha, leaves[k..])
  {
  }

  /** The conclusion of soundness. */
  ghost predicate GrowthHonestOrCollision(sha: Sha, leaves: seq<Digest>, m: nat, seed: Bytes, path: seq<Bytes>)
    requires 1 <= m <= |leaves|
    requires RootsFromPath(sha, m, |leaves|, seed, path).Some?
  {
    || GrowthHonest(sha, leaves, m, seed, path)
    || Collision(sha, TreeInputs(sha, leaves) + GrowthInputs(sha, m, |leaves|, seed, path))
  }

  lemma GrowthSoundWhole(sha: Sha, leaves: seq<Digest>, seed: Bytes, path: seq<Bytes>)
    requires leaves != []
    requires RootsFromPath(sha, |leaves|, |leaves|, seed, path).Some?
    requires RootsFromPath(sha, |leaves|, |leaves|, seed, path).value.after == RootHash(sha, leaves)
    ensures GrowthHonestOrCollision(sha, leaves, |leaves|, seed, path)
  {
    assert leaves[..|leaves|] == leaves;
  }

  lemma GrowthSoundLeft(sha: Sha, leaves: seq<Digest>, m: nat, seed: Bytes, rest: seq<Bytes>, top: Bytes)
    requires |leaves| >= 2 && 1 <= m <= Split(|leaves|) && |top| == HASH_SIZE
    requires RootsFromPath(sha, m, Split(|leaves|), seed, rest).Some?
    requires RootsFromPath(sha, m, |leaves|, seed, rest + [top]).Some?
    requires RootsFromPath(sha, m, |leaves|, seed, rest + [top]).value.after == RootHash(sha, leaves)
    requires RootsFromPath(sha, m, Split(|leaves|), seed, rest).value.after == RootHash(sha, leaves[..Split(|leaves|)])
         ==> GrowthHonestOrCollision(sha, leaves[..Split(|leaves|)], m, seed, rest)
    ensures GrowthHonestOrCollision(sha, leaves, m, seed, rest + [top])
  {
    hide Split, Collision, NodeInput, HashChildren, GrowthHonest, RootsFromPath, GrowthInputs, TreeInputs, RootHash;
    var n, k, path := |leaves|, Split(|leaves|), rest + [top];
    var sub := RootsFromPath(sha, m, k, seed, rest).value.after;
    var inputs := TreeInputs(sha, leaves) + GrowthInputs(sha, m, n, seed, path);
    assert path[..|path| - 1] == rest;
    GrowthTop(sha, m, n, seed, path);
    TreeTop(sha, leaves);
    SameChildren(sha, RootHash(sha, leaves[..k]), RootHash(sha, leaves[k..]), sub, top, inputs);
    if !Collision(sha, inputs) {
      CollisionGrows(sha, TreeInputs(sha, leaves[..k]) + GrowthInputs(sha, m, k, seed, rest), inputs);
      GrowthHonestLeft(sha, leaves, m, seed, rest);
    }
  }

  lemma GrowthSoundRight(sha: Sha, leaves: seq<Digest>, m: nat, seed: Bytes, rest: seq<Bytes>, top: Bytes)
    requires |leaves| >= 2 && Split(|leaves|) < m < |leaves| && |top| == HASH_SIZE
    requires RootsFromPath(sha, m - Split(|leaves|), |leaves| - Split(|leaves|), seed, rest).Some?
    requires RootsFromPath(sha, m, |leaves|, seed, rest + [top]).Some?
    requires RootsFromPath(sha, m, |leaves|, seed, rest + [top]).value.after == RootHash(sha, leaves)
    requires RootsFromPath(sha, m - Split(|leaves|), |leaves| - Split(|leaves|), seed, rest).value.after
             == RootHash(sha, leaves[Split(|leaves|)..])
         ==> GrowthHonestOrCollision(sha, leaves[Split(|leaves|)..], m - Split(|leaves|), seed, rest)
    ensures GrowthHonestOrCollision(sha, leaves, m, seed, rest + [top])
  {
    hide Split, Collision, NodeInput, HashChildren, GrowthHonest, RootsFromPath, GrowthInputs, TreeInputs, RootHash;
    var n, k, path := |leaves|, Split(|leaves|), rest + [top];
    var sub := RootsFromPath(sha, m - k, n - k, seed, rest).value.after;
    var inputs := TreeInputs(sha, leaves) + GrowthInputs(sha, m, n, seed, path);
    assert path[..|path| - 1] == rest;
    GrowthTop(sha, m, n, seed, path);
    TreeTop(sha, leaves);
    SameChildren(sha, RootHash(sha, leaves[..k]), RootHash(sha, leaves[k..]), top, sub, inputs);
    if !Collision(sha, inputs) {
      CollisionGrows(sha, TreeInputs(sha, leaves[k..]) + GrowthInputs(sha, m - k, n - k, seed, rest), inputs);
      GrowthHonestRight(sha, leaves, m, seed, rest);
    }
  }

  lemma {:induction false} GrowthSound(sha: Sha, leaves: seq<Digest>, m: nat, seed: Bytes, path: seq<Bytes>)
    requires 1 <= m <= |leaves|
    requires RootsFromPath(sha, m, |leaves|, seed, path).Some?
    requires RootsFromPath(sha, m, |leaves|, seed, path).value.after == RootHash(sha, leaves)
    ensures GrowthHonestOrCollision(sha, leaves, m, seed, path)
    decreases |leaves|
  {
    hide Split, RootsFromPath, GrowthHonestOrCollision, RootHash;
    if m == |leaves| {
      GrowthSoundWhole(sha, leaves, seed, path);
    } else {
      var n, k := |leaves|, Split(|leaves|);
      GrowthTop(sha, m, n, seed, path);
      var top, rest := path[|path| - 1], path[..|path| - 1];
      assert path == rest + [top];
      if m <= k {
        if RootsFromPath(sha, m, k, seed, rest).value.after == RootHash(sha, leaves[..k]) {
          GrowthSound(sha, leaves[..k], m, seed, rest);
        }
        GrowthSoundLeft(sha, leaves, m, seed, rest, top);
      } else {
        if RootsFromPath(sha, m - k, n - k, seed, rest).value.after == RootHash(sha, leaves[k..]) {
          GrowthSound(sha, leaves[k..], m - k, seed, rest);
        }
        GrowthSoundRight(sha, leaves, m, seed, rest, top);
      }
    }
  }

  lemma {:induction false} GrowthComplete(sha: Sha, leaves: seq<Digest>, m: nat)
    requires 1 <= m <= |leaves|
    ensures GrowthHonest(sha, leaves, m, HonestSeed(sha, leaves, m), HonestRest(sha, leaves, m))
    decreases |leaves|
  {
    if m == |leaves| {
      assert leaves[..m] == leaves;
    } else {
      var k := Split(|leaves|);
      hide GrowthHonest;
      if m <= k {
        GrowthComplete(sha, leaves[..k], m);
        GrowthHonestLeft(sha, leaves, m, HonestSeed(sha, leaves[..k], m), HonestRest(sha, leaves[..k], m));
      } else {
        GrowthComplete(sha, leaves[k..], m - k);
        GrowthHonestRight(sha, leaves, m, HonestSeed(sha, leaves[k..], m - k), HonestRest(sha, leaves[k..], m - k));
      }
    }
  }

  // ----- the statements about the verifiers' verdicts -----

  /** Every audit path the prover hands out is accepted. */
  lemma HonestInclusionAccepted(sha: Sha, leaves: seq<Digest>, index: nat)
    requires index < |leaves|
    ensures InclusionAccepts(sha, leaves[index], index, |leaves|, InclusionPath(sha, leaves, index), RootHash(sha, leaves))
  {
    InclusionComplete(sha, leaves, index);
  }

  /** Every consistency path the prover hands out is accepted, also for an empty or unchanged log. */
  lemma HonestConsistencyAccepted(sha: Sha, leaves: seq<Digest>, first: nat, second: nat)
    requires first <= second <= |leaves|
    ensures ConsistencyProof(sha, leaves, first, second).Ok?
    ensures ConsistencyAccepts(sha, first, second, ConsistencyProof(sha, leaves, first, second).value,
                               RootHash(sha, leaves[..first]), RootHash(sha, leaves[..second]))
  {
    if 0 < first < second {
      var tree := leaves[..second];
      assert tree[..first] == leaves[..first];
      ConsistencyPathParts(sha, tree, first, true);
      GrowthComplete(sha, tree, first);
      var path := ConsistencyPath(sha, tree, first, true);
      if EndsComplete(first, second) {
        assert path == HonestRest(sha, tree, first);
      } else {
        assert path[1..] == HonestRest(sha, tree, first);
      }
    }
  }

  /** The strings hashed by the verifier of a consistency path. */
  function ConsistencyInputs(sha: Sha, first: nat, second: nat, path: seq<Bytes>, oldRoot: Bytes, newRoot: Bytes): set<Bytes>
    requires ConsistencyAccepts(sha, first, second, path, oldRoot, newRoot)
  {
    if first == 0 || first == second then {}
    else
      var complete := EndsComplete(first, second);
      GrowthInputs(sha, first, second, if complete then oldRoot else path[0], if complete then path else path[1..])
  }

  /** A path that links an old root to the root of a leaf list proves that the old root is the root
      of the list's first leaves, and is the honest path; or it exhibits a collision. */
  lemma AcceptedConsistencySound(sha: Sha, leaves: seq<Digest>, first: nat, path: seq<Bytes>, oldRoot: Bytes)
    requires 0 < first <= |leaves|
    requires ConsistencyAccepts(sha, first, |leaves|, path, oldRoot, RootHash(sha, leaves))
    ensures || (oldRoot == RootHash(sha, leaves[..first]) && path == ConsistencyProof(sha, leaves, first, |leaves|).value)
            || Collision(sha, TreeInputs(sha, leaves)
                              + ConsistencyInputs(sha, first, |leaves|, path, oldRoot, RootHash(sha, leaves)))
  {
    hide Collision, RootHash, TreeInputs, HonestSeed, HonestRest, RootsFromPath, ConsistencyPath, EndsComplete, GrowthInputs;
    assert leaves[..|leaves|] == leaves;
    if first < |leaves| {
      GrowthFromAccepted(sha, leaves, first, path, oldRoot);
      ConsistencyPathParts(sha, leaves, first, true);
    }
  }

  lemma GrowthFromAccepted(sha: Sha, leaves: seq<Digest>, first: nat, path: seq<Bytes>, oldRoot: Bytes)
    requires 0 < first < |leaves|
    requires ConsistencyAccepts(sha, first, |leaves|, path, oldRoot, RootHash(sha, leaves))
    ensures || (&& oldRoot == RootHash(sha, leaves[..first])
                && path == (if EndsComplete(first, |leaves|) then [] else [HonestSeed(sha, leaves, first)])
                           + HonestRest(sha, leaves, first))
            || Collision(sha, TreeInputs(sha, leaves)
                              + ConsistencyInputs(sha, first, |leaves|, path, oldRoot, RootHash(sha, leaves)))
  {
    hide Collision, RootHash, TreeInputs, HonestSeed, HonestRest, RootsFromPath, EndsComplete, GrowthInputs;
    var complete := EndsComplete(first, |leaves|);
    var seed, rest := if complete then oldRoot else path[0], if complete then path else path[1..];
    GrowthSound(sha, leaves, first, seed, rest);
    if !complete {
      assert path == [path[0]] + path[1..];
    }
  }

  /** The bound first > 0 is needed: an empty older tree is accepted with any root and any path. */
  lemma EmptyTreeAlwaysAccepted(sha: Sha, second: nat, path: seq<Bytes>, oldRoot: Bytes, newRoot: Bytes)
    ensures ConsistencyAccepts(sha, 0, second, path, oldRoot, newRoot)
  {
  }
}
