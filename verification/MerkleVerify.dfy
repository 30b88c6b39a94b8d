/**
 The two iterative verifiers of merkle.go, proved to accept exactly the paths that reproduce the
 claimed roots in the recursive definition of the tree.
 */
module MerkleVerify {
  import opened Bytes
  import opened Merkle
  import opened MerkleClimb

  predicate AllWide(path: seq<Bytes>) {
    forall j :: 0 <= j < |path| ==> |path[j]| == HASH_SIZE
  }

  /** Hash every sibling in, on the side its turn prescribes. */
  function Fold(sha: Sha, seed: Bytes, lefts: seq<bool>, path: seq<Bytes>): Bytes
    requires |lefts| == |path|
    decreases |path|
  {
    if path == [] then seed
    else
      var m := |path| - 1;
      var below := Fold(sha, seed, lefts[..m], path[..m]);
      if lefts[m] then HashChildren(sha, path[m], below) else HashChildren(sha, below, path[m])
  }

  /** Hash in the left-hand siblings only: they are what the older, smaller tree shares. */
  function FoldLefts(sha: Sha, seed: Bytes, lefts: seq<bool>, path: seq<Bytes>): Bytes
    requires |lefts| == |path|
    decreases |path|
  {
    if path == [] then seed
    else
      var m := |path| - 1;
      var below := FoldLefts(sha, seed, lefts[..m], path[..m]);
      if lefts[m] then HashChildren(sha, path[m], below) else below
  }

  lemma FoldStep(sha: Sha, seed: Bytes, lefts: seq<bool>, path: seq<Bytes>, left: bool, node: Bytes)
    requires |lefts| == |path|
    ensures Fold(sha, seed, lefts + [left], path + [node])
         == if left then HashChildren(sha, node, Fold(sha, seed, lefts, path))
            else HashChildren(sha, Fold(sha, seed, lefts, path), node)
    ensures FoldLefts(sha, seed, lefts + [left], path + [node])
         == if left then HashChildren(sha, node, FoldLefts(sha, seed, lefts, path)) else FoldLefts(sha, seed, lefts, path)
  {
    assert (lefts + [left])[..|path|] == lefts && (path + [node])[..|path|] == path;
  }

  lemma WideStep(path: seq<Bytes>)
    ensures path == [] ==> AllWide(path)
    ensures path != [] ==> (AllWide(path) <==> AllWide(path[..|path| - 1]) && |path[|path| - 1]| == HASH_SIZE)
  {
    if path == [] {
      return;
    }
    var m := |path| - 1;
    forall j | 0 <= j < |path| && AllWide(path[..m]) && |path[m]| == HASH_SIZE
      ensures |path[j]| == HASH_SIZE
    {
      if j < m {
        assert path[..m][j] == path[j];
      }
    }
  }

  /** The recursive reading of an audit path is: right length, right widths, then the fold. */
  lemma {:induction false} RootFromPathIsFold(sha: Sha, leaf: Bytes, index: nat, n: nat, path: seq<Bytes>)
    requires index < n
    ensures RootFromPath(sha, leaf, index, n, path)
         == if |path| == |InclusionTurns(index, n)| && AllWide(path)
            then Some(Fold(sha, leaf, InclusionTurns(index, n), path)) else None
    decreases n
  {
    hide HashChildren, AllWide, Pow2, SplitExp, Split;
    WideStep(path);
    if n > 1 && path != [] {
      var k := Split(n);
      var m := |path| - 1;
      assert path == path[..m] + [path[m]];
      if index < k {
        RootFromPathIsFold(sha, leaf, index, k, path[..m]);
        var turns := InclusionTurns(index, k);
        if |turns| == m {
          FoldStep(sha, leaf, turns, path[..m], false, path[m]);
        }
      } else {
        RootFromPathIsFold(sha, leaf, index - k, n - k, path[..m]);
        var turns := InclusionTurns(index - k, n - k);
        if |turns| == m {
          FoldStep(sha, leaf, turns, path[..m], true, path[m]);
        }
      }
    }
  }

  lemma {:induction false} RootsFromPathIsFold(sha: Sha, m: nat, n: nat, seed: Bytes, path: seq<Bytes>)
    requires 1 <= m <= n
    ensures RootsFromPath(sha, m, n, seed, path)
         == if |path| == |ConsistencyTurns(m, n)| && AllWide(path)
            then Some(Roots(FoldLefts(sha, seed, ConsistencyTurns(m, n), path), Fold(sha, seed, ConsistencyTurns(m, n), path)))
            else None
    decreases n
  {
    hide HashChildren, AllWide, Pow2, SplitExp, Split;
    WideStep(path);
    if m < n && path != [] {
      var k := Split(n);
      var l := |path| - 1;
      assert path == path[..l] + [path[l]];
      if m <= k {
        RootsFromPathIsFold(sha, m, k, seed, path[..l]);
        var turns := ConsistencyTurns(m, k);
        if |turns| == l {
          FoldStep(sha, seed, turns, path[..l], false, path[l]);
        }
      } else {
        RootsFromPathIsFold(sha, m - k, n - k, seed, path[..l]);
        var turns := ConsistencyTurns(m - k, n - k);
        if |turns| == l {
          FoldStep(sha, seed, turns, path[..l], true, path[l]);
        }
      }
    }
  }

  /** A walk that stops at the root has taken all turns; one that stops elsewhere has the wrong length. */
  lemma WalkLength(fn: nat, sn: nat, turns: seq<bool>, steps: nat)
    requires Climb(fn, sn, |turns|) == Some(Cursor(0, 0, turns))
    ensures Climb(fn, sn, steps).Some? && Climb(fn, sn, steps).value.sn == 0 <==> steps == |turns|
    ensures Climb(fn, sn, steps).Some? ==> |Climb(fn, sn, steps).value.lefts| == steps
    ensures Climb(fn, sn, steps).None? ==> steps > |turns|
  {
    if steps < |turns| {
      ClimbPrefix(fn, sn, steps, |turns|);
    } else if steps > |turns| {
      ClimbEnd(fn, sn, |turns|, steps);
    }
    ClimbCount(fn, sn, steps);
  }

  lemma {:induction false} ClimbCount(fn: nat, sn: nat, steps: nat)
    ensures Climb(fn, sn, steps).Some? ==> |Climb(fn, sn, steps).value.lefts| == steps
  {
    if steps == 0 {
    } else {
      ClimbCount(fn, sn, steps - 1);
    }
  }

  /** Where a verifier stands after j elements of the path: the loop invariant of both loops. */
  datatype Walk = Walk(fn0: nat, sn0: nat, seed: Bytes, path: seq<Bytes>)
  {
    ghost predicate At(sha: Sha, j: nat, c: Cursor, fr: Bytes, sr: Bytes) {
      && j <= |path| && |c.lefts| == j
      && AllWide(path[..j])
      && Climb(fn0, sn0, j) == Some(c)
      && fr == FoldLefts(sha, seed, c.lefts, path[..j])
      && sr == Fold(sha, seed, c.lefts, path[..j])
    }

    lemma Start(sha: Sha)
      ensures At(sha, 0, Cursor(fn0, sn0, []), seed, seed)
    {
    }

    lemma Advance(sha: Sha, j: nat, c: Cursor, fr: Bytes, sr: Bytes)
      requires At(sha, j, c, fr, sr) && j < |path| && |path[j]| == HASH_SIZE && c.sn != 0
      ensures var left := SiblingLeft(c.fn, c.sn);
              At(sha, j + 1, Cursor(Up(c.fn, c.sn).0, Up(c.fn, c.sn).1, c.lefts + [left]),
                 if left then HashChildren(sha, path[j], fr) else fr,
                 if left then HashChildren(sha, path[j], sr) else HashChildren(sha, sr, path[j]))
    {
      OneStep(fn0, sn0, j, c);
      FoldStep(sha, seed, c.lefts, path[..j], SiblingLeft(c.fn, c.sn), path[j]);
      assert path[..j + 1] == path[..j] + [path[j]];
    }

    /** A path that is too narrow somewhere, or longer than the tree is deep, is refused. */
    lemma Stuck(sha: Sha, j: nat, c: Cursor, fr: Bytes, sr: Bytes, turns: seq<bool>)
      requires At(sha, j, c, fr, sr) && j < |path|
      requires Climb(fn0, sn0, |turns|) == Some(Cursor(0, 0, turns))
      requires |path[j]| != HASH_SIZE || c.sn == 0
      ensures !(|path| == |turns| && AllWide(path))
    {
      WalkLength(fn0, sn0, turns, j);
    }

    lemma Finish(sha: Sha, c: Cursor, fr: Bytes, sr: Bytes, turns: seq<bool>)
      requires At(sha, |path|, c, fr, sr)
      requires Climb(fn0, sn0, |turns|) == Some(Cursor(0, 0, turns))
      ensures c.sn == 0 <==> |path| == |turns| && AllWide(path)
      ensures c.sn == 0 ==> fr == FoldLefts(sha, seed, turns, path) && sr == Fold(sha, seed, turns, path)
    {
      assert path[..|path|] == path;
      WalkLength(fn0, sn0, turns, |path|);
    }
  }

  lemma TrivialAcceptance(sha: Sha, first: int, second: int, path: seq<Bytes>, oldRoot: Bytes, newRoot: Bytes)
    ensures first < 0 || second < first ==> !ConsistencyAccepts(sha, first, second, path, oldRoot, newRoot)
    ensures 0 == first <= second ==> ConsistencyAccepts(sha, first, second, path, oldRoot, newRoot)
    ensures 0 < first == second
         ==> (ConsistencyAccepts(sha, first, second, path, oldRoot, newRoot) <==> path == [] && oldRoot == newRoot)
    ensures 0 < first < second && path == [] ==> !ConsistencyAccepts(sha, first, second, path, oldRoot, newRoot)
  {
  }

  /** Acceptance of a grown log in terms of the folds that the loop computes. */
  lemma AcceptanceIsFold(sha: Sha, first: nat, second: nat, path: seq<Bytes>, oldRoot: Bytes, newRoot: Bytes,
                         seed: Bytes, rest: seq<Bytes>)
    requires 0 < first < second && path != []
    requires var complete := StripOnes(first - 1, second - 1).0 == 0;
             seed == (if complete then oldRoot else path[0]) && rest == (if complete then path else path[1..])
    ensures var turns := ConsistencyTurns(first, second);
            var (fn0, sn0) := StripOnes(first - 1, second - 1);
            && Climb(fn0, sn0, |turns|) == Some(Cursor(0, 0, turns))
            && (ConsistencyAccepts(sha, first, second, path, oldRoot, newRoot)
                <==> |rest| == |turns| && AllWide(rest)
                     && FoldLefts(sha, seed, turns, rest) == oldRoot && Fold(sha, seed, turns, rest) == newRoot)
  {
    hide Climb, Fold, FoldLefts, AllWide, StripOnes, RootsFromPath, ConsistencyTurns, EndsComplete;
    ClimbIsConsistency(first, second, 0);
    RootsFromPathIsFold(sha, first, second, seed, rest);
  }

  /** The inner loop of both verifiers. */
  method ShiftPastZeros(fn0: nat, sn0: nat) returns (fn: nat, sn: nat)
    ensures (fn, sn) == StripZeros(fn0, sn0)
  {
    fn, sn := fn0, sn0;
    while fn != 0 && fn % 2 == 0
      invariant StripZeros(fn, sn) == StripZeros(fn0, sn0)
    {
      fn := fn / 2;
      sn := sn / 2;
    }
  }

  /** The loop in front of the consistency walk. */
  method ShiftPastOnes(fn0: nat, sn0: nat) returns (fn: nat, sn: nat)
    ensures (fn, sn) == StripOnes(fn0, sn0)
  {
    fn, sn := fn0, sn0;
    while fn % 2 == 1
      invariant StripOnes(fn, sn) == StripOnes(fn0, sn0)
      decreases fn
    {
      fn := fn / 2;
      sn := sn / 2;
    }
  }

  method VerifyInclusion(sha: Sha, leafHash: Bytes, index: int, size: int, path: seq<Bytes>, root: Bytes)
    returns (err: Option<ProofError>)
    ensures err.None? <==> InclusionAccepts(sha, leafHash, index, size, path, root)
    ensures err.Some? ==> err.value == if 0 <= index < size then ProofFailed else OutOfRange
  {
    hide Climb, Fold, FoldLefts, AllWide, Walk.At, StripZeros, RootFromPath, InclusionTurns;
    if index < 0 || size <= 0 || index >= size {
      return Some(OutOfRange);
    }
    ghost var turns := InclusionTurns(index, size);
    ClimbIsInclusion(index, size);
    RootFromPathIsFold(sha, leafHash, index, size, path);

    var computed := leafHash;
    var fn: nat, sn: nat := index, size - 1;
    ghost var lefts: seq<bool>, fr := [], leafHash;
    ghost var walk := Walk(fn, sn, leafHash, path);
    walk.Start(sha);
    for j := 0 to |path|
      invariant walk.At(sha, j, Cursor(fn, sn, lefts), fr, computed)
    {
      var sibling := path[j];
      if |sibling| != HASH_SIZE || sn == 0 {
        walk.Stuck(sha, j, Cursor(fn, sn, lefts), fr, computed, turns);
        return Some(ProofFailed);
      }
      walk.Advance(sha, j, Cursor(fn, sn, lefts), fr, computed);
      lefts := lefts + [SiblingLeft(fn, sn)];
      if fn % 2 == 1 || fn == sn {
        computed := HashChildren(sha, sibling, computed);
        fr := HashChildren(sha, sibling, fr);
        fn, sn := ShiftPastZeros(fn, sn);
      } else {
        computed := HashChildren(sha, computed, sibling);
      }
      fn := fn / 2;
      sn := sn / 2;
    }
    walk.Finish(sha, Cursor(fn, sn, lefts), fr, computed, turns);
    if sn != 0 {
      return Some(ProofFailed);
    }
    if computed != root {
      return Some(ProofFailed);
    }
    return None;
  }

  method VerifyConsistency(sha: Sha, first: int, second: int, path: seq<Bytes>, oldRoot: Bytes, newRoot: Bytes)
    returns (err: Option<ProofError>)
    ensures err.None? <==> ConsistencyAccepts(sha, first, second, path, oldRoot, newRoot)
    ensures err.Some? ==> err.value == if first < 0 || second < first then InvalidSizes
                                       else if first < second && path == [] then EmptyProofPath
                                       else ProofFailed
  {
    hide Climb, Fold, FoldLefts, AllWide, Walk.At, StripZeros, StripOnes, ConsistencyTurns, ConsistencyAccepts;
    TrivialAcceptance(sha, first, second, path, oldRoot, newRoot);
    if first < 0 || second < first {
      return Some(InvalidSizes);
    }
    if first == 0 {
      return None;
    }
    if first == second {
      if |path| != 0 || oldRoot != newRoot {
        return Some(ProofFailed);
      }
      return None;
    }
    if |path| == 0 {
      return Some(EmptyProofPath);
    }

    var fn: nat, sn: nat := ShiftPastOnes(first - 1, second - 1);
    var seed, rest := oldRoot, path;
    if fn != 0 {
      seed := path[0];
      rest := path[1..];
    }
    ghost var turns := ConsistencyTurns(first, second);
    AcceptanceIsFold(sha, first, second, path, oldRoot, newRoot, seed, rest);

    var fr, sr := seed, seed;
    ghost var lefts: seq<bool> := [];
    ghost var walk := Walk(fn, sn, seed, rest);
    walk.Start(sha);
    for j := 0 to |rest|
      invariant walk.At(sha, j, Cursor(fn, sn, lefts), fr, sr)
    {
      var node := rest[j];
      if |node| != HASH_SIZE || sn == 0 {
        walk.Stuck(sha, j, Cursor(fn, sn, lefts), fr, sr, turns);
        return Some(ProofFailed);
      }
      walk.Advance(sha, j, Cursor(fn, sn, lefts), fr, sr);
      lefts := lefts + [SiblingLeft(fn, sn)];
      if fn % 2 == 1 || fn == sn {
        fr := HashChildren(sha, node, fr);
        sr := HashChildren(sha, node, sr);
        fn, sn := ShiftPastZeros(fn, sn);
      } else {
        sr := HashChildren(sha, sr, node);
      }
      fn := fn / 2;
      sn := sn / 2;
    }
    walk.Finish(sha, Cursor(fn, sn, lefts), fr, sr, turns);
    if sn != 0 || fr != oldRoot || sr != newRoot {
      return Some(ProofFailed);
    }
    return None;
  }
}
