/**
 The Merkle tree of the key transparency log: tree hash, audit path and consistency path,
 as sections 2.1, 2.1.1 and 2.1.2 of RFC 6962 define them and merkle.go computes them.

 SHA-256 is a parameter: nothing below depends on which function it is.
 */
module Merkle {
  import opened Bytes

  type Sha = Bytes -> Digest

  datatype ProofError = OutOfRange | ProofFailed | InvalidSizes | EmptyProofPath

  function LeafInput(entry: Bytes): Bytes {
    [0] + entry
  }

  function NodeInput(left: Bytes, right: Bytes): Bytes {
    [1] + left + right
  }

  function HashLeaf(sha: Sha, entry: Bytes): Digest {
    sha(LeafInput(entry))
  }

  function HashChildren(sha: Sha, left: Bytes, right: Bytes): Digest {
    sha(NodeInput(left, right))
  }

  // ----- where a tree splits -----

  function Pow2(e: nat): (p: nat)
    ensures p >= 1
  {
    if e == 0 then 1 else 2 * Pow2(e - 1)
  }

  /** The exponent of the largest power of two strictly below n. */
  function SplitExp(n: nat): (e: nat)
    requires n >= 2
    ensures Pow2(e) < n <= Pow2(e + 1)
  {
    if n == 2 then 0 else 1 + SplitExp((n + 1) / 2)
  }

  function Split(n: nat): (k: nat)
    requires n >= 2
    ensures 1 <= k < n <= 2 * k
  {
    Pow2(SplitExp(n))
  }

  lemma {:induction false} Pow2Monotonic(d: nat, e: nat)
    requires d <= e
    ensures Pow2(d) <= Pow2(e)
  {
    if d < e {
      Pow2Monotonic(d, e - 1);
    }
  }

  /** Split(n) is the only power of two in [n/2, n): "the largest strictly less than n". */
  lemma SplitUnique(n: nat, e: nat)
    requires n >= 2
    requires Pow2(e) < n <= 2 * Pow2(e)
    ensures Split(n) == Pow2(e) && SplitExp(n) == e
  {
    var s := SplitExp(n);
    if s < e {
      Pow2Monotonic(s + 1, e);
    } else if e < s {
      Pow2Monotonic(e + 1, s);
    }
  }

  /** The doubling loop; for n < 2 it stops at once. */
  method SplitPoint(n: int) returns (k: nat)
    ensures n >= 2 ==> k == Split(n)
    ensures n < 2 ==> k == 1
  {
    k := 1;
    ghost var e := 0;
    while k * 2 < n
      invariant k == Pow2(e)
      invariant e == 0 || k < n
    {
      k := k * 2;
      e := e + 1;
    }
    if n >= 2 {
      SplitUnique(n, e);
    }
  }

  // ----- the recursive side -----

  function RootHash(sha: Sha, leaves: seq<Digest>): Digest
    decreases |leaves|
  {
    if |leaves| == 0 then sha([])
    else if |leaves| == 1 then leaves[0]
    else
      var k := Split(|leaves|);
      HashChildren(sha, RootHash(sha, leaves[..k]), RootHash(sha, leaves[k..]))
  }

  function InclusionPath(sha: Sha, leaves: seq<Digest>, index: nat): seq<Digest>
    requires index < |leaves|
    decreases |leaves|
  {
    if |leaves| == 1 then []
    else
      var k := Split(|leaves|);
      if index < k then InclusionPath(sha, leaves[..k], index) + [RootHash(sha, leaves[k..])]
      else InclusionPath(sha, leaves[k..], index - k) + [RootHash(sha, leaves[..k])]
  }

  function InclusionProof(sha: Sha, leaves: seq<Digest>, index: int): Result<seq<Digest>, ProofError> {
    if index < 0 || index >= |leaves| then Err(OutOfRange)
    else Ok(InclusionPath(sha, leaves, index))
  }

  function ConsistencyPath(sha: Sha, leaves: seq<Digest>, first: nat, isCompleteSubtree: bool): seq<Digest>
    requires 1 <= first <= |leaves|
    decreases |leaves|
  {
    if first == |leaves| then
      if isCompleteSubtree then [] else [RootHash(sha, leaves)]
    else
      var k := Split(|leaves|);
      if first <= k then ConsistencyPath(sha, leaves[..k], first, isCompleteSubtree) + [RootHash(sha, leaves[k..])]
      else ConsistencyPath(sha, leaves[k..], first - k, false) + [RootHash(sha, leaves[..k])]
  }

  function ConsistencyProof(sha: Sha, leaves: seq<Digest>, first: int, second: int): Result<seq<Digest>, ProofError> {
    if first < 0 || second < first || second > |leaves| then Err(InvalidSizes)
    else if first == 0 || first == second then Ok([])
    else Ok(ConsistencyPath(sha, leaves[..second], first, true))
  }

  // ----- what a path proves, read from the root down -----

  /** The root that a leaf hash and an audit path reproduce in a tree of n leaves,
      if the path has the length and the hash widths that place in the tree requires. */
  function RootFromPath(sha: Sha, leaf: Bytes, index: nat, n: nat, path: seq<Bytes>): Option<Bytes>
    requires index < n
    decreases n
  {
    if n == 1 then
      if path == [] then Some(leaf) else None
    else if path == [] || |path[|path| - 1]| != HASH_SIZE then None
    else
      var k := Split(n);
      var top, rest := path[|path| - 1], path[..|path| - 1];
      if index < k then
        match RootFromPath(sha, leaf, index, k, rest)
        case Some(r) => Some(HashChildren(sha, r, top))
        case None => None
      else
        match RootFromPath(sha, leaf, index - k, n - k, rest)
        case Some(r) => Some(HashChildren(sha, top, r))
        case None => None
  }

  datatype Roots = Roots(before: Bytes, after: Bytes)

  /** The pair of roots (of the first m leaves, of all n) that a seed and a path reproduce.
      The seed stands for the subtree at which the m-leaf tree ends. */
  function RootsFromPath(sha: Sha, m: nat, n: nat, seed: Bytes, path: seq<Bytes>): Option<Roots>
    requires 1 <= m <= n
    decreases n
  {
    if m == n then
      if path == [] then Some(Roots(seed, seed)) else None
    else if path == [] || |path[|path| - 1]| != HASH_SIZE then None
    else
      var k := Split(n);
      var top, rest := path[|path| - 1], path[..|path| - 1];
      if m <= k then
        match RootsFromPath(sha, m, k, seed, rest)
        case Some(r) => Some(Roots(r.before, HashChildren(sha, r.after, top)))
        case None => None
      else
        match RootsFromPath(sha, m - k, n - k, seed, rest)
        case Some(r) => Some(Roots(HashChildren(sha, top, r.before), HashChildren(sha, top, r.after)))
        case None => None
  }

  /** Whether the recursion for the first m of n leaves only ever turns left, i.e. whether
      m is a power of two and its root need not be repeated in the path. */
  predicate EndsComplete(m: nat, n: nat)
    requires 1 <= m <= n
    decreases n
  {
    m == n || (m <= Split(n) && EndsComplete(m, Split(n)))
  }

  predicate InclusionAccepts(sha: Sha, leaf: Bytes, index: int, size: int, path: seq<Bytes>, root: Bytes) {
    0 <= index < size && RootFromPath(sha, leaf, index, size, path) == Some(root)
  }

  predicate ConsistencyAccepts(sha: Sha, first: int, second: int, path: seq<Bytes>, oldRoot: Bytes, newRoot: Bytes) {
    && 0 <= first <= second
    && (|| first == 0
        || (first == second && path == [] && oldRoot == newRoot)
        || (&& 0 < first < second
            && path != []
            && var seeded := EndsComplete(first, second);
               var seed, rest := if seeded then oldRoot else path[0], if seeded then path else path[1..];
               RootsFromPath(sha, first, second, seed, rest) == Some(Roots(oldRoot, newRoot))))
  }
}
