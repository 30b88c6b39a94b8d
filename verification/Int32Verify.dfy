/**
 The client's mirror of the two verifiers, in transparency.ts. JavaScript converts the operands of
 & and >> to signed 32-bit integers, so the mirror computes with wrapped indices.

 Up to 2^31 entries both languages give the same verdict on every proof. The bound is sharp: one
 entry more and an honest proof is refused.
 */
module Int32Verify {
  import opened Bytes
  import opened Merkle
  import opened MerkleClimb
  import opened MerkleVerify

  const MAX_SIZE: nat := 0x8000_0000

  function ToInt32(x: int): int {
    var low := x % TWO32;
    if low >= 0x8000_0000 then low - TWO32 else low
  }

  /** x >> 1 */
  function Shr1(x: int): int {
    ToInt32(x) / 2
  }

  /** (x & 1) === 1 */
  predicate Odd(x: int) {
    ToInt32(x) % 2 == 1
  }

  lemma Int32Small(x: int)
    requires 0 <= x < MAX_SIZE
    ensures Shr1(x) == x / 2 && (Odd(x) <==> x % 2 == 1)
  {
  }

  lemma Int32Shrinks(x: int)
    ensures x >= 0 ==> -x <= ToInt32(x) <= x
    ensures x < 0 ==> ToInt32(x) <= -x && (x >= -0x8000_0000 ==> ToInt32(x) == x)
    ensures -0x8000_0000 <= ToInt32(x) < 0x8000_0000
    ensures x < -0x8000_0000 ==> x < ToInt32(x)
    ensures ToInt32(x) % 2 == x % 2
  {
    var q, low := x / TWO32, x % TWO32;
    assert x == TWO32 * q + low;
    assert x % 2 == low % 2;
  }

  function Abs(x: int): nat {
    if x < 0 then -x else x
  }

  lemma ShiftDecreases(x: int)
    requires x != 0 && ToInt32(x) != -1
    ensures Abs(Shr1(x)) < Abs(x)
  {
    Int32Shrinks(x);
  }

  /** Sizes at which the mirror's first loop never ends: shifting -1 right yields -1. */
  predicate Spins(first: int) {
    first > 0 && first % TWO32 == 0
  }

  lemma SpinsForever(first: int)
    requires first > 0
    ensures Spins(first) <==> ToInt32(first - 1) == -1
    ensures Spins(first) ==> Odd(first - 1) && Shr1(first - 1) == -1 && Odd(-1) && Shr1(-1) == -1
  {
  }

  /** The calls that come to that loop with such a size. */
  predicate Hangs(first: int, second: int, path: seq<Bytes>) {
    Spins(first) && first < second && path != []
  }

  lemma EvenShift(fn: int, sn: int)
    requires !Odd(fn) && fn != 0
    ensures Abs(Shr1(fn)) < Abs(fn)
    ensures 0 <= fn < MAX_SIZE && 0 <= sn < MAX_SIZE
        ==> 0 <= Shr1(fn) < MAX_SIZE && 0 <= Shr1(sn) < MAX_SIZE && StripZeros(fn, sn) == StripZeros(Shr1(fn), Shr1(sn))
    ensures fn == MAX_SIZE || -0x8000_0000 <= fn < 0 ==> -0x8000_0000 <= Shr1(fn) < 0
  {
    hide ToInt32;
    ShiftDecreases(fn);
    Int32Shrinks(fn);
    if 0 <= fn < MAX_SIZE && 0 <= sn < MAX_SIZE {
      Int32Small(fn);
      Int32Small(sn);
    }
    if fn == MAX_SIZE {
      assert Shr1(MAX_SIZE) == -0x4000_0000 by {
        Int32OfMaxSize();
      }
    }
  }

  lemma Int32OfMaxSize()
    ensures ToInt32(MAX_SIZE) == -0x8000_0000 && !Odd(MAX_SIZE)
  {
  }

  lemma OddShift(fn: int, sn: int)
    requires Odd(fn) && ToInt32(fn) != -1
    ensures Abs(Shr1(fn)) < Abs(fn) && ToInt32(Shr1(fn)) != -1
    ensures 0 <= fn < MAX_SIZE && 0 <= sn < MAX_SIZE
        ==> 0 <= Shr1(fn) < MAX_SIZE && 0 <= Shr1(sn) < MAX_SIZE && StripOnes(fn, sn) == StripOnes(Shr1(fn), Shr1(sn))
  {
    ShiftDecreases(fn);
    Int32Shrinks(fn);
    Int32Shrinks(Shr1(fn));
  }

  lemma StripDone(fn: int, sn: nat)
    ensures 0 <= fn < MAX_SIZE && !(fn != 0 && !Odd(fn)) ==> StripZeros(fn, sn) == (fn as nat, sn)
    ensures 0 <= fn < MAX_SIZE && !Odd(fn) ==> StripOnes(fn, sn) == (fn as nat, sn)
  {
  }

  method ShiftPastZeros32(fn0: int, sn0: int) returns (fn: int, sn: int)
    ensures 0 <= fn0 < MAX_SIZE && 0 <= sn0 < MAX_SIZE
        ==> 0 <= fn < MAX_SIZE && 0 <= sn < MAX_SIZE && (fn as nat, sn as nat) == StripZeros(fn0, sn0)
    ensures fn0 == sn0 == MAX_SIZE ==> -0x8000_0000 <= fn == sn < 0
  {
    hide StripZeros, ToInt32, Shr1, Odd;
    fn, sn := fn0, sn0;
    while fn != 0 && !Odd(fn)
      invariant 0 <= fn0 < MAX_SIZE && 0 <= sn0 < MAX_SIZE
            ==> 0 <= fn < MAX_SIZE && 0 <= sn < MAX_SIZE && StripZeros(fn, sn) == StripZeros(fn0, sn0)
      invariant fn0 == sn0 == MAX_SIZE ==> fn == sn && -0x8000_0000 <= fn <= MAX_SIZE && (fn < 0 || fn == MAX_SIZE)
      decreases Abs(fn)
    {
      EvenShift(fn, sn);
      fn := Shr1(fn);
      sn := Shr1(sn);
    }
    StripDone(fn, Abs(sn));
    Int32OfMaxSize();
  }

  method ShiftPastOnes32(fn0: int, sn0: int) returns (fn: int, sn: int)
    requires ToInt32(fn0) != -1
    ensures 0 <= fn0 < MAX_SIZE && 0 <= sn0 < MAX_SIZE
        ==> 0 <= fn < MAX_SIZE && 0 <= sn < MAX_SIZE && (fn as nat, sn as nat) == StripOnes(fn0, sn0)
  {
    hide StripOnes, ToInt32, Shr1, Odd;
    fn, sn := fn0, sn0;
    while Odd(fn)
      invariant ToInt32(fn) != -1
      invariant 0 <= fn0 < MAX_SIZE && 0 <= sn0 < MAX_SIZE
            ==> 0 <= fn < MAX_SIZE && 0 <= sn < MAX_SIZE && StripOnes(fn, sn) == StripOnes(fn0, sn0)
      decreases Abs(fn)
    {
      OddShift(fn, sn);
      fn := Shr1(fn);
      sn := Shr1(sn);
    }
    StripDone(fn, Abs(sn));
  }

  /** Returns normally where the source returns, and false where it throws. */
  method VerifyInclusion(sha: Sha, leafHash: Bytes, index: int, size: int, path: seq<Bytes>, root: Bytes)
    returns (ok: bool)
    ensures size <= MAX_SIZE ==> (ok <==> InclusionAccepts(sha, leafHash, index, size, path, root))
    ensures index == MAX_SIZE && size == MAX_SIZE + 1 && |path| == 1 ==> !ok
  {
    hide Climb, Fold, FoldLefts, AllWide, Walk.At, StripZeros, RootFromPath, InclusionTurns, ToInt32;
    if index < 0 || size <= 0 || index >= size {
      return false;
    }
    ghost var turns := InclusionTurns(index, size);
    ClimbIsInclusion(index, size);
    RootFromPathIsFold(sha, leafHash, index, size, path);
    ghost var small := size <= MAX_SIZE;

    var computed := leafHash;
    var fn, sn := index, size - 1;
    ghost var lefts: seq<bool>, fr := [], leafHash;
    ghost var walk := Walk(fn, sn, leafHash, path);
    walk.Start(sha);
    for j := 0 to |path|
      invariant small ==> 0 <= fn < MAX_SIZE && 0 <= sn < MAX_SIZE
      invariant small ==> walk.At(sha, j, Cursor(fn, sn, lefts), fr, computed)
      invariant index == MAX_SIZE && size == MAX_SIZE + 1 ==> (j == 0 ==> fn == sn == MAX_SIZE) && (j == 1 ==> sn < 0)
    {
      var sibling := path[j];
      if |sibling| != HASH_SIZE || sn == 0 {
        if small {
          walk.Stuck(sha, j, Cursor(fn, sn, lefts), fr, computed, turns);
        }
        return false;
      }
      if small {
        walk.Advance(sha, j, Cursor(fn, sn, lefts), fr, computed);
        lefts := lefts + [SiblingLeft(fn, sn)];
        Int32Small(fn);
      }
      if Odd(fn) || fn == sn {
        computed := HashChildren(sha, sibling, computed);
        fr := HashChildren(sha, sibling, fr);
        fn, sn := ShiftPastZeros32(fn, sn);
      } else {
        computed := HashChildren(sha, computed, sibling);
      }
      if small {
        Int32Small(fn);
        Int32Small(sn);
      }
      Int32Shrinks(sn);
      fn := Shr1(fn);
      sn := Shr1(sn);
    }
    if small {
      walk.Finish(sha, Cursor(fn, sn, lefts), fr, computed, turns);
    }
    return sn == 0 && computed == root;
  }

  method VerifyConsistency(sha: Sha, first: int, second: int, path: seq<Bytes>, oldRoot: Bytes, newRoot: Bytes)
    returns (ok: bool)
    requires !Hangs(first, second, path)
    ensures second <= MAX_SIZE ==> (ok <==> ConsistencyAccepts(sha, first, second, path, oldRoot, newRoot))
  {
    hide Climb, Fold, FoldLefts, AllWide, Walk.At, StripZeros, StripOnes, ConsistencyTurns, ConsistencyAccepts, ToInt32;
    TrivialAcceptance(sha, first, second, path, oldRoot, newRoot);
    if first < 0 || second < first {
      return false;
    }
    if first == 0 {
      return true;
    }
    if first == second {
      return |path| == 0 && oldRoot == newRoot;
    }
    if |path| == 0 {
      return false;
    }
    ghost var small := second <= MAX_SIZE;

    SpinsForever(first);
    var fn, sn := ShiftPastOnes32(first - 1, second - 1);
    var seed, rest := oldRoot, path;
    if fn != 0 {
      seed := path[0];
      rest := path[1..];
    }
    ghost var turns := ConsistencyTurns(first, second);
    if small {
      AcceptanceIsFold(sha, first, second, path, oldRoot, newRoot, seed, rest);
    }

    var fr, sr := seed, seed;
    ghost var lefts: seq<bool> := [];
    ghost var walk := Walk(Abs(fn), Abs(sn), seed, rest);
    walk.Start(sha);
    for j := 0 to |rest|
      invariant small ==> 0 <= fn < MAX_SIZE && 0 <= sn < MAX_SIZE
      invariant small ==> walk.At(sha, j, Cursor(fn, sn, lefts), fr, sr)
    {
      var node := rest[j];
      if |node| != HASH_SIZE || sn == 0 {
        if small {
          walk.Stuck(sha, j, Cursor(fn, sn, lefts), fr, sr, turns);
        }
        return false;
      }
      if small {
        walk.Advance(sha, j, Cursor(fn, sn, lefts), fr, sr);
        lefts := lefts + [SiblingLeft(fn, sn)];
        Int32Small(fn);
      }
      if Odd(fn) || fn == sn {
        fr := HashChildren(sha, node, fr);
        sr := HashChildren(sha, node, sr);
        fn, sn := ShiftPastZeros32(fn, sn);
      } else {
        sr := HashChildren(sha, sr, node);
      }
      if small {
        Int32Small(fn);
        Int32Small(sn);
      }
      fn := Shr1(fn);
      sn := Shr1(sn);
    }
    if small {
      walk.Finish(sha, Cursor(fn, sn, lefts), fr, sr, turns);
    }
    return sn == 0 && fr == oldRoot && sr == newRoot;
  }

  /** The honest proof that the first size beyond the bound refuses; merkle.go accepts it. */
  lemma BoundIsSharp(sha: Sha, leaf: Digest, sibling: Digest)
    ensures InclusionAccepts(sha, leaf, MAX_SIZE, MAX_SIZE + 1, [sibling], HashChildren(sha, sibling, leaf))
  {
    assert Pow2(31) == MAX_SIZE by {
      Pow2Values();
    }
    SplitUnique(MAX_SIZE + 1, 31);
    assert RootFromPath(sha, leaf, 0, 1, []) == Some(leaf);
  }

  lemma Pow2Values()
    ensures Pow2(31) == MAX_SIZE
  {
    assert Pow2(4) == 16;
    assert Pow2(8) == 256;
    assert Pow2(12) == 4096;
    assert Pow2(16) == 65536;
    assert Pow2(20) == 0x10_0000;
    assert Pow2(24) == 0x100_0000;
    assert Pow2(28) == 0x1000_0000;
  }
}
