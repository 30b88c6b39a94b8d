/**
 One root, one log: entries are hashed as leaves under a prefix of their own, so that a list of entries cannot pass
 for a list of another length whose leaves are nodes of the first.
 */
module MerkleEntries {
  import opened Bytes
  import opened Merkle
  import opened MerkleSound

  function LeafHashes(sha: Sha, entries: seq<Bytes>): seq<Digest> {
    seq(|entries|, i requires 0 <= i < |entries| => HashLeaf(sha, entries[i]))
  }

  /** The strings hashed to compute the root of a list of entries. */
  function EntryInputs(sha: Sha, entries: seq<Bytes>): set<Bytes>
    decreases |entries|
  {
    if entries == [] then {[]}
    else if |entries| == 1 then {LeafInput(entries[0])}
    else
      var k := Split(|entries|);
      {RootInput(sha, entries)} + EntryInputs(sha, entries[..k]) + EntryInputs(sha, entries[k..])
  }

  /** The string whose hash is the root. */
  function RootInput(sha: Sha, entries: seq<Bytes>): Bytes {
    if entries == [] then []
    else if |entries| == 1 then LeafInput(entries[0])
    else
      var k := Split(|entries|);
      NodeInput(RootHash(sha, LeafHashes(sha, entries[..k])), RootHash(sha, LeafHashes(sha, entries[k..])))
  }

  lemma RootOfInput(sha: Sha, entries: seq<Bytes>)
    ensures RootHash(sha, LeafHashes(sha, entries)) == sha(RootInput(sha, entries)) && RootInput(sha, entries) in EntryInputs(sha, entries)
  {
    hide Split, Pow2, SplitExp, LeafInput, NodeInput;
    if |entries| > 1 {
      var k := Split(|entries|);
      assert LeafHashes(sha, entries)[..k] == LeafHashes(sha, entries[..k]);
      assert LeafHashes(sha, entries)[k..] == LeafHashes(sha, entries[k..]);
    }
  }

  /** The three kinds of tree hash three kinds of string: none, one that begins with 0, one that begins with 1. */
  lemma RootInputTells(sha: Sha, a: seq<Bytes>, b: seq<Bytes>)
    requires RootInput(sha, a) == RootInput(sha, b)
    ensures (|a| <= 1 || |b| <= 1) ==> a == b
    ensures |a| > 1 && |b| > 1 ==>
              var j, k := Split(|a|), Split(|b|);
              && RootHash(sha, LeafHashes(sha, a[..j])) == RootHash(sha, LeafHashes(sha, b[..k]))
              && RootHash(sha, LeafHashes(sha, a[j..])) == RootHash(sha, LeafHashes(sha, b[k..]))
  {
    hide RootHash, LeafHashes, Split;
    var x, y := RootInput(sha, a), RootInput(sha, b);
    assert |a| == 1 ==> x[0] == 0;
    assert |b| == 1 ==> y[0] == 0;
    assert |a| > 1 ==> x[0] == 1;
    assert |b| > 1 ==> y[0] == 1;
    if |a| == 1 && |b| == 1 {
      SplitEqualPrefix([0], [0], a[0], b[0]);
      assert a == [a[0]] && b == [b[0]];
    } else if |a| > 1 && |b| > 1 {
      var j, k := Split(|a|), Split(|b|);
      NodeInputInjective(RootHash(sha, LeafHashes(sha, a[..j])), RootHash(sha, LeafHashes(sha, a[j..])),
                         RootHash(sha, LeafHashes(sha, b[..k])), RootHash(sha, LeafHashes(sha, b[k..])));
    }
  }

  /** One root belongs to one list of entries, of whatever length, or a collision is exhibited. */
  lemma {:induction false} SameRootSameEntries(sha: Sha, a: seq<Bytes>, b: seq<Bytes>)
    requires RootHash(sha, LeafHashes(sha, a)) == RootHash(sha, LeafHashes(sha, b))
    ensures a == b || Collision(sha, EntryInputs(sha, a) + EntryInputs(sha, b))
    decreases |a| + |b|
  {
    hide Collision, RootInput, RootHash, LeafHashes, Split, LeafInput, EntryInputs;
    var inputs := EntryInputs(sha, a) + EntryInputs(sha, b);
    RootOfInput(sha, a);
    RootOfInput(sha, b);
    if RootInput(sha, a) != RootInput(sha, b) {
      Collides(sha, RootInput(sha, a), RootInput(sha, b), inputs);
    } else if |a| > 1 && |b| > 1 {
      var j, k := Split(|a|), Split(|b|);
      RootInputTells(sha, a, b);
      PartInputs(sha, a);
      PartInputs(sha, b);
      SameRootSameEntries(sha, a[..j], b[..k]);
      SameRootSameEntries(sha, a[j..], b[k..]);
      CollisionGrows(sha, EntryInputs(sha, a[..j]) + EntryInputs(sha, b[..k]), inputs);
      CollisionGrows(sha, EntryInputs(sha, a[j..]) + EntryInputs(sha, b[k..]), inputs);
      assert a == a[..j] + a[j..] && b == b[..k] + b[k..];
    } else {
      RootInputTells(sha, a, b);
    }
  }

  lemma PartInputs(sha: Sha, entries: seq<Bytes>)
    requires |entries| > 1
    ensures var k := Split(|entries|);
            EntryInputs(sha, entries[..k]) <= EntryInputs(sha, entries) && EntryInputs(sha, entries[k..]) <= EntryInputs(sha, entries)
  {
    hide RootInput, Split;
  }

  lemma Collides(sha: Sha, x: Bytes, y: Bytes, inputs: set<Bytes>)
    requires x in inputs && y in inputs && x != y && sha(x) == sha(y)
    ensures Collision(sha, inputs)
  {
  }
}
