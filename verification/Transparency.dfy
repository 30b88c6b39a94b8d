/**
 What a client does with the log's answers: the check on one handle lookup, the checkpoint threaded
 through a whole run of lookups, and the comparison of tree heads with a contact.

 Signatures and case folding are parameters. Strings are their UTF-8 bytes.
 */
module Transparency {
  import opened Bytes
  import opened Merkle
  import MerkleSound
  import Int32Verify

  const STH_CONTEXT: Bytes :=
    [116, 105, 108, 100, 114, 97, 45, 115, 116, 104, 45, 118, 49, 58] // "tildra-sth-v1:"

  const KEY_SIZE: nat := 32

  /** The primitives the client relies on. */
  datatype Env = Env(
    sha: Sha,
    verify: (Bytes, Bytes, Bytes) -> bool,  // key, message, signature
    lower: Bytes -> Bytes)

  datatype LogEntry = LogEntry(index: int, handle: Bytes, accountId: Bytes, identityKey: Bytes, recordedAt: int)

  datatype SignedTreeHead = SignedTreeHead(size: int, rootHash: Bytes, timestamp: int, signature: Bytes, logKey: Bytes)

  datatype HandleProof = HandleProof(entry: LogEntry, inclusion: seq<Bytes>, consistency: seq<Bytes>, head: SignedTreeHead)

  datatype Checkpoint = Checkpoint(size: int, rootHash: Bytes, logKey: Bytes)

  datatype Refusal =
    | MalformedLogKey | LogKeyChanged | BadSignature | OtherHandle | BadInclusion | LogShrank | BadConsistency | SplitView

  // ----- the canonical bytes of an entry -----

  function Field(b: Bytes): Bytes {
    U32(|b|) + b
  }

  function EncodeEntry(e: LogEntry): Bytes {
    Field(e.handle) + Field(e.accountId) + Field(e.identityKey) + U64(e.recordedAt)
  }

  lemma FieldsInjective(a: Bytes, b: Bytes, x: Bytes, y: Bytes)
    requires Field(a) + x == Field(b) + y
    requires |a| < TWO32 && |b| < TWO32
    ensures a == b && x == y
  {
    hide U32;
    assert Field(a) + x == U32(|a|) + (a + x) && Field(b) + y == U32(|b|) + (b + y);
    SplitEqualPrefix(U32(|a|), U32(|b|), a + x, b + y);
    U32Injective(|a|, |b|);
    SplitEqualPrefix(a, b, x, y);
  }

  predicate Encodable(e: LogEntry) {
    |e.handle| < TWO32 && |e.accountId| < TWO32 && |e.identityKey| < TWO32 && 0 <= e.recordedAt < TWO64
  }

  /** Entries that encode alike bind the same handle to the same account and key at the same second. */
  lemma EncodeEntryInjective(e: LogEntry, f: LogEntry)
    requires Encodable(e) && Encodable(f) && EncodeEntry(e) == EncodeEntry(f)
    ensures e == f.(index := e.index)
  {
    hide Field, U32, U64;
    assert EncodeEntry(e) == Field(e.handle) + (Field(e.accountId) + (Field(e.identityKey) + U64(e.recordedAt)));
    assert EncodeEntry(f) == Field(f.handle) + (Field(f.accountId) + (Field(f.identityKey) + U64(f.recordedAt)));
    FieldsInjective(e.handle, f.handle, Field(e.accountId) + (Field(e.identityKey) + U64(e.recordedAt)),
                    Field(f.accountId) + (Field(f.identityKey) + U64(f.recordedAt)));
    FieldsInjective(e.accountId, f.accountId, Field(e.identityKey) + U64(e.recordedAt), Field(f.identityKey) + U64(f.recordedAt));
    FieldsInjective(e.identityKey, f.identityKey, U64(e.recordedAt), U64(f.recordedAt));
    U64Injective(e.recordedAt, f.recordedAt);
  }

  // ----- one lookup -----

  function HeadBytes(size: int, root: Bytes, timestamp: int): Bytes {
    STH_CONTEXT + U64(size) + root + U64(timestamp)
  }

  /** What is signed names the size, the root and the time. */
  lemma HeadBytesInjective(m: int, n: int, a: Bytes, b: Bytes, s: int, t: int)
    requires |a| == |b| == HASH_SIZE && 0 <= m < TWO64 && 0 <= n < TWO64 && 0 <= s < TWO64 && 0 <= t < TWO64
    requires HeadBytes(m, a, s) == HeadBytes(n, b, t)
    ensures m == n && a == b && s == t
  {
    hide U64;
    assert HeadBytes(m, a, s) == STH_CONTEXT + (U64(m) + (a + U64(s)));
    assert HeadBytes(n, b, t) == STH_CONTEXT + (U64(n) + (b + U64(t)));
    SplitEqualPrefix(STH_CONTEXT, STH_CONTEXT, U64(m) + (a + U64(s)), U64(n) + (b + U64(t)));
    SplitEqualPrefix(U64(m), U64(n), a + U64(s), b + U64(t));
    SplitEqualPrefix(a, b, U64(s), U64(t));
    U64Injective(m, n);
    U64Injective(s, t);
  }

  /** The head carries a good signature of exactly its size, root and time, under its own key. */
  ghost predicate Signed(env: Env, head: SignedTreeHead) {
    && |head.logKey| == KEY_SIZE
    && env.verify(head.logKey, HeadBytes(head.size, head.rootHash, head.timestamp), head.signature)
  }

  function VerifyTreeHead(env: Env, head: SignedTreeHead, expectedLogKey: Option<Bytes>): Option<Refusal> {
    if |head.logKey| != KEY_SIZE then Some(MalformedLogKey)
    else if expectedLogKey.Some? && head.logKey != expectedLogKey.value then Some(LogKeyChanged)
    else if !env.verify(head.logKey, HeadBytes(head.size, head.rootHash, head.timestamp), head.signature) then Some(BadSignature)
    else None
  }

  function KeyOf(checkpoint: Option<Checkpoint>): Option<Bytes> {
    if checkpoint.Some? then Some(checkpoint.value.logKey) else None
  }

  function NextCheckpoint(head: SignedTreeHead): Checkpoint {
    Checkpoint(head.size, head.rootHash, head.logKey)
  }

  /** The verdict on a lookup, in terms of what the two proofs prove. */
  function HandleProofVerdict(env: Env, proof: HandleProof, expectedHandle: Bytes, checkpoint: Option<Checkpoint>)
    : Result<Checkpoint, Refusal>
  {
    var head := proof.head;
    var bad := VerifyTreeHead(env, head, KeyOf(checkpoint));
    if bad.Some? then Err(bad.value)
    else if env.lower(proof.entry.handle) != env.lower(expectedHandle) then Err(OtherHandle)
    else if !InclusionAccepts(env.sha, HashLeaf(env.sha, EncodeEntry(proof.entry)), proof.entry.index,
                              head.size, proof.inclusion, head.rootHash) then Err(BadInclusion)
    else if checkpoint.Some? && head.size < checkpoint.value.size then Err(LogShrank)
    else if checkpoint.Some? && !ConsistencyAccepts(env.sha, checkpoint.value.size, head.size, proof.consistency,
                                                    checkpoint.value.rootHash, head.rootHash) then Err(BadConsistency)
    else Ok(NextCheckpoint(head))
  }

  method VerifyHandleProof(env: Env, proof: HandleProof, expectedHandle: Bytes, checkpoint: Option<Checkpoint>)
    returns (r: Result<Checkpoint, Refusal>)
    requires checkpoint.Some? ==> !Int32Verify.Hangs(checkpoint.value.size, proof.head.size, proof.consistency)
    ensures r.Ok? ==> && r.value == NextCheckpoint(proof.head) && Signed(env, proof.head)
                      && env.lower(proof.entry.handle) == env.lower(expectedHandle)
                      && (checkpoint.Some? ==> proof.head.logKey == checkpoint.value.logKey)
    ensures proof.head.size <= Int32Verify.MAX_SIZE ==> r == HandleProofVerdict(env, proof, expectedHandle, checkpoint)
  {
    hide InclusionAccepts, ConsistencyAccepts;
    var bad := VerifyTreeHead(env, proof.head, KeyOf(checkpoint));
    if bad.Some? {
      return Err(bad.value);
    }
    if env.lower(proof.entry.handle) != env.lower(expectedHandle) {
      return Err(OtherHandle);
    }
    var included := Int32Verify.VerifyInclusion(env.sha, HashLeaf(env.sha, EncodeEntry(proof.entry)), proof.entry.index,
                                                proof.head.size, proof.inclusion, proof.head.rootHash);
    if !included {
      return Err(BadInclusion);
    }
    if checkpoint.Some? {
      var seen := checkpoint.value;
      if proof.head.size < seen.size {
        return Err(LogShrank);
      }
      var grown := Int32Verify.VerifyConsistency(env.sha, seen.size, proof.head.size, proof.consistency,
                                                 seen.rootHash, proof.head.rootHash);
      if !grown {
        return Err(BadConsistency);
      }
    }
    return Ok(NextCheckpoint(proof.head));
  }

  // ----- whole runs -----

  /** An answer, and the handle that was asked for. */
  datatype Lookup = Lookup(proof: HandleProof, handle: Bytes)

  /** The checkpoint a client holds after a run of lookups; a refused answer changes nothing. */
  function Run(env: Env, lookups: seq<Lookup>): Option<Checkpoint> {
    if lookups == [] then None
    else
      var n := |lookups| - 1;
      var before := Run(env, lookups[..n]);
      match HandleProofVerdict(env, lookups[n].proof, lookups[n].handle, before)
      case Ok(next) => Some(next)
      case Err(_) => before
  }

  predicate Accepted(env: Env, lookups: seq<Lookup>, i: nat)
    requires i < |lookups|
  {
    HandleProofVerdict(env, lookups[i].proof, lookups[i].handle, Run(env, lookups[..i])).Ok?
  }

  /** Everything the client hashed in a run, and everything an honest log hashes for the prefixes it vouched for. */
  function RunInputs(env: Env, lookups: seq<Lookup>, tree: seq<Digest>): set<Bytes> {
    if lookups == [] then {}
    else
      var n := |lookups| - 1;
      var before := Run(env, lookups[..n]);
      var proof := lookups[n].proof;
      if Accepted(env, lookups, n) && proof.head.size == |tree| && (before.Some? ==> 0 <= before.value.size <= |tree|) then
        MerkleSound.TreeInputs(env.sha, tree)
        + MerkleSound.PathInputs(env.sha, HashLeaf(env.sha, EncodeEntry(proof.entry)), proof.entry.index, |tree|, proof.inclusion)
        + (if before.None? then {} else
             MerkleSound.ConsistencyInputs(env.sha, before.value.size, |tree|, proof.consistency,
                                           before.value.rootHash, proof.head.rootHash)
             + RunInputs(env, lookups[..n], tree[..before.value.size]))
      else RunInputs(env, lookups[..n], tree)
  }

  /** What an accepted lookup means when measured against one leaf list: the head is signed and is the head of the
      first leaves, and the entry is for the handle that was asked for, and is among them at its place. */
  ghost predicate Vouched(env: Env, asked: Lookup, tree: seq<Digest>) {
    var proof := asked.proof;
    && Signed(env, proof.head) && env.lower(proof.entry.handle) == env.lower(asked.handle)
    && 0 <= proof.entry.index < proof.head.size <= |tree|
    && proof.head.rootHash == RootHash(env.sha, tree[..proof.head.size])
    && tree[proof.entry.index] == HashLeaf(env.sha, EncodeEntry(proof.entry))
  }

  lemma VouchedGrows(env: Env, asked: Lookup, tree: seq<Digest>, m: nat)
    requires m <= |tree| && Vouched(env, asked, tree[..m])
    ensures Vouched(env, asked, tree)
  {
    var size := asked.proof.head.size;
    assert tree[..m][..size] == tree[..size];
  }

  lemma RunEmpty(env: Env)
    ensures Run(env, []) == None
  {
  }

  lemma AcceptedInPrefix(env: Env, lookups: seq<Lookup>, n: nat, i: nat)
    requires i < n <= |lookups|
    ensures Accepted(env, lookups[..n], i) <==> Accepted(env, lookups, i)
  {
    assert lookups[..n][..i] == lookups[..i];
  }

  lemma RunStep(env: Env, lookups: seq<Lookup>)
    requires lookups != []
    ensures var n := |lookups| - 1;
            Run(env, lookups) == if Accepted(env, lookups, n) then Some(NextCheckpoint(lookups[n].proof.head))
                                 else Run(env, lookups[..n])
    ensures var n := |lookups| - 1;
            Accepted(env, lookups, n) ==>
              (&& lookups[n].proof.head.size > 0
               && (Run(env, lookups[..n]).Some? ==>
                     && lookups[n].proof.head.logKey == Run(env, lookups[..n]).value.logKey
                     && Run(env, lookups[..n]).value.size <= lookups[n].proof.head.size))
  {
  }

  lemma {:induction false} AcceptedRunHasCheckpoint(env: Env, lookups: seq<Lookup>)
    ensures Run(env, lookups).Some? ==> Run(env, lookups).value.size > 0
    ensures forall i :: 0 <= i < |lookups| && Accepted(env, lookups, i)
              ==> Run(env, lookups).Some? && lookups[i].proof.head.logKey == Run(env, lookups).value.logKey
                  && lookups[i].proof.head.size <= Run(env, lookups).value.size
  {
    hide Run, Accepted;
    RunEmpty(env);
    if lookups == [] {
    } else {
      RunStep(env, lookups);
      var n := |lookups| - 1;
      AcceptedRunHasCheckpoint(env, lookups[..n]);
      forall i | 0 <= i < n && Accepted(env, lookups, i)
        ensures Accepted(env, lookups[..n], i)
      {
        AcceptedInPrefix(env, lookups, n, i);
      }
    }
  }

  /** One accepted step, measured against the tree behind the new checkpoint. */
  lemma AcceptedStep(env: Env, proof: HandleProof, handle: Bytes, before: Option<Checkpoint>, tree: seq<Digest>, inputs: set<Bytes>)
    requires HandleProofVerdict(env, proof, handle, before).Ok?
    requires before.Some? ==> before.value.size > 0
    requires proof.head.size == |tree| && proof.head.rootHash == RootHash(env.sha, tree)
    requires MerkleSound.TreeInputs(env.sha, tree)
        + MerkleSound.PathInputs(env.sha, HashLeaf(env.sha, EncodeEntry(proof.entry)), proof.entry.index, |tree|, proof.inclusion)
        <= inputs
    requires before.Some? ==>
        MerkleSound.ConsistencyInputs(env.sha, before.value.size, |tree|, proof.consistency, before.value.rootHash, proof.head.rootHash)
        <= inputs
    ensures || MerkleSound.Collision(env.sha, inputs)
            || (&& Vouched(env, Lookup(proof, handle), tree)
                && (before.Some? ==> before.value.size <= |tree|
                                     && before.value.rootHash == RootHash(env.sha, tree[..before.value.size])))
  {
    hide RootHash, MerkleSound.TreeInputs, MerkleSound.PathInputs, MerkleSound.ConsistencyInputs, MerkleSound.Collision,
         ConsistencyAccepts, RootFromPath;
    var leaf := HashLeaf(env.sha, EncodeEntry(proof.entry));
    MerkleSound.InclusionSound(env.sha, tree, leaf, proof.entry.index, proof.inclusion);
    MerkleSound.CollisionGrows(env.sha,
      MerkleSound.TreeInputs(env.sha, tree) + MerkleSound.PathInputs(env.sha, leaf, proof.entry.index, |tree|, proof.inclusion), inputs);
    assert tree[..|tree|] == tree;
    if before.Some? {
      var seen := before.value;
      MerkleSound.AcceptedConsistencySound(env.sha, tree, seen.size, proof.consistency, seen.rootHash);
      MerkleSound.CollisionGrows(env.sha,
        MerkleSound.TreeInputs(env.sha, tree)
        + MerkleSound.ConsistencyInputs(env.sha, seen.size, |tree|, proof.consistency, seen.rootHash, proof.head.rootHash), inputs);
    }
  }

  /** Over any run of lookups: if the last accepted root is the root of a leaf list, then every root
      accepted on the way is the root of a prefix of it, and every entry ever accepted is still the
      leaf at its index; or the run exhibits a collision. */
  lemma {:induction false} RunSafe(env: Env, lookups: seq<Lookup>, tree: seq<Digest>)
    requires Run(env, lookups).Some?
    requires Run(env, lookups).value.size == |tree| && Run(env, lookups).value.rootHash == RootHash(env.sha, tree)
    ensures || MerkleSound.Collision(env.sha, RunInputs(env, lookups, tree))
            || forall i :: 0 <= i < |lookups| && Accepted(env, lookups, i) ==> Vouched(env, lookups[i], tree)
    decreases |lookups|
  {
    hide Run, HandleProofVerdict, MerkleSound.Collision, RootHash, Vouched;
    if lookups == [] {
      return;
    }
    RunStep(env, lookups);
    var n := |lookups| - 1;
    var last, before, inputs := lookups[n], Run(env, lookups[..n]), RunInputs(env, lookups, tree);
    AcceptedRunHasCheckpoint(env, lookups[..n]);
    if Accepted(env, lookups, n) {
      AcceptedStep(env, last.proof, last.handle, before, tree, inputs);
      if !MerkleSound.Collision(env.sha, inputs) {
        if before.Some? {
          var m := before.value.size;
          RunSafe(env, lookups[..n], tree[..m]);
          MerkleSound.CollisionGrows(env.sha, RunInputs(env, lookups[..n], tree[..m]), inputs);
          VouchedBySmallerTree(env, lookups, n, tree, m);
        } else {
          NothingAcceptedBefore(env, lookups, n);
        }
      }
    } else {
      RunSafe(env, lookups[..n], tree);
      assert tree[..|tree|] == tree;
      if !MerkleSound.Collision(env.sha, inputs) {
        VouchedBySmallerTree(env, lookups, n, tree, |tree|);
      }
    }
  }

  lemma VouchedBySmallerTree(env: Env, lookups: seq<Lookup>, n: nat, tree: seq<Digest>, m: nat)
    requires n <= |lookups| && m <= |tree|
    requires forall i :: 0 <= i < n && Accepted(env, lookups[..n], i) ==> Vouched(env, lookups[..n][i], tree[..m])
    ensures forall i :: 0 <= i < n && Accepted(env, lookups, i) ==> Vouched(env, lookups[i], tree)
  {
    forall i | 0 <= i < n && Accepted(env, lookups, i)
      ensures Vouched(env, lookups[i], tree)
    {
      AcceptedInPrefix(env, lookups, n, i);
      VouchedGrows(env, lookups[i], tree, m);
    }
  }

  lemma NothingAcceptedBefore(env: Env, lookups: seq<Lookup>, n: nat)
    requires n <= |lookups| && Run(env, lookups[..n]).None?
    ensures forall i :: 0 <= i < n ==> !Accepted(env, lookups, i)
  {
    AcceptedRunHasCheckpoint(env, lookups[..n]);
    forall i | 0 <= i < n
      ensures !Accepted(env, lookups, i)
    {
      AcceptedInPrefix(env, lookups, n, i);
    }
  }

  /** The key signs nothing but the heads of one list of leaves. */
  ghost predicate SignsOnly(env: Env, key: Bytes, leaves: seq<Digest>) {
    forall m: Bytes, signature: Bytes :: env.verify(key, m, signature) ==>
      exists n: nat, at: int :: n <= |leaves| < TWO64 && 0 <= at < TWO64 && m == HeadBytes(n, RootHash(env.sha, leaves[..n]), at)
  }

  lemma RootIsDigest(sha: Sha, leaf: Digest, index: nat, n: nat, path: seq<Bytes>)
    requires index < n && RootFromPath(sha, leaf, index, n, path).Some?
    ensures |RootFromPath(sha, leaf, index, n, path).value| == HASH_SIZE
  {
  }

  /** Whoever answers, and on the first lookup too: what is accepted under such a key is an entry of that list, for
      the handle that was asked for, or a collision is exhibited. */
  lemma SignedLookupVouched(env: Env, asked: Lookup, before: Option<Checkpoint>, leaves: seq<Digest>)
    requires HandleProofVerdict(env, asked.proof, asked.handle, before).Ok? && SignsOnly(env, asked.proof.head.logKey, leaves)
    requires 0 <= asked.proof.head.size < TWO64 && 0 <= asked.proof.head.timestamp < TWO64
    ensures asked.proof.head.size <= |leaves|
    ensures var tree := leaves[..asked.proof.head.size]; var entry := asked.proof.entry;
            || Vouched(env, asked, leaves)
            || MerkleSound.Collision(env.sha, MerkleSound.TreeInputs(env.sha, tree)
                 + MerkleSound.PathInputs(env.sha, HashLeaf(env.sha, EncodeEntry(entry)), entry.index, |tree|, asked.proof.inclusion))
  {
    hide RootHash, HeadBytes, ConsistencyAccepts, RootFromPath, MerkleSound.TreeInputs, MerkleSound.PathInputs, MerkleSound.Collision;
    var head := asked.proof.head;
    RootIsDigest(env.sha, HashLeaf(env.sha, EncodeEntry(asked.proof.entry)), asked.proof.entry.index, head.size, asked.proof.inclusion);
    var n: nat, at: int :| n <= |leaves| < TWO64 && 0 <= at < TWO64
      && HeadBytes(head.size, head.rootHash, head.timestamp) == HeadBytes(n, RootHash(env.sha, leaves[..n]), at);
    HeadBytesInjective(head.size, n, head.rootHash, RootHash(env.sha, leaves[..n]), head.timestamp, at);
    MerkleSound.InclusionSound(env.sha, leaves[..n], HashLeaf(env.sha, EncodeEntry(asked.proof.entry)), asked.proof.entry.index,
                               asked.proof.inclusion);
  }

  // ----- gossip -----

  /** The outcome of comparing our checkpoint with a contact's tree head; `fetched` is the server's
      answer to the request for a consistency proof, or None if the request failed. */
  function CrossCheckVerdict(env: Env, ours: Checkpoint, theirs: SignedTreeHead, fetched: Option<seq<Bytes>>): Option<Refusal> {
    var bad := VerifyTreeHead(env, theirs, Some(ours.logKey));
    if bad.Some? then bad
    else if ours.size == theirs.size then
      if ours.rootHash == theirs.rootHash then None else Some(SplitView)
    else if fetched.None? then Some(SplitView)
    else if ours.size < theirs.size then
      if ConsistencyAccepts(env.sha, ours.size, theirs.size, fetched.value, ours.rootHash, theirs.rootHash)
      then None else Some(SplitView)
    else
      if ConsistencyAccepts(env.sha, theirs.size, ours.size, fetched.value, theirs.rootHash, ours.rootHash)
      then None else Some(SplitView)
  }

  method CrossCheckTreeHead(env: Env, ours: Checkpoint, theirs: SignedTreeHead, fetched: Option<seq<Bytes>>)
    returns (r: Option<Refusal>)
    requires fetched.Some? ==> && !Int32Verify.Hangs(ours.size, theirs.size, fetched.value)
                               && !Int32Verify.Hangs(theirs.size, ours.size, fetched.value)
    ensures r.None? ==> Signed(env, theirs) && theirs.logKey == ours.logKey
    ensures ours.size <= Int32Verify.MAX_SIZE && theirs.size <= Int32Verify.MAX_SIZE
        ==> r == CrossCheckVerdict(env, ours, theirs, fetched)
  {
    hide ConsistencyAccepts;
    var bad := VerifyTreeHead(env, theirs, Some(ours.logKey));
    if bad.Some? {
      return bad;
    }
    if ours.size == theirs.size {
      return if ours.rootHash == theirs.rootHash then None else Some(SplitView);
    }
    var first, second, firstRoot, secondRoot := ours.size, theirs.size, ours.rootHash, theirs.rootHash;
    if ours.size > theirs.size {
      first, second, firstRoot, secondRoot := theirs.size, ours.size, theirs.rootHash, ours.rootHash;
    }
    if fetched.None? {
      return Some(SplitView);
    }
    var ok := Int32Verify.VerifyConsistency(env.sha, first, second, fetched.value, firstRoot, secondRoot);
    return if ok then None else Some(SplitView);
  }

  /** What the log answers when asked to link two of its sizes. */
  function HonestFetch(sha: Sha, leaves: seq<Digest>, first: int, second: int): Option<seq<Bytes>> {
    match ConsistencyProof(sha, leaves, first, second)
    case Ok(path) => Some(path)
    case Err(_) => None
  }

  /** No false alarm: two heads of one honest log never look like a split view. */
  lemma HonestGossipAccepted(env: Env, leaves: seq<Digest>, ours: Checkpoint, theirs: SignedTreeHead)
    requires 0 <= ours.size <= |leaves| && ours.rootHash == RootHash(env.sha, leaves[..ours.size])
    requires 0 <= theirs.size <= |leaves| && theirs.rootHash == RootHash(env.sha, leaves[..theirs.size])
    ensures var fetched := if ours.size < theirs.size then HonestFetch(env.sha, leaves, ours.size, theirs.size)
                           else HonestFetch(env.sha, leaves, theirs.size, ours.size);
            var r := CrossCheckVerdict(env, ours, theirs, fetched);
            r != Some(SplitView) && r == VerifyTreeHead(env, theirs, Some(ours.logKey))
  {
    hide RootHash, ConsistencyAccepts, ConsistencyProof;
    if ours.size < theirs.size {
      MerkleSound.HonestConsistencyAccepted(env.sha, leaves, ours.size, theirs.size);
    } else if theirs.size < ours.size {
      MerkleSound.HonestConsistencyAccepted(env.sha, leaves, theirs.size, ours.size);
    }
  }

  /** No missed fork: heads that pass are heads of one log, whatever the server fetched. */
  lemma AcceptedGossipSound(env: Env, leaves: seq<Digest>, ours: Checkpoint, theirs: SignedTreeHead, fetched: Option<seq<Bytes>>)
    requires CrossCheckVerdict(env, ours, theirs, fetched).None?
    requires 0 < ours.size && 0 < theirs.size
    requires (if ours.size < theirs.size then theirs.size else ours.size) == |leaves|
    requires (if ours.size < theirs.size then theirs.rootHash else ours.rootHash) == RootHash(env.sha, leaves)
    ensures || (&& ours.rootHash == RootHash(env.sha, leaves[..ours.size])
                && theirs.rootHash == RootHash(env.sha, leaves[..theirs.size]))
            || (&& ours.size != theirs.size
                && MerkleSound.Collision(env.sha,
                     MerkleSound.TreeInputs(env.sha, leaves)
                     + if ours.size < theirs.size
                       then MerkleSound.ConsistencyInputs(env.sha, ours.size, |leaves|, fetched.value, ours.rootHash, theirs.rootHash)
                       else MerkleSound.ConsistencyInputs(env.sha, theirs.size, |leaves|, fetched.value, theirs.rootHash, ours.rootHash)))
  {
    hide RootHash, ConsistencyAccepts, MerkleSound.Collision, MerkleSound.TreeInputs, MerkleSound.ConsistencyInputs;
    assert leaves[..|leaves|] == leaves;
    if ours.size < theirs.size {
      MerkleSound.AcceptedConsistencySound(env.sha, leaves, ours.size, fetched.value, ours.rootHash);
    } else if theirs.size < ours.size {
      MerkleSound.AcceptedConsistencySound(env.sha, leaves, theirs.size, fetched.value, theirs.rootHash);
    }
  }
}
