/**
 The server's log: entries in storage, their leaf hashes cached in memory, answers signed over a
 snapshot. Requests are concurrent; the write lock covers an append from the moment its entry is
 stored until its hash is cached, and storage can be read without the lock.
 */
module TransparencyLog {
  import opened Bytes
  import opened Merkle
  import opened Transparency
  import MerkleSound

  function Leaves(sha: Sha, entries: seq<LogEntry>): (leaves: seq<Digest>)
    ensures |leaves| == |entries|
    ensures forall i :: 0 <= i < |entries| ==> leaves[i] == HashLeaf(sha, EncodeEntry(entries[i]))
  {
    if entries == [] then []
    else Leaves(sha, entries[..|entries| - 1]) + [HashLeaf(sha, EncodeEntry(entries[|entries| - 1]))]
  }

  lemma LeavesOfPrefix(sha: Sha, entries: seq<LogEntry>, n: nat)
    requires n <= |entries|
    ensures Leaves(sha, entries[..n]) == Leaves(sha, entries)[..n]
  {
  }

  /** The newest entry whose handle folds to the given one. */
  function Latest(env: Env, entries: seq<LogEntry>, handle: Bytes): Option<LogEntry> {
    if entries == [] then None
    else
      var last := entries[|entries| - 1];
      if env.lower(last.handle) == env.lower(handle) then Some(last)
      else Latest(env, entries[..|entries| - 1], handle)
  }

  lemma {:induction false} LatestIsStored(env: Env, entries: seq<LogEntry>, handle: Bytes)
    requires Latest(env, entries, handle).Some?
    ensures Latest(env, entries, handle).value in entries
    ensures env.lower(Latest(env, entries, handle).value.handle) == env.lower(handle)
  {
    if env.lower(entries[|entries| - 1].handle) != env.lower(handle) {
      LatestIsStored(env, entries[..|entries| - 1], handle);
    }
  }

  /** There is none exactly if no stored handle folds to the given one; otherwise none of those after it does. */
  lemma {:induction false} LatestIsNewest(env: Env, entries: seq<LogEntry>, handle: Bytes)
    ensures Latest(env, entries, handle).None? <==> forall e :: e in entries ==> env.lower(e.handle) != env.lower(handle)
    ensures Latest(env, entries, handle).Some? ==>
              exists i :: 0 <= i < |entries| && IsNewest(env, entries, handle, i) && Latest(env, entries, handle).value == entries[i]
  {
    if entries == [] {
    } else {
      var n := |entries| - 1;
      LatestIsNewest(env, entries[..n], handle);
      assert entries == entries[..n] + [entries[n]];
      if env.lower(entries[n].handle) == env.lower(handle) {
        assert IsNewest(env, entries, handle, n);
      } else if Latest(env, entries[..n], handle).Some? {
        var i :| 0 <= i < n && IsNewest(env, entries[..n], handle, i) && Latest(env, entries[..n], handle).value == entries[..n][i];
        assert IsNewest(env, entries, handle, i);
      }
    }
  }

  ghost predicate IsNewest(env: Env, entries: seq<LogEntry>, handle: Bytes, i: nat)
    requires i < |entries|
  {
    && env.lower(entries[i].handle) == env.lower(handle)
    && forall k :: i < k < |entries| ==> env.lower(entries[k].handle) != env.lower(handle)
  }

  /** The log's signing key: its public half and a signing function that the clients' check accepts. */
  datatype Signer = Signer(publicKey: Bytes, sign: Bytes -> Bytes)

  ghost predicate SignsFor(env: Env, signer: Signer) {
    && |signer.publicKey| == KEY_SIZE
    && forall m: Bytes :: env.verify(signer.publicKey, m, signer.sign(m))
  }

  function SignTreeHead(signer: Signer, size: int, root: Bytes, at: int): SignedTreeHead {
    SignedTreeHead(size, root, at, signer.sign(HeadBytes(size, root, at)), signer.publicKey)
  }

  function HeadOf(sha: Sha, signer: Signer, hashes: seq<Digest>, at: int): SignedTreeHead {
    SignTreeHead(signer, |hashes|, RootHash(sha, hashes), at)
  }

  /** The answer to a lookup: an entry read before the snapshot of the hashes was taken. */
  function Answer(sha: Sha, signer: Signer, hashes: seq<Digest>, entry: LogEntry, since: int, at: int)
    : Result<HandleProof, ProofError>
  {
    match InclusionProof(sha, hashes, entry.index)
    case Err(e) => Err(e)
    case Ok(inclusion) =>
      match ConsistencyProof(sha, hashes, since, |hashes|)
      case Err(e) => Err(e)
      case Ok(consistency) => Ok(HandleProof(entry, inclusion, consistency, HeadOf(sha, signer, hashes, at)))
  }

  // ----- interleaved steps -----

  /** `writer` is the entry of an append that holds the lock and has stored, but not yet cached, it. */
  datatype LogState = LogState(storage: seq<LogEntry>, hashes: seq<Digest>, writer: Option<LogEntry>)

  datatype Step =
    | StoreEntry(handle: Bytes, accountId: Bytes, identityKey: Bytes, recordedAt: int)
    | CacheHash
    | Restart  // a crash at any point, then Load before anything is served
    | Read     // lookups, heads and proofs change nothing

  predicate Enabled(s: LogState, step: Step) {
    match step
    case StoreEntry(_, _, _, _) => s.writer.None?
    case CacheHash => s.writer.Some?
    case Restart => true
    case Read => true
  }

  /** Storage numbers the entry, as the store behind AppendEntry does. */
  function Next(sha: Sha, s: LogState, step: Step): LogState
    requires Enabled(s, step)
  {
    match step
    case StoreEntry(handle, accountId, identityKey, recordedAt) =>
      var e := LogEntry(|s.storage|, handle, accountId, identityKey, recordedAt);
      s.(storage := s.storage + [e], writer := Some(e))
    case CacheHash => s.(hashes := s.hashes + [HashLeaf(sha, EncodeEntry(s.writer.value))], writer := None)
    case Restart => LogState(s.storage, Leaves(sha, s.storage), None)
    case Read => s
  }

  ghost predicate Inv(sha: Sha, s: LogState) {
    && (forall i :: 0 <= i < |s.storage| ==> s.storage[i].index == i)
    && (s.writer.None? ==> s.hashes == Leaves(sha, s.storage))
    && (s.writer.Some? ==>
          && |s.storage| > 0 && s.storage[|s.storage| - 1] == s.writer.value
          && s.hashes == Leaves(sha, s.storage[..|s.storage| - 1]))
  }

  lemma StepKeepsInv(sha: Sha, s: LogState, step: Step)
    requires Inv(sha, s) && Enabled(s, step)
    ensures Inv(sha, Next(sha, s, step))
    ensures s.storage <= Next(sha, s, step).storage && s.hashes <= Next(sha, s, step).hashes
  {
    var t := Next(sha, s, step);
    match step
    case StoreEntry(_, _, _, _) =>
      assert t.storage[..|t.storage| - 1] == s.storage;
    case CacheHash =>
      assert s.storage == s.storage[..|s.storage| - 1] + [s.writer.value];
    case Restart =>
      if s.writer.Some? {
        LeavesOfPrefix(sha, s.storage, |s.storage| - 1);
      }
    case Read =>
  }

  /** A run of the server: each state follows from the one before by one enabled step. */
  ghost predicate IsRun(sha: Sha, states: seq<LogState>, steps: seq<Step>) {
    && |states| == |steps| + 1
    && states[0] == LogState([], [], None)
    && forall i :: 0 <= i < |steps| ==> Enabled(states[i], steps[i]) && states[i + 1] == Next(sha, states[i], steps[i])
  }

  lemma {:induction false} RunKeepsInv(sha: Sha, states: seq<LogState>, steps: seq<Step>, i: nat)
    requires IsRun(sha, states, steps) && i < |states|
    ensures Inv(sha, states[i])
  {
    if i == 0 {
    } else {
      RunKeepsInv(sha, states, steps, i - 1);
      StepKeepsInv(sha, states[i - 1], steps[i - 1]);
    }
  }

  /** Storage and cache only ever grow at the end. */
  lemma {:induction false} RunGrows(sha: Sha, states: seq<LogState>, steps: seq<Step>, i: nat, j: nat)
    requires IsRun(sha, states, steps) && i <= j < |states|
    ensures states[i].storage <= states[j].storage && states[i].hashes <= states[j].hashes
  {
    if i < j {
      RunGrows(sha, states, steps, i, j - 1);
      RunKeepsInv(sha, states, steps, j - 1);
      StepKeepsInv(sha, states[j - 1], steps[j - 1]);
    }
  }

  /** Whenever the lock is free, the cache is exactly the leaf hashes of what is stored. */
  lemma CacheMatchesStorage(sha: Sha, states: seq<LogState>, steps: seq<Step>, i: nat)
    requires IsRun(sha, states, steps) && i < |states| && states[i].writer.None?
    ensures |states[i].hashes| == |states[i].storage|
    ensures forall k :: 0 <= k < |states[i].storage|
              ==> states[i].hashes[k] == HashLeaf(sha, EncodeEntry(states[i].storage[k]))
  {
    RunKeepsInv(sha, states, steps, i);
  }

  /** In every interleaving, an answer built from an entry read at one time and a snapshot taken later
      passes the client's whole check, against no checkpoint or against any head signed before. */
  lemma AnswersAreAccepted(env: Env, signer: Signer, states: seq<LogState>, steps: seq<Step>,
                           read: nat, snapshot: nat, handle: Bytes, since: int, at: int, seen: Option<nat>, seenAt: int)
    requires SignsFor(env, signer) && IsRun(env.sha, states, steps)
    requires read <= snapshot < |states| && states[snapshot].writer.None?
    requires Latest(env, states[read].storage, handle).Some?
    requires seen.Some? ==> seen.value <= snapshot && states[seen.value].writer.None? && since == |states[seen.value].hashes|
    requires seen.None? ==> since == 0
    ensures var entry := Latest(env, states[read].storage, handle).value;
            var answer := Answer(env.sha, signer, states[snapshot].hashes, entry, since, at);
            var checkpoint := if seen.None? then None
                              else Some(NextCheckpoint(HeadOf(env.sha, signer, states[seen.value].hashes, seenAt)));
            && answer.Ok?
            && HandleProofVerdict(env, answer.value, handle, checkpoint) == Ok(NextCheckpoint(answer.value.head))
  {
    var entry := Latest(env, states[read].storage, handle).value;
    LatestIsStored(env, states[read].storage, handle);
    RunKeepsInv(env.sha, states, steps, read);
    RunKeepsInv(env.sha, states, steps, snapshot);
    RunGrows(env.sha, states, steps, read, snapshot);
    var hashes := states[snapshot].hashes;
    EntryIsLeaf(env.sha, states[read], states[snapshot], entry);
    var earlier := if seen.Some? then states[seen.value].hashes else [];
    if seen.Some? {
      RunGrows(env.sha, states, steps, seen.value, snapshot);
    }
    AnswerAccepted(env, signer, hashes, entry, handle, earlier, seen.Some?, at, seenAt);
  }

  lemma EntryIsLeaf(sha: Sha, s: LogState, t: LogState, entry: LogEntry)
    requires Inv(sha, s) && Inv(sha, t) && t.writer.None? && s.storage <= t.storage && entry in s.storage
    ensures 0 <= entry.index < |t.hashes| && t.hashes[entry.index] == HashLeaf(sha, EncodeEntry(entry))
  {
    var i :| 0 <= i < |s.storage| && s.storage[i] == entry;
    assert t.storage[i] == entry;
  }

  lemma AnswerAccepted(env: Env, signer: Signer, hashes: seq<Digest>, entry: LogEntry, handle: Bytes,
                       earlier: seq<Digest>, hasCheckpoint: bool, at: int, seenAt: int)
    requires SignsFor(env, signer) && earlier <= hashes
    requires 0 <= entry.index < |hashes| && hashes[entry.index] == HashLeaf(env.sha, EncodeEntry(entry))
    requires env.lower(entry.handle) == env.lower(handle)
    ensures var answer := Answer(env.sha, signer, hashes, entry, |earlier|, at);
            var checkpoint := if hasCheckpoint then Some(NextCheckpoint(HeadOf(env.sha, signer, earlier, seenAt))) else None;
            && answer.Ok?
            && HandleProofVerdict(env, answer.value, handle, checkpoint) == Ok(NextCheckpoint(answer.value.head))
  {
    hide RootHash, InclusionAccepts, ConsistencyAccepts, InclusionPath, ConsistencyPath, HeadBytes, EncodeEntry;
    assert hashes[..|hashes|] == hashes && hashes[..|earlier|] == earlier;
    MerkleSound.HonestInclusionAccepted(env.sha, hashes, entry.index);
    MerkleSound.HonestConsistencyAccepted(env.sha, hashes, |earlier|, |hashes|);
  }

  // ----- a load that is not exclusive -----

  /** Load reads storage before it takes the lock, so appends can land in between; their hashes are then overwritten. */
  function Loaded(sha: Sha, read: LogState, installed: LogState): LogState {
    installed.(hashes := Leaves(sha, read.storage))
  }

  /** The cache is right afterwards exactly if nothing was appended since the read, and otherwise the log can no
      longer prove the entries that were. */
  lemma LoadRace(sha: Sha, signer: Signer, states: seq<LogState>, steps: seq<Step>, i: nat, j: nat, entry: LogEntry, at: int)
    requires IsRun(sha, states, steps) && i <= j < |states| && states[j].writer.None? && entry in states[j].storage
    ensures Inv(sha, Loaded(sha, states[i], states[j])) <==> states[i].storage == states[j].storage
    ensures var hashes := Loaded(sha, states[i], states[j]).hashes;
            Answer(sha, signer, hashes, entry, 0, at).Ok? <==> entry in states[i].storage
  {
    hide InclusionPath, ConsistencyPath, RootHash, HeadBytes, EncodeEntry;
    RunGrows(sha, states, steps, i, j);
    RunKeepsInv(sha, states, steps, i);
    RunKeepsInv(sha, states, steps, j);
    EarlierEntries(sha, states[i], states[j], entry);
  }

  lemma EarlierEntries(sha: Sha, s: LogState, t: LogState, entry: LogEntry)
    requires Inv(sha, t) && s.storage <= t.storage && entry in t.storage
    ensures entry in s.storage <==> entry.index < |s.storage|
    ensures 0 <= entry.index
  {
    var k :| 0 <= k < |t.storage| && t.storage[k] == entry;
    assert k < |s.storage| ==> s.storage[k] == entry;
    if entry in s.storage {
      var m :| 0 <= m < |s.storage| && s.storage[m] == entry;
      assert t.storage[m].index == m;
    }
  }

  // ----- the operations -----

  class Log {
    const sha: Sha
    const signer: Signer
    var storage: seq<LogEntry>
    var hashes: seq<Digest>

    constructor (sha: Sha, signer: Signer, storage: seq<LogEntry>)
      ensures this.sha == sha && this.signer == signer && this.storage == storage && hashes == []
    {
      this.sha, this.signer, this.storage, this.hashes := sha, signer, storage, [];
    }

    ghost function State(): LogState
      reads this
    {
      LogState(storage, hashes, None)
    }

    /** The second part of a load: hash what was read, and put it in the place of the cache. */
    method Install(entries: seq<LogEntry>)
      modifies `hashes
      ensures forall read: LogState :: read.storage == entries ==> State() == Loaded(sha, read, old(State()))
    {
      var loaded: seq<Digest> := [];
      for i := 0 to |entries|
        invariant loaded == Leaves(sha, entries[..i])
      {
        assert entries[..i + 1][..i] == entries[..i];
        loaded := loaded + [HashLeaf(sha, EncodeEntry(entries[i]))];
      }
      assert entries[..|entries|] == entries;
      hashes := loaded;
    }

    /** At start-up nothing can come between the two parts: this is the last part of the Restart step. */
    method Load()
      modifies `hashes
      ensures State() == Next(sha, old(State()), Restart)
    {
      var entries := storage;
      ghost var read := State();
      Install(entries);
      assert State() == Loaded(sha, read, read);
    }

    /** A no-op when the newest binding of the handle is already this one; otherwise both halves of an
        append, which no other writer can separate. The store may refuse the entry. */
    method Append(env: Env, handle: Bytes, accountId: Bytes, identityKey: Bytes, now: int, storeFails: bool)
      returns (entry: Option<LogEntry>)
      requires env.sha == sha && Inv(sha, State())
      modifies `storage, `hashes
      ensures Inv(sha, State())
      ensures entry.Some? ==> && Latest(env, storage, handle) == entry
                              && entry.value.accountId == accountId && entry.value.identityKey == identityKey
      ensures var newest := Latest(env, old(storage), handle);
              if newest.Some? && newest.value.accountId == accountId && newest.value.identityKey == identityKey
              then entry == newest && State() == old(State())
              else if storeFails then entry == None && State() == old(State())
              else && State() == Next(sha, Next(sha, old(State()), StoreEntry(handle, accountId, identityKey, now)), CacheHash)
                   && entry == Some(storage[|storage| - 1]) && entry.value.index == old(|hashes|)
    {
      var existing := Latest(env, storage, handle);
      if existing.Some? && existing.value.accountId == accountId && existing.value.identityKey == identityKey {
        return existing;
      }
      if storeFails {
        return None;
      }
      StepKeepsInv(sha, State(), StoreEntry(handle, accountId, identityKey, now));
      StepKeepsInv(sha, Next(sha, State(), StoreEntry(handle, accountId, identityKey, now)), CacheHash);
      var e := LogEntry(|hashes|, handle, accountId, identityKey, now);
      storage := storage + [e];
      hashes := hashes + [HashLeaf(sha, EncodeEntry(e))];
      return Some(e);
    }
  }
}
