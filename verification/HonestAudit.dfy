/**
 The auditor of an honest server: the answers come from moments of one run of its log, while others append to it.
 Nothing is then ever reported but the rebindings that the log really contains.
 */
module HonestAudit {
  import opened Bytes
  import opened Merkle
  import opened Transparency
  import opened TransparencyLog
  import opened Auditing
  import MerkleSound

  const ENTRIES_LIMIT: nat := 1000

  function Min(a: int, b: int): int {
    if a < b then a else b
  }

  /** The entries endpoint: at most so many at once, and none beyond the size that it read first. */
  function ServeEntries(size: nat, storage: seq<LogEntry>, from: int, upTo: int): Option<seq<LogEntry>>
    requires size <= |storage|
  {
    if from < 0 || upTo < from then None
    else Some(storage[Min(from, size)..Min(Min(upTo, from + ENTRIES_LIMIT), size)])
  }

  ghost predicate ConsistencyServed(sha: Sha, states: seq<LogState>, i: nat, src: Source, first: int, second: int) {
    exists j :: i <= j < |states| && src.consistency(first, second) == HonestFetch(sha, states[j].hashes, first, second)
  }

  /** The size is read under the lock, and the entries after it, without. */
  ghost predicate EntriesServed(states: seq<LogState>, i: nat, src: Source, from: int, upTo: int) {
    exists j, k :: i <= j <= k < |states| && |states[j].hashes| <= |states[k].storage|
                   && src.entries(from, upTo) == ServeEntries(|states[j].hashes|, states[k].storage, from, upTo)
  }

  /** The head is of moment i, and every other answer of some later one. */
  ghost predicate HonestSource(sha: Sha, signer: Signer, states: seq<LogState>, i: nat, at: int, src: Source)
    requires i < |states|
  {
    && states[i].writer.None? && src.head == Some(HeadOf(sha, signer, states[i].hashes, at))
    && (forall first: int, second: int :: ConsistencyServed(sha, states, i, src, first, second))
    && (forall from: int, upTo: int :: EntriesServed(states, i, src, from, upTo))
  }

  /** The auditor has followed this log up to some point, or has not begun. */
  ghost predicate Follows(sha: Sha, signer: Signer, v: View, s: LogState) {
    && Aligned(sha, v) && v.entries <= s.storage
    && (v.checkpoint.logKey == [] || v.checkpoint.logKey == signer.publicKey)
  }

  // ----- what it is served -----

  lemma ServedSlice(size: nat, storage: seq<LogEntry>, log: seq<LogEntry>, from: nat, end: nat)
    requires |log| <= size <= |storage| && log <= storage && from <= end <= |log| && end - from <= BATCH
    ensures ServeEntries(size, storage, from, end) == Some(log[from..end])
  {
    assert storage[from..end] == log[from..end];
  }

  lemma OneBatch(sha: Sha, signer: Signer, states: seq<LogState>, steps: seq<TransparencyLog.Step>, i: nat, at: int, src: Source,
                 from: nat, end: nat)
    requires IsRun(sha, states, steps) && i < |states| && HonestSource(sha, signer, states, i, at, src)
    requires from <= end <= |states[i].storage| && end - from <= BATCH
    ensures src.entries(from, end) == Some(states[i].storage[from..end])
  {
    hide HeadOf, HonestFetch, ServeEntries, Leaves, Next, Enabled, ConsistencyServed;
    assert EntriesServed(states, i, src, from, end);
    var j, k :| i <= j <= k < |states| && |states[j].hashes| <= |states[k].storage|
      && src.entries(from, end) == ServeEntries(|states[j].hashes|, states[k].storage, from, end);
    RunKeepsInv(sha, states, steps, i);
    RunGrows(sha, states, steps, i, j);
    RunGrows(sha, states, steps, i, k);
    ServedSlice(|states[j].hashes|, states[k].storage, states[i].storage, from, end);
  }

  lemma {:induction false} AllServed(sha: Sha, signer: Signer, states: seq<LogState>, steps: seq<TransparencyLog.Step>, i: nat, at: int,
                                     src: Source, from: nat, upTo: nat)
    requires IsRun(sha, states, steps) && i < |states| && HonestSource(sha, signer, states, i, at, src)
    requires from <= upTo <= |states[i].storage|
    ensures ServedRange(src, from, upTo) == Served(states[i].storage[from..upTo], true)
    decreases upTo - from
  {
    hide IsRun, HonestSource;
    if from == upTo {
    } else {
      var end := if from + BATCH > upTo then upTo else from + BATCH;
      OneBatch(sha, signer, states, steps, i, at, src, from, end);
      AllServed(sha, signer, states, steps, i, at, src, end, upTo);
      assert states[i].storage[from..end] + states[i].storage[end..upTo] == states[i].storage[from..upTo];
    }
  }

  lemma {:induction false} NumberedRight(next: nat, es: seq<LogEntry>)
    requires forall k :: 0 <= k < |es| ==> es[k].index == next + k
    ensures WellNumbered(next, es) == es
    decreases |es|
  {
    if es == [] {
    } else {
      NumberedRight(next + 1, es[1..]);
    }
  }

  lemma HonestIngest(sha: Sha, signer: Signer, states: seq<LogState>, steps: seq<TransparencyLog.Step>, i: nat, at: int, src: Source,
                     v: View, upTo: nat)
    requires IsRun(sha, states, steps) && i < |states| && HonestSource(sha, signer, states, i, at, src)
    requires |v.entries| <= upTo <= |states[i].storage| && v.entries <= states[i].storage
    ensures Ingested(v, src, |v.entries|, upTo) == v.(entries := states[i].storage[..upTo])
    ensures IngestFindings(v, src, |v.entries|, upTo) == Some(Rebindings(v.entries, states[i].storage[|v.entries|..upTo]))
  {
    hide HonestSource, Rebindings, ServedRange, WellNumbered;
    var from, log := |v.entries|, states[i].storage;
    AllServed(sha, signer, states, steps, i, at, src, from, upTo);
    RunKeepsInv(sha, states, steps, i);
    NumberedRight(from, log[from..upTo]);
    assert v.entries + log[from..upTo] == log[..upTo];
  }

  // ----- no false alarm -----

  lemma HonestHeadFits(env: Env, signer: Signer, states: seq<LogState>, steps: seq<TransparencyLog.Step>, i: nat, at: int, src: Source, v: View)
    requires SignsFor(env, signer) && IsRun(env.sha, states, steps) && i < |states|
    requires HonestSource(env.sha, signer, states, i, at, src) && Follows(env.sha, signer, v, states[i])
    ensures src.head == Some(HeadOf(env.sha, signer, Leaves(env.sha, states[i].storage), at))
    ensures VerifyTreeHead(env, src.head.value, None).None? && !Inconsistent(env, v.checkpoint, src)
    ensures |v.entries| == v.checkpoint.size <= src.head.value.size == |states[i].storage| && v.entries <= states[i].storage
    ensures v.checkpoint.logKey == [] || v.checkpoint.logKey == signer.publicKey
  {
    hide RootHash, ConsistencyAccepts, ConsistencyServed, EntriesServed, HeadBytes;
    RunKeepsInv(env.sha, states, steps, i);
    if 0 < |v.entries| < |states[i].hashes| {
      HonestGrowth(env.sha, signer, states, steps, i, at, src, |v.entries|);
      LeavesOfPrefix(env.sha, states[i].storage, |v.entries|);
      assert states[i].storage[..|v.entries|] == v.entries;
    }
  }

  lemma HonestGrowth(sha: Sha, signer: Signer, states: seq<LogState>, steps: seq<TransparencyLog.Step>, i: nat, at: int, src: Source, n: nat)
    requires IsRun(sha, states, steps) && i < |states| && HonestSource(sha, signer, states, i, at, src) && n < |states[i].hashes|
    ensures var hashes := states[i].hashes;
            && src.consistency(n, |hashes|).Some?
            && ConsistencyAccepts(sha, n, |hashes|, src.consistency(n, |hashes|).value, RootHash(sha, hashes[..n]), RootHash(sha, hashes))
  {
    hide RootHash, ConsistencyAccepts, ConsistencyProof, IsRun, EntriesServed, HeadOf;
    var hashes := states[i].hashes;
    assert ConsistencyServed(sha, states, i, src, n, |hashes|);
    var j :| i <= j < |states| && src.consistency(n, |hashes|) == HonestFetch(sha, states[j].hashes, n, |hashes|);
    RunGrows(sha, states, steps, i, j);
    MerkleSound.HonestConsistencyAccepted(sha, states[j].hashes, n, |hashes|);
    assert states[j].hashes[..n] == hashes[..n] && states[j].hashes[..|hashes|] == hashes;
  }

  /** One audit of an honest server, whatever is appended meanwhile, reports exactly the rebindings among the entries
      that are new to the auditor, none of them critical, and moves the checkpoint to the head. */
  lemma HonestAuditIsClean(env: Env, signer: Signer, states: seq<LogState>, steps: seq<TransparencyLog.Step>, i: nat, at: int, src: Source,
                           v: View, now: int)
    requires SignsFor(env, signer) && IsRun(env.sha, states, steps) && i < |states|
    requires HonestSource(env.sha, signer, states, i, at, src) && Follows(env.sha, signer, v, states[i])
    ensures var log := states[i].storage;
            var findings := Rebindings(v.entries, log[|v.entries|..]);
            && AuditOutcome(env, v, src, now)
               == Outcome(View(AuditCheckpoint(|log|, RootHash(env.sha, Leaves(env.sha, log)), signer.publicKey, now), log), Some(findings))
            && !HasCritical(findings)
  {
    hide HonestSource, RootHash, Rebindings, Ingested, IngestFindings, Inconsistent, Leaves, IsRun, HeadBytes;
    var log := states[i].storage;
    HonestHeadFits(env, signer, states, steps, i, at, src, v);
    var keyed := v.(checkpoint := v.checkpoint.(logKey := signer.publicKey));
    HonestIngest(env.sha, signer, states, steps, i, at, src, keyed, |log|);
    assert log[..|log|] == log && log[|v.entries|..|log|] == log[|v.entries|..];
    NoMismatchInRebindings(v.entries, log[|v.entries|..]);
  }

  ghost predicate HonestAt(sha: Sha, signer: Signer, states: seq<LogState>, i: nat, src: Source)
    requires i < |states|
  {
    exists at :: HonestSource(sha, signer, states, i, at, src)
  }

  /** Audits one after the other, each of a later moment than the one before. */
  ghost predicate HonestSources(sha: Sha, signer: Signer, states: seq<LogState>, moments: seq<nat>, sources: seq<Source>) {
    && |moments| == |sources| && (forall k :: 0 <= k < |moments| ==> moments[k] < |states|)
    && (forall k, m :: 0 <= k <= m < |moments| ==> moments[k] <= moments[m])
    && (forall k :: 0 <= k < |sources| ==> HonestAt(sha, signer, states, moments[k], sources[k]))
  }

  lemma FollowsOn(sha: Sha, signer: Signer, states: seq<LogState>, steps: seq<TransparencyLog.Step>, v: View, i: nat, j: nat)
    requires IsRun(sha, states, steps) && i <= j < |states| && Follows(sha, signer, v, states[i])
    ensures Follows(sha, signer, v, states[j])
  {
    RunGrows(sha, states, steps, i, j);
  }

  lemma FollowsNow(sha: Sha, signer: Signer, states: seq<LogState>, steps: seq<TransparencyLog.Step>, i: nat, v: View)
    requires IsRun(sha, states, steps) && i < |states| && v.entries == states[i].storage && v.checkpoint.size == |v.entries|
    requires v.checkpoint.rootHash == RootHash(sha, Leaves(sha, v.entries)) && v.checkpoint.logKey == signer.publicKey
    ensures Follows(sha, signer, v, states[i])
  {
    RunKeepsInv(sha, states, steps, i);
  }

  lemma {:induction false} HonestRunIsClean(env: Env, signer: Signer, states: seq<LogState>, steps: seq<TransparencyLog.Step>, moments: seq<nat>,
                                            sources: seq<Source>, start: View)
    requires SignsFor(env, signer) && IsRun(env.sha, states, steps) && HonestSources(env.sha, signer, states, moments, sources)
    requires sources != [] && Follows(env.sha, signer, start, states[moments[0]])
    ensures var log := states[moments[|moments| - 1]].storage; var v := Views(env, start, sources);
            && v.entries == log && v.checkpoint.size == |log| && v.checkpoint.rootHash == RootHash(env.sha, Leaves(env.sha, log))
            && Follows(env.sha, signer, v, states[moments[|moments| - 1]])
    ensures var before := Views(env, start, sources[..|sources| - 1]).entries; var log := states[moments[|moments| - 1]].storage;
            var findings := FindingsAt(env, start, sources, |sources| - 1);
            before <= log && findings == Some(Rebindings(before, log[|before|..])) && !HasCritical(findings.value)
    decreases |sources|
  {
    hide AuditOutcome, RootHash, Rebindings, IsRun, Leaves, Follows, HonestSource, SignsFor, HasCritical;
    var n := |sources| - 1;
    var i := moments[n];
    if n == 0 {
      assert Views(env, start, sources[..n]) == start;
    } else {
      EarlierSources(env.sha, signer, states, moments, sources);
      HonestRunIsClean(env, signer, states, steps, moments[..n], sources[..n], start);
      FollowsOn(env.sha, signer, states, steps, Views(env, start, sources[..n]), moments[n - 1], i);
    }
    var before := Views(env, start, sources[..n]);
    var at :| HonestSource(env.sha, signer, states, i, at, sources[n]);
    HonestAuditIsClean(env, signer, states, steps, i, at, sources[n], before, 0);
    FollowsEntries(env.sha, signer, before, states[i]);
    FollowsNow(env.sha, signer, states, steps, i, Views(env, start, sources));
  }

  lemma EarlierSources(sha: Sha, signer: Signer, states: seq<LogState>, moments: seq<nat>, sources: seq<Source>)
    requires HonestSources(sha, signer, states, moments, sources) && sources != []
    ensures HonestSources(sha, signer, states, moments[..|moments| - 1], sources[..|sources| - 1])
  {
    hide HonestAt;
  }

  lemma FollowsEntries(sha: Sha, signer: Signer, v: View, s: LogState)
    requires Follows(sha, signer, v, s)
    ensures v.entries <= s.storage
  {
  }

  // ----- what an honest auditor has published -----

  /** A checkpoint that an audit of moment k leaves behind. */
  ghost predicate HonestCheckpoint(sha: Sha, signer: Signer, s: LogState, c: AuditCheckpoint) {
    c.size == |s.storage| && c.rootHash == RootHash(sha, Leaves(sha, s.storage)) && c.logKey == signer.publicKey
  }

  /** It is resumed, and the auditor goes on from there. */
  lemma HonestResumes(env: Env, signer: Signer, states: seq<LogState>, steps: seq<TransparencyLog.Step>, k: nat, i: nat, at: int, src: Source,
                      c: AuditCheckpoint)
    requires IsRun(env.sha, states, steps) && k <= i < |states| && HonestSource(env.sha, signer, states, i, at, src)
    requires HonestCheckpoint(env.sha, signer, states[k], c)
    ensures var (v, ok) := ResumeOutcome(env, src, c);
            ok && v.entries == states[k].storage && v.checkpoint.size == c.size && Follows(env.sha, signer, v, states[i])
  {
    hide HonestSource, RootHash, Rebindings, Ingested, IngestFindings;
    RunGrows(env.sha, states, steps, k, i);
    RunKeepsInv(env.sha, states, steps, k);
    if c.size > 0 {
      HonestIngest(env.sha, signer, states, steps, i, at, src, View(EMPTY.(logKey := c.logKey), []), c.size);
      assert states[i].storage[..c.size] == states[k].storage;
    }
  }

  /** Two of them never disagree, whichever is the older. */
  lemma HonestCheckpointsAgree(env: Env, signer: Signer, states: seq<LogState>, steps: seq<TransparencyLog.Step>, a: nat, b: nat, j: nat,
                               mine: AuditCheckpoint, theirs: AuditCheckpoint, proof: Option<seq<Bytes>>)
    requires IsRun(env.sha, states, steps) && a <= j < |states| && b <= j && states[j].writer.None?
    requires HonestCheckpoint(env.sha, signer, states[a], mine) && HonestCheckpoint(env.sha, signer, states[b], theirs)
    requires proof == if theirs.size < mine.size then HonestFetch(env.sha, states[j].hashes, theirs.size, mine.size)
                      else HonestFetch(env.sha, states[j].hashes, mine.size, theirs.size)
    ensures CompareCheckpoints(env, mine, theirs, proof).None?
  {
    hide RootHash, ConsistencyAccepts, ConsistencyProof, IsRun, Leaves;
    if theirs.size < mine.size {
      HonestOrder(env.sha, signer, states, steps, b, a, j, theirs, mine);
    } else {
      HonestOrder(env.sha, signer, states, steps, a, b, j, mine, theirs);
    }
  }

  lemma HonestOrder(sha: Sha, signer: Signer, states: seq<LogState>, steps: seq<TransparencyLog.Step>, a: nat, b: nat, j: nat,
                    first: AuditCheckpoint, second: AuditCheckpoint)
    requires IsRun(sha, states, steps) && a <= j < |states| && b <= j && states[j].writer.None? && first.size <= second.size
    requires HonestCheckpoint(sha, signer, states[a], first) && HonestCheckpoint(sha, signer, states[b], second)
    ensures first.size == second.size ==> first.rootHash == second.rootHash
    ensures var fetched := HonestFetch(sha, states[j].hashes, first.size, second.size);
            fetched.Some? && ConsistencyAccepts(sha, first.size, second.size, fetched.value, first.rootHash, second.rootHash)
  {
    hide RootHash, ConsistencyAccepts, ConsistencyProof, IsRun, Leaves;
    RunGrows(sha, states, steps, a, j);
    RunGrows(sha, states, steps, b, j);
    RunKeepsInv(sha, states, steps, j);
    var log := states[j].storage;
    LeavesOfPrefix(sha, log, first.size);
    LeavesOfPrefix(sha, log, second.size);
    assert log[..first.size] == states[a].storage && log[..second.size] == states[b].storage;
    MerkleSound.HonestConsistencyAccepted(sha, states[j].hashes, first.size, second.size);
  }
}
