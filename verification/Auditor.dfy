/**
 The auditor: an independent process that reads the whole log, checks every head against the one
 before, and recomputes the root from the entries it was served.

 The log it reads is an adversary: every answer of a Source is arbitrary, and a new Source is passed
 to every call.
 */
module Auditing {
  import opened Bytes
  import opened Merkle
  import opened Transparency
  import opened TransparencyLog
  import MerkleSound
  import MerkleVerify

  datatype Source = Source(
    head: Option<SignedTreeHead>,
    consistency: (int, int) -> Option<seq<Bytes>>,
    entries: (int, int) -> Option<seq<LogEntry>>)

  datatype Kind = KindLogKeyChanged | KindBadSignature | KindShrank | KindInconsistent | KindRootMismatch | KindRebinding

  datatype Finding = Finding(kind: Kind, treeSize: int, critical: bool, entry: Option<LogEntry>)

  /** An empty log key means that none has been recorded yet. */
  datatype AuditCheckpoint = AuditCheckpoint(size: int, rootHash: Bytes, logKey: Bytes, checkedAt: int)

  const EMPTY: AuditCheckpoint := AuditCheckpoint(0, [], [], 0)
  const BATCH: nat := 500

  function Critical(kind: Kind, treeSize: int): Finding {
    Finding(kind, treeSize, true, None)
  }

  predicate HasCritical(findings: seq<Finding>) {
    exists f :: f in findings && f.critical
  }

  // ----- what ingesting means, whatever the batching -----

  /** The key of the newest entry for exactly this handle. */
  function LastKey(entries: seq<LogEntry>, handle: Bytes): Option<Bytes> {
    if entries == [] then None
    else
      var last := entries[|entries| - 1];
      if last.handle == handle then Some(last.identityKey) else LastKey(entries[..|entries| - 1], handle)
  }

  /** It is the key of the last of them, and there is none exactly if no entry is for this handle. */
  lemma {:induction false} LastKeyIsNewest(entries: seq<LogEntry>, handle: Bytes)
    ensures LastKey(entries, handle).None? <==> forall e :: e in entries ==> e.handle != handle
    ensures forall i :: 0 <= i < |entries| && entries[i].handle == handle && (forall k :: i < k < |entries| ==> entries[k].handle != handle)
              ==> LastKey(entries, handle) == Some(entries[i].identityKey)
  {
    if entries == [] {
    } else {
      LastKeyIsNewest(entries[..|entries| - 1], handle);
      assert entries == entries[..|entries| - 1] + [entries[|entries| - 1]];
    }
  }

  predicate Rebinds(before: seq<LogEntry>, e: LogEntry) {
    LastKey(before, e.handle).Some? && LastKey(before, e.handle).value != e.identityKey
  }

  /** The last entry for this handle. */
  ghost predicate IsLast(entries: seq<LogEntry>, handle: Bytes, i: nat) {
    i < |entries| && entries[i].handle == handle && forall k :: i < k < |entries| ==> entries[k].handle != handle
  }

  lemma RebindsIff(before: seq<LogEntry>, e: LogEntry)
    ensures Rebinds(before, e) <==> exists i: nat :: IsLast(before, e.handle, i) && before[i].identityKey != e.identityKey
  {
    hide LastKey;
    LastKeyIsNewest(before, e.handle);
    if e.handle in (set x | x in before :: x.handle) {
      var i := LastPlace(before, e.handle);
    }
  }

  lemma {:induction false} LastPlace(entries: seq<LogEntry>, handle: Bytes) returns (i: nat)
    requires exists e :: e in entries && e.handle == handle
    ensures IsLast(entries, handle, i)
  {
    var n := |entries| - 1;
    if entries[n].handle == handle {
      return n;
    }
    assert entries == entries[..n] + [entries[n]];
    i := LastPlace(entries[..n], handle);
  }

  /** One finding per added entry whose key differs from that handle's previous entry, in order. */
  function Rebindings(before: seq<LogEntry>, added: seq<LogEntry>): seq<Finding> {
    if added == [] then []
    else
      var n := |added| - 1;
      Rebindings(before, added[..n]) + Report(before + added[..n], added[n])
  }

  /** The finding, if any, about one entry that comes after these. */
  function Report(before: seq<LogEntry>, e: LogEntry): seq<Finding> {
    if Rebinds(before, e) then [Finding(KindRebinding, |before|, false, Some(e))] else []
  }

  datatype Served = Served(entries: seq<LogEntry>, complete: bool)

  /** The entries a source serves for a range, up to the first batch it fails or cuts short. */
  function ServedRange(src: Source, from: int, upTo: int): Served
    decreases upTo - from
  {
    if from >= upTo then Served([], true)
    else
      var end := if from + BATCH > upTo then upTo else from + BATCH;
      match src.entries(from, end)
      case None => Served([], false)
      case Some(es) =>
        if |es| != end - from then Served([], false)
        else
          var rest := ServedRange(src, end, upTo);
          Served(es + rest.entries, rest.complete)
  }

  /** The longest prefix of the entries that continues the numbering from `next`. */
  function WellNumbered(next: nat, es: seq<LogEntry>): seq<LogEntry>
    decreases |es|
  {
    if es == [] || es[0].index != next then []
    else [es[0]] + WellNumbered(next + 1, es[1..])
  }

  /** What the auditor holds: its checkpoint and the entries it has ingested. */
  datatype View = View(checkpoint: AuditCheckpoint, entries: seq<LogEntry>)

  function Ingested(v: View, src: Source, from: int, upTo: int): View {
    v.(entries := v.entries + WellNumbered(|v.entries|, ServedRange(src, from, upTo).entries))
  }

  /** Either all of the range was served and numbered right, with its rebindings, or nothing is reported. */
  function IngestFindings(v: View, src: Source, from: int, upTo: int): Option<seq<Finding>> {
    var served := ServedRange(src, from, upTo);
    var good := WellNumbered(|v.entries|, served.entries);
    if served.complete && good == served.entries then Some(Rebindings(v.entries, good)) else None
  }

  // ----- one audit -----

  datatype Outcome = Outcome(view: View, findings: Option<seq<Finding>>)

  function AuditOutcome(env: Env, v: View, src: Source, at: int): Outcome {
    if src.head.None? then Outcome(v, None)
    else
      var head := src.head.value;
      if v.checkpoint.logKey != [] && v.checkpoint.logKey != head.logKey then
        Outcome(v, Some([Critical(KindLogKeyChanged, head.size)]))
      else
        var v1 := v.(checkpoint := v.checkpoint.(logKey := head.logKey));
        if VerifyTreeHead(env, head, None).Some? then Outcome(v1, Some([Critical(KindBadSignature, head.size)]))
        else if head.size < v.checkpoint.size then Outcome(v1, Some([Critical(KindShrank, head.size)]))
        else if Inconsistent(env, v.checkpoint, src) then Outcome(v1, Some([Critical(KindInconsistent, head.size)]))
        else IngestOutcome(env, v1, src, at)
  }

  predicate Inconsistent(env: Env, c: AuditCheckpoint, src: Source)
    requires src.head.Some?
  {
    var head := src.head.value;
    && c.size > 0 && head.size > c.size
    && (|| src.consistency(c.size, head.size).None?
        || !ConsistencyAccepts(env.sha, c.size, head.size, src.consistency(c.size, head.size).value, c.rootHash, head.rootHash))
  }

  function IngestOutcome(env: Env, v: View, src: Source, at: int): Outcome
    requires src.head.Some?
  {
    var head := src.head.value;
    var v2 := Ingested(v, src, v.checkpoint.size, head.size);
    match IngestFindings(v, src, v.checkpoint.size, head.size)
    case None => Outcome(v2, Some([Critical(KindRootMismatch, head.size)]))
    case Some(rebindings) =>
      if RootHash(env.sha, Leaves(env.sha, v2.entries)) != head.rootHash
      then Outcome(v2, Some(rebindings + [Critical(KindRootMismatch, head.size)]))
      else Outcome(v2.(checkpoint := AuditCheckpoint(head.size, head.rootHash, head.logKey, at)), Some(rebindings))
  }

  function ResumeOutcome(env: Env, src: Source, c: AuditCheckpoint): (View, bool) {
    var start := View(EMPTY.(logKey := c.logKey), []);
    if c.size == 0 then (start, true)
    else
      var v := Ingested(start, src, 0, c.size);
      if IngestFindings(start, src, 0, c.size).None? || RootHash(env.sha, Leaves(env.sha, v.entries)) != c.rootHash
      then (v, false)
      else (v.(checkpoint := c), true)
  }

  // ----- properties of the numbering and of rebindings -----

  lemma {:induction false} WellNumberedPrefix(next: nat, es: seq<LogEntry>)
    ensures WellNumbered(next, es) <= es
    ensures forall i :: 0 <= i < |WellNumbered(next, es)| ==> es[i].index == next + i
    ensures |WellNumbered(next, es)| < |es| ==> es[|WellNumbered(next, es)|].index != next + |WellNumbered(next, es)|
    decreases |es|
  {
    if es != [] && es[0].index == next {
      WellNumberedPrefix(next + 1, es[1..]);
      var rest := WellNumbered(next + 1, es[1..]);
      assert es == [es[0]] + es[1..];
      forall i | 0 <= i < |rest| + 1
        ensures es[i].index == next + i
      {
        if i > 0 {
          assert es[i] == es[1..][i - 1];
        }
      }
    }
  }

  lemma {:induction false} WellNumberedConcat(next: nat, a: seq<LogEntry>, b: seq<LogEntry>)
    ensures WellNumbered(next, a + b)
         == if WellNumbered(next, a) == a then a + WellNumbered(next + |a|, b) else WellNumbered(next, a)
    decreases |a|
  {
    if a == [] {
      assert a + b == b;
    } else {
      assert (a + b)[0] == a[0] && (a + b)[1..] == a[1..] + b;
      WellNumberedConcat(next + 1, a[1..], b);
      assert a == [a[0]] + a[1..];
    }
  }

  lemma {:induction false} RebindingsConcat(before: seq<LogEntry>, a: seq<LogEntry>, b: seq<LogEntry>)
    ensures Rebindings(before, a + b) == Rebindings(before, a) + Rebindings(before + a, b)
    decreases |b|
  {
    hide Report;
    if b == [] {
      assert a + b == a;
    } else {
      var n := |b| - 1;
      assert (a + b)[..|a| + n] == a + b[..n];
      assert before + (a + b[..n]) == before + a + b[..n];
      RebindingsConcat(before, a, b[..n]);
    }
  }

  /** The finding reports that added entry n carries another key than its handle's entry before. */
  predicate ReportsRebinding(before: seq<LogEntry>, added: seq<LogEntry>, n: nat, f: Finding)
    requires n < |added|
  {
    Rebinds(before + added[..n], added[n]) && f == Finding(KindRebinding, |before| + n, false, Some(added[n]))
  }

  lemma ReportsInPrefix(before: seq<LogEntry>, added: seq<LogEntry>, m: nat, n: nat, f: Finding)
    requires n < m <= |added|
    ensures ReportsRebinding(before, added[..m], n, f) <==> ReportsRebinding(before, added, n, f)
  {
    assert added[..m][..n] == added[..n];
  }

  /** Rebinding findings are exactly the added entries whose key differs from the handle's entry before. */
  lemma {:induction false} RebindingsExact(before: seq<LogEntry>, added: seq<LogEntry>, f: Finding)
    ensures f in Rebindings(before, added) <==> exists n: nat :: n < |added| && ReportsRebinding(before, added, n, f)
  {
    hide Rebinds, LastKey;
    if added == [] {
    } else {
      var m := |added| - 1;
      RebindingsExact(before, added[..m], f);
      if f in Rebindings(before, added[..m]) {
        var n: nat :| n < m && ReportsRebinding(before, added[..m], n, f);
        ReportsInPrefix(before, added, m, n, f);
      } else if f in Rebindings(before, added) {
        assert ReportsRebinding(before, added, m, f);
      }
      if n: nat :| n < m && ReportsRebinding(before, added, n, f) {
        ReportsInPrefix(before, added, m, n, f);
      }
    }
  }

  // ----- whole runs -----

  /** The checkpoint speaks about exactly the ingested entries, which are numbered by their place. */
  ghost predicate Aligned(sha: Sha, v: View) {
    && |v.entries| == v.checkpoint.size && (forall i :: 0 <= i < |v.entries| ==> v.entries[i].index == i)
    && (v.checkpoint.size > 0 ==> v.checkpoint.rootHash == RootHash(sha, Leaves(sha, v.entries)))
  }

  ghost predicate HasMismatch(findings: Option<seq<Finding>>) {
    findings.Some? && exists f :: f in findings.value && f.kind == KindRootMismatch
  }

  lemma NoMismatchInRebindings(before: seq<LogEntry>, added: seq<LogEntry>)
    ensures forall f :: f in Rebindings(before, added) ==> f.kind == KindRebinding && !f.critical
  {
  }

  lemma {:induction false} ServedCount(src: Source, from: int, upTo: int)
    requires ServedRange(src, from, upTo).complete
    ensures |ServedRange(src, from, upTo).entries| == (if from < upTo then upTo - from else 0)
    decreases upTo - from
  {
    if from < upTo {
      ServedCount(src, if from + BATCH > upTo then upTo else from + BATCH, upTo);
    }
  }

  /** One audit, from any state: entries are only added; a critical finding never moves the checkpoint;
      without one the checkpoint is the head, which is signed and is the root of everything ingested. */
  lemma AuditStep(env: Env, v: View, src: Source, at: int)
    ensures var o := AuditOutcome(env, v, src, at);
      && v.entries <= o.view.entries
      && (o.findings.None? || HasCritical(o.findings.value) ==>
            o.view.checkpoint.size == v.checkpoint.size && o.view.checkpoint.rootHash == v.checkpoint.rootHash)
      && (o.findings.Some? && !HasCritical(o.findings.value) ==>
            && Signed(env, src.head.value) && o.view.checkpoint.logKey == src.head.value.logKey
            && o.view.checkpoint.size == src.head.value.size >= v.checkpoint.size
            && o.view.checkpoint.rootHash == src.head.value.rootHash == RootHash(env.sha, Leaves(env.sha, o.view.entries))
            && o.findings.value == Rebindings(v.entries, o.view.entries[|v.entries|..]))
      && (Aligned(env.sha, v) && !HasMismatch(o.findings) ==> Aligned(env.sha, o.view))
      && (v.checkpoint.logKey != [] ==> o.view.checkpoint.logKey == v.checkpoint.logKey)
  {
    hide RootHash, Leaves, ConsistencyAccepts, ServedRange, WellNumbered, Rebindings;
    if src.head.Some? {
      var head := src.head.value;
      if && !(v.checkpoint.logKey != [] && v.checkpoint.logKey != head.logKey)
         && VerifyTreeHead(env, head, None).None? && head.size >= v.checkpoint.size && !Inconsistent(env, v.checkpoint, src) {
        var v1 := v.(checkpoint := v.checkpoint.(logKey := head.logKey));
        IngestStep(env, v1, src, at);
        if Aligned(env.sha, v) {
          IngestedNumbers(v1, src, v1.checkpoint.size, head.size);
        }
      }
    }
  }

  predicate Reports(findings: Option<seq<Finding>>, kind: Kind) {
    findings.Some? && exists f :: f in findings.value && f.critical && f.kind == kind
  }

  /** What each critical finding about a head means. They are told apart in this order. */
  lemma CriticalMeans(env: Env, v: View, src: Source, at: int)
    requires src.head.Some?
    ensures var head := src.head.value; var found := AuditOutcome(env, v, src, at).findings;
            var otherKey := v.checkpoint.logKey != [] && v.checkpoint.logKey != head.logKey;
            var shrank := head.size < v.checkpoint.size;
            && (Reports(found, KindLogKeyChanged) <==> otherKey)
            && (Reports(found, KindBadSignature) <==> !otherKey && !Signed(env, head))
            && (Reports(found, KindShrank) <==> !otherKey && Signed(env, head) && shrank)
            && (Reports(found, KindInconsistent) <==> !otherKey && Signed(env, head) && !shrank && Inconsistent(env, v.checkpoint, src))
  {
    hide Inconsistent, Ingested, RootHash, Rebindings;
    var head := src.head.value;
    NoMismatchInRebindings(v.entries, WellNumbered(|v.entries|, ServedRange(src, v.checkpoint.size, head.size).entries));
  }

  /** The first head pins the key, whatever else is found about it, and then the key never changes. */
  lemma FirstHeadPinsTheKey(env: Env, v: View, src: Source, at: int)
    requires src.head.Some?
    ensures AuditOutcome(env, v, src, at).view.checkpoint.logKey
         == if v.checkpoint.logKey == [] then src.head.value.logKey else v.checkpoint.logKey
  {
    hide Inconsistent, ServedRange, WellNumbered, IngestFindings, RootHash;
  }

  /** Every rebinding among the entries read is reported, and so it is when the root does not match. */
  lemma EveryRebindingIsReported(env: Env, v: View, src: Source, at: int, f: Finding)
    requires src.head.Some? && IngestFindings(v, src, v.checkpoint.size, src.head.value.size).Some?
    requires var found := AuditOutcome(env, v, src, at).findings;
             && !Reports(found, KindLogKeyChanged) && !Reports(found, KindBadSignature)
             && !Reports(found, KindShrank) && !Reports(found, KindInconsistent)
    ensures var o := AuditOutcome(env, v, src, at);
            o.findings.Some? && (f in o.findings.value && !f.critical <==> f in Rebindings(v.entries, o.view.entries[|v.entries|..]))
  {
    hide Inconsistent, ServedRange, WellNumbered, RootHash, Rebindings, Reports;
    CriticalMeans(env, v, src, at);
    var served := ServedRange(src, v.checkpoint.size, src.head.value.size).entries;
    NoMismatchInRebindings(v.entries, served);
    assert (v.entries + served)[|v.entries|..] == served;
  }

  /** What is ingested goes on with the numbering. */
  lemma IngestedNumbers(v: View, src: Source, from: int, upTo: int)
    requires forall i :: 0 <= i < |v.entries| ==> v.entries[i].index == i
    ensures var es := Ingested(v, src, from, upTo).entries; forall i :: 0 <= i < |es| ==> es[i].index == i
  {
    WellNumberedPrefix(|v.entries|, ServedRange(src, from, upTo).entries);
  }

  lemma IngestStep(env: Env, v: View, src: Source, at: int)
    requires src.head.Some? && src.head.value.size >= v.checkpoint.size
    ensures var o := IngestOutcome(env, v, src, at);
      && o.findings.Some? && v.entries <= o.view.entries
      && (HasCritical(o.findings.value) ==> o.view.checkpoint == v.checkpoint && HasMismatch(o.findings))
      && (!HasCritical(o.findings.value) ==>
            && o.view.checkpoint == AuditCheckpoint(src.head.value.size, src.head.value.rootHash, src.head.value.logKey, at)
            && o.view.checkpoint.rootHash == RootHash(env.sha, Leaves(env.sha, o.view.entries))
            && o.findings.value == Rebindings(v.entries, o.view.entries[|v.entries|..])
            && (|v.entries| == v.checkpoint.size ==> |o.view.entries| == o.view.checkpoint.size))
  {
    hide RootHash, Leaves, ServedRange, WellNumbered, Rebindings;
    var head := src.head.value;
    var served := ServedRange(src, v.checkpoint.size, head.size);
    var good := WellNumbered(|v.entries|, served.entries);
    var mismatch := Critical(KindRootMismatch, head.size);
    NoMismatchInRebindings(v.entries, good);
    assert (v.entries + good)[|v.entries|..] == good;
    assert mismatch in [mismatch] && mismatch in Rebindings(v.entries, good) + [mismatch];
    if served.complete {
      ServedCount(src, v.checkpoint.size, head.size);
    }
  }

  /** A fresh auditor is aligned, and so is one that resumed a published checkpoint with success. */
  lemma StartsAligned(env: Env, src: Source, c: AuditCheckpoint)
    requires c.size >= 0
    ensures Aligned(env.sha, View(EMPTY, []))
    ensures ResumeOutcome(env, src, c).1 ==> Aligned(env.sha, ResumeOutcome(env, src, c).0)
                                             && ResumeOutcome(env, src, c).0.checkpoint.size == c.size
  {
    hide RootHash, Leaves, ServedRange, WellNumbered, Rebindings;
    if ServedRange(src, 0, c.size).complete {
      ServedCount(src, 0, c.size);
      assert [] + ServedRange(src, 0, c.size).entries == ServedRange(src, 0, c.size).entries;
      IngestedNumbers(View(EMPTY, []), src, 0, c.size);
    }
  }

  /** The view of an auditor after a run of audits of whatever sources. */
  function Views(env: Env, start: View, sources: seq<Source>): View {
    if sources == [] then start
    else AuditOutcome(env, Views(env, start, sources[..|sources| - 1]), sources[|sources| - 1], 0).view
  }

  function FindingsAt(env: Env, start: View, sources: seq<Source>, i: nat): Option<seq<Finding>>
    requires i < |sources|
  {
    AuditOutcome(env, Views(env, start, sources[..i]), sources[i], 0).findings
  }

  /** Over any run: the ingested entries form one growing list, and up to the first root mismatch the
      checkpoint is the size and the root of all of it. */
  lemma {:induction false} AuditorRun(env: Env, start: View, sources: seq<Source>, i: nat)
    requires Aligned(env.sha, start) && i <= |sources|
    ensures Views(env, start, sources[..i]).entries <= Views(env, start, sources).entries
    ensures (forall k :: 0 <= k < |sources| ==> !HasMismatch(FindingsAt(env, start, sources, k)))
        ==> && Aligned(env.sha, Views(env, start, sources))
            && Views(env, start, sources[..i]).checkpoint.size <= Views(env, start, sources).checkpoint.size
    decreases |sources|
  {
    hide AuditOutcome, RootHash, Leaves, HasMismatch, Aligned;
    if sources == [] {
      assert Views(env, start, sources) == start;
      assert sources[..i] == sources;
    } else {
      var n := |sources| - 1;
      AuditStep(env, Views(env, start, sources[..n]), sources[n], 0);
      FindingsInPrefix(env, start, sources, n);
      var last := FindingsAt(env, start, sources, n);
      if i <= n {
        AuditorRun(env, start, sources[..n], i);
        assert sources[..n][..i] == sources[..i];
      } else {
        AuditorRun(env, start, sources[..n], 0);
        assert sources[..i] == sources;
      }
    }
  }

  lemma FindingsInPrefix(env: Env, start: View, sources: seq<Source>, n: nat)
    requires n <= |sources|
    ensures forall k :: 0 <= k < n ==> FindingsAt(env, start, sources[..n], k) == FindingsAt(env, start, sources, k)
  {
    forall k | 0 <= k < n
      ensures FindingsAt(env, start, sources[..n], k) == FindingsAt(env, start, sources, k)
    {
      assert sources[..n][..k] == sources[..k];
    }
  }

  /** Two checkpoints accepted in one mismatch-free run are roots of prefixes of one entry list. */
  lemma AcceptedCheckpointsArePrefixes(env: Env, start: View, sources: seq<Source>, i: nat)
    requires Aligned(env.sha, start) && i <= |sources|
    requires forall k :: 0 <= k < |sources| ==> !HasMismatch(FindingsAt(env, start, sources, k))
    requires Views(env, start, sources[..i]).checkpoint.size > 0
    ensures var early, late := Views(env, start, sources[..i]), Views(env, start, sources);
            && early.checkpoint.size <= |late.entries|
            && early.checkpoint.rootHash == RootHash(env.sha, Leaves(env.sha, late.entries)[..early.checkpoint.size])
            && late.checkpoint.rootHash == RootHash(env.sha, Leaves(env.sha, late.entries))
  {
    hide AuditOutcome, RootHash, HasMismatch, Views;
    AuditorRun(env, start, sources, i);
    FindingsInPrefix(env, start, sources, i);
    AuditorRun(env, start, sources[..i], i);
    assert sources[..i][..i] == sources[..i];
    var early, late := Views(env, start, sources[..i]), Views(env, start, sources);
    assert late.entries[..|early.entries|] == early.entries;
    LeavesOfPrefix(env.sha, late.entries, |early.entries|);
  }

  // ----- a mismatch is for good -----

  /** A source that numbers its entries by their place in the log. */
  ghost predicate NumbersByPlace(src: Source) {
    forall from: int, upTo: int, i: nat ::
      src.entries(from, upTo).Some? && i < |src.entries(from, upTo).value| ==> src.entries(from, upTo).value[i].index == from + i
  }

  /** A mismatch leaves the checkpoint behind the entries exactly if the audit had taken any in. */
  lemma MismatchMisalignsIff(env: Env, v: View, src: Source, at: int)
    requires Aligned(env.sha, v) && HasMismatch(AuditOutcome(env, v, src, at).findings)
    ensures Aligned(env.sha, AuditOutcome(env, v, src, at).view) <==> AuditOutcome(env, v, src, at).view.entries == v.entries
  {
    hide RootHash, AuditOutcome;
    AuditStep(env, v, src, at);
    MismatchIsCritical(env, v, src, at);
    var z := AuditOutcome(env, v, src, at).view;
    assert |z.entries| == |v.entries| ==> z.entries == v.entries;
  }

  lemma MismatchIsCritical(env: Env, v: View, src: Source, at: int)
    requires HasMismatch(AuditOutcome(env, v, src, at).findings)
    ensures HasCritical(AuditOutcome(env, v, src, at).findings.value)
  {
    hide RootHash, ConsistencyAccepts, Rebindings, Ingested;
    if src.head.Some? {
      var head := src.head.value;
      NoMismatchInRebindings(v.entries, WellNumbered(|v.entries|, ServedRange(src, v.checkpoint.size, head.size).entries));
    }
    var f :| f in AuditOutcome(env, v, src, at).findings.value && f.kind == KindRootMismatch;
  }

  /** Leaf hashes are not rolled back after a mismatch, so an auditor that holds more entries than its
      checkpoint covers reports a critical finding for every longer head, however honest. */
  lemma MismatchSticks(env: Env, v: View, src: Source, at: int)
    requires |v.entries| > v.checkpoint.size && NumbersByPlace(src)
    requires src.head.Some? && src.head.value.size > v.checkpoint.size
    ensures var o := AuditOutcome(env, v, src, at);
            o.findings.Some? && HasCritical(o.findings.value) && o.view.entries == v.entries
  {
    hide RootHash, ConsistencyAccepts, Rebindings;
    var from, upTo := v.checkpoint.size, src.head.value.size;
    var served := ServedRange(src, from, upTo);
    assert !served.complete || served.entries != [] by {
      if served.complete {
        ServedCount(src, from, upTo);
      }
    }
    assert served.entries != [] ==> served.entries[0].index == from;
    assert WellNumbered(|v.entries|, served.entries) == [];
    var o := AuditOutcome(env, v, src, at);
    assert o.findings.value[0].critical;
  }

  // ----- comparing auditors -----

  /** None means that the two checkpoints agree. */
  function CompareCheckpoints(env: Env, mine: AuditCheckpoint, theirs: AuditCheckpoint, proof: Option<seq<Bytes>>)
    : Option<ProofError>
  {
    if mine.logKey != [] && theirs.logKey != [] && mine.logKey != theirs.logKey then Some(ProofFailed)
    else if mine.size == theirs.size then if mine.rootHash == theirs.rootHash then None else Some(ProofFailed)
    else if proof.None? then Some(ProofFailed)
    else
      var (first, second) := if theirs.size < mine.size then (theirs, mine) else (mine, theirs);
      if ConsistencyAccepts(env.sha, first.size, second.size, proof.value, first.rootHash, second.rootHash) then None
      else Some(ProofFailed)
  }

  /** Auditors of different logs never agree. */
  lemma AgreeingMeansOneKey(env: Env, mine: AuditCheckpoint, theirs: AuditCheckpoint, proof: Option<seq<Bytes>>)
    requires CompareCheckpoints(env, mine, theirs, proof).None?
    ensures mine.logKey == [] || theirs.logKey == [] || mine.logKey == theirs.logKey
  {
  }

  /** The strings hashed as leaves for these entries. */
  function LeafInputs(entries: seq<LogEntry>): set<Bytes> {
    set e | e in entries :: LeafInput(EncodeEntry(e))
  }

  /** Everything that two auditors, and the comparison of their checkpoints, hash about the size they share. */
  function ComparisonInputs(env: Env, short: View, long: View, proof: Option<seq<Bytes>>): set<Bytes> {
    var n, leaves := |short.entries|, Leaves(env.sha, long.entries);
    LeafInputs(short.entries) + LeafInputs(long.entries)
    + MerkleSound.TreeInputs(env.sha, Leaves(env.sha, short.entries)) + MerkleSound.TreeInputs(env.sha, leaves)
    + (if n <= |leaves| then MerkleSound.TreeInputs(env.sha, leaves[..n]) else {})
    + if proof.Some? && ConsistencyAccepts(env.sha, n, |leaves|, proof.value, short.checkpoint.rootHash, long.checkpoint.rootHash)
      then MerkleSound.ConsistencyInputs(env.sha, n, |leaves|, proof.value, short.checkpoint.rootHash, long.checkpoint.rootHash)
      else {}
  }

  lemma SameLeafSameEntry(sha: Sha, e: LogEntry, f: LogEntry, inputs: set<Bytes>)
    requires Encodable(e) && Encodable(f) && e.index == f.index
    requires HashLeaf(sha, EncodeEntry(e)) == HashLeaf(sha, EncodeEntry(f))
    requires LeafInput(EncodeEntry(e)) in inputs && LeafInput(EncodeEntry(f)) in inputs
    ensures e == f || MerkleSound.Collision(sha, inputs)
  {
    hide EncodeEntry;
    if LeafInput(EncodeEntry(e)) == LeafInput(EncodeEntry(f)) {
      SplitEqualPrefix([0], [0], EncodeEntry(e), EncodeEntry(f));
      EncodeEntryInjective(e, f);
    }
  }

  lemma SameLeavesSameEntries(sha: Sha, es: seq<LogEntry>, fs: seq<LogEntry>, inputs: set<Bytes>)
    requires |es| == |fs| && Leaves(sha, es) == Leaves(sha, fs) && LeafInputs(es) + LeafInputs(fs) <= inputs
    requires forall i :: 0 <= i < |es| ==> es[i].index == fs[i].index && Encodable(es[i]) && Encodable(fs[i])
    ensures es == fs || MerkleSound.Collision(sha, inputs)
  {
    hide EncodeEntry, LeafInput, Encodable, MerkleSound.Collision;
    forall i | 0 <= i < |es|
      ensures es[i] == fs[i] || MerkleSound.Collision(sha, inputs)
    {
      assert es[i] in es && fs[i] in fs;
      assert Leaves(sha, es)[i] == Leaves(sha, fs)[i];
      SameLeafSameEntry(sha, es[i], fs[i], inputs);
    }
  }

  /** The shorter auditor's root is the root of the longer one's first leaves. */
  lemma AgreedRoot(env: Env, short: View, long: View, proof: Option<seq<Bytes>>)
    requires Aligned(env.sha, short) && Aligned(env.sha, long) && 0 < |short.entries| <= |long.entries|
    requires CompareCheckpoints(env, short.checkpoint, long.checkpoint, proof).None?
    ensures || RootHash(env.sha, Leaves(env.sha, short.entries)) == RootHash(env.sha, Leaves(env.sha, long.entries)[..|short.entries|])
            || MerkleSound.Collision(env.sha, ComparisonInputs(env, short, long, proof))
  {
    hide RootHash, ConsistencyAccepts, MerkleSound.Collision, MerkleSound.TreeInputs, MerkleSound.ConsistencyInputs, LeafInputs;
    var n, leaves := |short.entries|, Leaves(env.sha, long.entries);
    if n < |leaves| {
      MerkleSound.AcceptedConsistencySound(env.sha, leaves, n, proof.value, short.checkpoint.rootHash);
      MerkleSound.CollisionGrows(env.sha, MerkleSound.TreeInputs(env.sha, leaves)
        + MerkleSound.ConsistencyInputs(env.sha, n, |leaves|, proof.value, short.checkpoint.rootHash, long.checkpoint.rootHash),
        ComparisonInputs(env, short, long, proof));
    } else {
      assert leaves[..n] == leaves;
    }
  }

  lemma ShorterIsPrefix(env: Env, short: View, long: View, proof: Option<seq<Bytes>>)
    requires Aligned(env.sha, short) && Aligned(env.sha, long) && |short.entries| <= |long.entries|
    requires forall e :: e in short.entries || e in long.entries ==> Encodable(e)
    requires CompareCheckpoints(env, short.checkpoint, long.checkpoint, proof).None?
    ensures short.entries <= long.entries || MerkleSound.Collision(env.sha, ComparisonInputs(env, short, long, proof))
  {
    hide RootHash, CompareCheckpoints, MerkleSound.Collision, LeafInputs, Encodable;
    var n, inputs := |short.entries|, ComparisonInputs(env, short, long, proof);
    if n > 0 && !MerkleSound.Collision(env.sha, inputs) {
      var prefix := long.entries[..n];
      AgreedRoot(env, short, long, proof);
      LeavesOfPrefix(env.sha, long.entries, n);
      InputsWithin(env, short, long, proof);
      MerkleSound.SameRootSameLeaves(env.sha, Leaves(env.sha, short.entries), Leaves(env.sha, prefix));
      MerkleSound.CollisionGrows(env.sha, MerkleSound.TreeInputs(env.sha, Leaves(env.sha, short.entries))
                                          + MerkleSound.TreeInputs(env.sha, Leaves(env.sha, prefix)), inputs);
      SameLeavesSameEntries(env.sha, short.entries, prefix, inputs);
    }
  }

  lemma InputsWithin(env: Env, short: View, long: View, proof: Option<seq<Bytes>>)
    requires |short.entries| <= |long.entries|
    ensures var prefix := long.entries[..|short.entries|]; var inputs := ComparisonInputs(env, short, long, proof);
            && LeafInputs(short.entries) + LeafInputs(prefix) <= inputs
            && MerkleSound.TreeInputs(env.sha, Leaves(env.sha, short.entries))
               + MerkleSound.TreeInputs(env.sha, Leaves(env.sha, prefix)) <= inputs
  {
    hide MerkleSound.TreeInputs, MerkleSound.ConsistencyInputs, ConsistencyAccepts;
    LeavesOfPrefix(env.sha, long.entries, |short.entries|);
    assert forall e :: e in long.entries[..|short.entries|] ==> e in long.entries;
  }

  /** Two aligned auditors whose checkpoints agree saw one log: entry by entry, as far as the shorter one has come. */
  lemma AgreeingAuditorsShareALog(env: Env, mine: View, theirs: View, proof: Option<seq<Bytes>>)
    requires Aligned(env.sha, mine) && Aligned(env.sha, theirs)
    requires forall e :: e in mine.entries || e in theirs.entries ==> Encodable(e)
    requires CompareCheckpoints(env, mine.checkpoint, theirs.checkpoint, proof).None?
    ensures mine.entries <= theirs.entries || theirs.entries <= mine.entries
         || MerkleSound.Collision(env.sha, ComparisonInputs(env, mine, theirs, proof))
         || MerkleSound.Collision(env.sha, ComparisonInputs(env, theirs, mine, proof))
  {
    hide ConsistencyAccepts, ComparisonInputs, MerkleSound.Collision, Encodable, RootHash;
    if |mine.entries| <= |theirs.entries| {
      ShorterIsPrefix(env, mine, theirs, proof);
    } else {
      ShorterIsPrefix(env, theirs, mine, proof);
    }
  }

  // ----- the running process -----

  lemma WellNumberedStep(next: nat, es: seq<LogEntry>, j: nat)
    requires j < |es| && WellNumbered(next, es[..j]) == es[..j]
    ensures es[j].index == next + j ==> WellNumbered(next, es[..j + 1]) == es[..j + 1]
    ensures es[j].index != next + j ==> WellNumbered(next, es) == es[..j]
  {
    assert es[..j + 1] == es[..j] + es[j..j + 1] && es == es[..j] + es[j..];
    WellNumberedConcat(next, es[..j], es[j..j + 1]);
    WellNumberedConcat(next, es[..j], es[j..]);
    assert es[j..j + 1][0] == es[j] && es[j..][0] == es[j];
    if es[j].index == next + j {
      assert WellNumbered(next + j, es[j..j + 1]) == es[j..j + 1];
    }
  }

  lemma RebindingsStep(before: seq<LogEntry>, es: seq<LogEntry>, j: nat)
    requires j < |es|
    ensures Rebindings(before, es[..j + 1]) == Rebindings(before, es[..j]) + Report(before + es[..j], es[j])
  {
    hide Report;
    var upToJ := es[..j + 1];
    assert |upToJ| - 1 == j && upToJ[..j] == es[..j] && upToJ[j] == es[j];
  }

  /** The last step of every pass, and the end of the range. */
  lemma ServedStep(src: Source, start: int, upTo: int)
    ensures start >= upTo ==> ServedRange(src, start, upTo) == Served([], true)
    ensures start < upTo ==>
      var end := if start + BATCH > upTo then upTo else start + BATCH;
      var answer := src.entries(start, end);
      ServedRange(src, start, upTo)
        == if answer.None? || |answer.value| != end - start then Served([], false)
           else Served(answer.value + ServedRange(src, end, upTo).entries, ServedRange(src, end, upTo).complete)
  {
  }

  /** One call of ingest from view v, and how far its outer loop has come. */
  datatype IngestPass = IngestPass(src: Source, from: int, upTo: int, v: View) {
    ghost predicate Reached(start: int, done: seq<LogEntry>, findings: seq<Finding>) {
      && WellNumbered(|v.entries|, done) == done
      && findings == Rebindings(v.entries, done)
      && ServedRange(src, from, upTo).entries == done + ServedRange(src, start, upTo).entries
      && ServedRange(src, from, upTo).complete == ServedRange(src, start, upTo).complete
    }

    lemma Begin()
      ensures Reached(from, [], [])
    {
      hide ServedRange;
      assert WellNumbered(|v.entries|, []) == [] && Rebindings(v.entries, []) == [];
      assert [] + ServedRange(src, from, upTo).entries == ServedRange(src, from, upTo).entries;
    }

    lemma Result(start: int, done: seq<LogEntry>, findings: seq<Finding>)
      requires Reached(start, done, findings)
      ensures var rest := ServedRange(src, start, upTo);
              var more := WellNumbered(|v.entries + done|, rest.entries);
              && Ingested(v, src, from, upTo) == v.(entries := v.entries + done + more)
              && IngestFindings(v, src, from, upTo)
                   == if rest.complete && more == rest.entries then Some(findings + Rebindings(v.entries + done, more)) else None
    {
      hide WellNumbered, Rebindings, ServedRange;
      var rest := ServedRange(src, start, upTo);
      var served := ServedRange(src, from, upTo);
      var more := WellNumbered(|v.entries + done|, rest.entries);
      assert |v.entries + done| == |v.entries| + |done|;
      WellNumberedConcat(|v.entries|, done, rest.entries);
      assert WellNumbered(|v.entries|, served.entries) == done + more;
      assert v.entries + (done + more) == v.entries + done + more;
      assert done + more == done + rest.entries <==> more == rest.entries by {
        assert (done + more)[|done|..] == more && (done + rest.entries)[|done|..] == rest.entries;
      }
      RebindingsConcat(v.entries, done, more);
    }

    /** A batch that is missing or cut short ends the pass without findings. */
    lemma Short(start: int, done: seq<LogEntry>, findings: seq<Finding>)
      requires Reached(start, done, findings) && start < upTo
      requires var end := if start + BATCH > upTo then upTo else start + BATCH;
               src.entries(start, end).None? || |src.entries(start, end).value| != end - start
      ensures Ingested(v, src, from, upTo) == v.(entries := v.entries + done)
      ensures IngestFindings(v, src, from, upTo) == None
    {
      hide Rebindings, ServedRange;
      ServedStep(src, start, upTo);
      Result(start, done, findings);
      assert v.entries + done + [] == v.entries + done;
    }

    lemma End(start: int, done: seq<LogEntry>, findings: seq<Finding>)
      requires Reached(start, done, findings) && start >= upTo
      ensures Ingested(v, src, from, upTo) == v.(entries := v.entries + done)
      ensures IngestFindings(v, src, from, upTo) == Some(findings)
    {
      hide ServedRange;
      ServedStep(src, start, upTo);
      Result(start, done, findings);
      assert v.entries + done + [] == v.entries + done && findings + [] == findings;
    }

    lemma FullBatch(start: int, done: seq<LogEntry>, findings: seq<Finding>, es: seq<LogEntry>)
      requires Reached(start, done, findings) && start < upTo && WellNumbered(|v.entries + done|, es) == es
      requires var end := if start + BATCH > upTo then upTo else start + BATCH;
               src.entries(start, end) == Some(es) && |es| == end - start
      ensures var end := if start + BATCH > upTo then upTo else start + BATCH;
              Reached(end, done + es, findings + Rebindings(v.entries + done, es))
    {
      hide WellNumbered, Rebindings, ServedRange;
      var end := if start + BATCH > upTo then upTo else start + BATCH;
      ServedStep(src, start, upTo);
      assert |v.entries + done| == |v.entries| + |done|;
      WellNumberedConcat(|v.entries|, done, es);
      RebindingsConcat(v.entries, done, es);
      assert done + (es + ServedRange(src, end, upTo).entries) == (done + es) + ServedRange(src, end, upTo).entries;
    }

    lemma BadBatch(start: int, done: seq<LogEntry>, findings: seq<Finding>, es: seq<LogEntry>)
      requires Reached(start, done, findings) && start < upTo && WellNumbered(|v.entries + done|, es) != es
      requires var end := if start + BATCH > upTo then upTo else start + BATCH;
               src.entries(start, end) == Some(es) && |es| == end - start
      ensures var good := WellNumbered(|v.entries + done|, es);
              Ingested(v, src, from, upTo) == v.(entries := v.entries + done + good) && IngestFindings(v, src, from, upTo) == None
    {
      hide WellNumbered, Rebindings, ServedRange;
      var end := if start + BATCH > upTo then upTo else start + BATCH;
      ServedStep(src, start, upTo);
      Result(start, done, findings);
      WellNumberedConcat(|v.entries + done|, es, ServedRange(src, end, upTo).entries);
      WellNumberedPrefix(|v.entries + done|, es);
    }

    /** A full batch either moves the pass on, or ends it at its first wrong index. */
    lemma Batch(start: int, done: seq<LogEntry>, findings: seq<Finding>, es: seq<LogEntry>)
      requires Reached(start, done, findings) && start < upTo
      requires var end := if start + BATCH > upTo then upTo else start + BATCH;
               src.entries(start, end) == Some(es) && |es| == end - start
      ensures var end := if start + BATCH > upTo then upTo else start + BATCH;
              var good := WellNumbered(|v.entries + done|, es);
              && (good == es ==> Reached(end, done + es, findings + Rebindings(v.entries + done, es)))
              && (good != es ==> && Ingested(v, src, from, upTo) == v.(entries := v.entries + done + good)
                                 && IngestFindings(v, src, from, upTo) == None)
    {
      hide WellNumbered, Rebindings, ServedRange, Reached, Ingested, IngestFindings;
      if WellNumbered(|v.entries + done|, es) == es {
        FullBatch(start, done, findings, es);
      } else {
        BadBatch(start, done, findings, es);
      }
    }
  }

  class Auditor {
    const env: Env
    var checkpoint: AuditCheckpoint
    var leafHashes: seq<Digest>
    var bindings: map<Bytes, Bytes>
    /** The entries behind the leaf hashes. */
    ghost var entries: seq<LogEntry>

    ghost predicate Valid()
      reads this
    {
      && leafHashes == Leaves(env.sha, entries)
      && (forall h :: h in bindings <==> LastKey(entries, h).Some?)
      && (forall h :: h in bindings ==> LastKey(entries, h) == Some(bindings[h]))
    }

    ghost function Holds(): View
      reads this
    {
      View(checkpoint, entries)
    }

    constructor (env: Env)
      ensures Valid() && this.env == env && Holds() == View(EMPTY, [])
    {
      this.env, checkpoint, leafHashes, bindings, entries := env, EMPTY, [], map[], [];
    }

    static lemma OneMore(sha: Sha, es: seq<LogEntry>, e: LogEntry)
      ensures Leaves(sha, es + [e]) == Leaves(sha, es) + [HashLeaf(sha, EncodeEntry(e))]
      ensures forall h :: LastKey(es + [e], h) == if h == e.handle then Some(e.identityKey) else LastKey(es, h)
    {
      assert (es + [e])[..|es|] == es;
    }

    /** One entry, already known to carry the next index. */
    method Take(e: LogEntry) returns (rebinds: bool)
      requires Valid()
      modifies `leafHashes, `bindings, `entries
      ensures Valid() && entries == old(entries) + [e] && rebinds == Rebinds(old(entries), e)
    {
      hide LastKey, Leaves;
      rebinds := e.handle in bindings && bindings[e.handle] != e.identityKey;
      OneMore(env.sha, entries, e);
      bindings := bindings[e.handle := e.identityKey];
      leafHashes := leafHashes + [HashLeaf(env.sha, EncodeEntry(e))];
      entries := entries + [e];
    }

    /** The inner loop: stops at the first entry whose index is not the next one, keeping what came before. */
    method IngestBatch(es: seq<LogEntry>) returns (r: Option<seq<Finding>>)
      requires Valid()
      modifies `leafHashes, `bindings, `entries
      ensures Valid() && entries == old(entries) + WellNumbered(|old(entries)|, es)
      ensures r == if WellNumbered(|old(entries)|, es) == es then Some(Rebindings(old(entries), es)) else None
    {
      hide WellNumbered, Rebindings, Rebinds, LastKey;
      ghost var n, before := |entries|, entries;
      var findings: seq<Finding> := [];
      EmptyBatch(n, before, es);
      for j := 0 to |es|
        invariant Valid() && entries == before + es[..j]
        invariant WellNumbered(n, es[..j]) == es[..j] && findings == Rebindings(before, es[..j])
      {
        var e := es[j];
        WellNumberedStep(n, es, j);
        if e.index != |leafHashes| {
          return None;
        }
        RebindingsStep(before, es, j);
        assert es[..j + 1] == es[..j] + [e];
        var rebinds := Take(e);
        if rebinds {
          findings := findings + [Finding(KindRebinding, |leafHashes| - 1, false, Some(e))];
        }
      }
      assert es[..|es|] == es;
      return Some(findings);
    }

    static lemma EmptyBatch(n: nat, before: seq<LogEntry>, es: seq<LogEntry>)
      ensures WellNumbered(n, es[..0]) == es[..0] && Rebindings(before, es[..0]) == []
    {
    }

    method Ingest(src: Source, from: int, upTo: int) returns (r: Option<seq<Finding>>)
      requires Valid()
      modifies `leafHashes, `bindings, `entries
      ensures Valid() && Holds() == Ingested(old(Holds()), src, from, upTo)
      ensures r == IngestFindings(old(Holds()), src, from, upTo)
    {
      hide Ingested, IngestFindings, IngestPass.Reached, Rebindings, ServedRange, WellNumbered, LastKey;
      ghost var pass := IngestPass(src, from, upTo, Holds());
      ghost var done: seq<LogEntry> := [];
      var findings: seq<Finding> := [];
      pass.Begin();
      var start := from;
      while start < upTo
        invariant Valid() && entries == pass.v.entries + done
        invariant pass.Reached(start, done, findings)
        decreases upTo - start
      {
        var end := if start + BATCH > upTo then upTo else start + BATCH;
        var answer := src.entries(start, end);
        if answer.None? || |answer.value| != end - start {
          pass.Short(start, done, findings);
          return None;
        }
        var es := answer.value;
        pass.Batch(start, done, findings, es);
        var batch := IngestBatch(es);
        if batch.None? {
          return None;
        }
        findings := findings + batch.value;
        done := done + es;
        start := end;
      }
      pass.End(start, done, findings);
      return Some(findings);
    }

    method Resume(src: Source, c: AuditCheckpoint) returns (ok: bool)
      modifies this
      ensures Valid()
      ensures var (v, done) := ResumeOutcome(env, src, c); Holds() == v && ok == done
    {
      hide WellNumbered, Rebindings, ServedRange, RootHash;
      checkpoint, leafHashes, bindings, entries := EMPTY.(logKey := c.logKey), [], map[], [];
      if c.size == 0 {
        return true;
      }
      var r := Ingest(src, 0, c.size);
      if r.None? || RootHash(env.sha, leafHashes) != c.rootHash {
        return false;
      }
      checkpoint := c;
      return true;
    }

    method Audit(src: Source, at: int) returns (findings: Option<seq<Finding>>)
      requires Valid()
      modifies this
      ensures Valid()
      ensures var o := AuditOutcome(env, old(Holds()), src, at); Holds() == o.view && findings == o.findings
    {
      hide WellNumbered, Rebindings, ServedRange, RootHash, ConsistencyAccepts, Ingested, IngestFindings, LastKey;
      if src.head.None? {
        return None;
      }
      var head := src.head.value;
      if checkpoint.logKey == [] {
        checkpoint := checkpoint.(logKey := head.logKey);
      } else if checkpoint.logKey != head.logKey {
        return Some([Critical(KindLogKeyChanged, head.size)]);
      }
      if VerifyTreeHead(env, head, None).Some? {
        return Some([Critical(KindBadSignature, head.size)]);
      }
      if head.size < checkpoint.size {
        return Some([Critical(KindShrank, head.size)]);
      }
      if checkpoint.size > 0 && head.size > checkpoint.size {
        var proof := src.consistency(checkpoint.size, head.size);
        if proof.None? {
          return Some([Critical(KindInconsistent, head.size)]);
        }
        var err := MerkleVerify.VerifyConsistency(env.sha, checkpoint.size, head.size, proof.value, checkpoint.rootHash, head.rootHash);
        if err.Some? {
          return Some([Critical(KindInconsistent, head.size)]);
        }
      }
      var rebindings := Ingest(src, checkpoint.size, head.size);
      if rebindings.None? {
        return Some([Critical(KindRootMismatch, head.size)]);
      }
      if RootHash(env.sha, leafHashes) != head.rootHash {
        return Some(rebindings.value + [Critical(KindRootMismatch, head.size)]);
      }
      checkpoint := AuditCheckpoint(head.size, head.rootHash, head.logKey, at);
      return rebindings;
    }
  }
}
