# Tildra in Dafny

Tildra is an end-to-end encrypted messenger: a Go server that routes envelopes and keeps a public log of identity
keys, and a TypeScript client. This project models the parts of both that have to hold over every run, and proves
what they promise. Objects that the program changes in place are classes here, loops are loops with invariants, and
each method is proved against a function of its inputs or of the old state; the lemmas are about those functions.

**Key transparency** (`Bytes`, `Merkle`, `MerkleClimb`, `MerkleVerify`, `MerkleSound`, `MerkleEntries`,
`Int32Verify`, `Transparency`, `TransparencyLog`, `LogClient`, `Auditor`, `HonestAudit`). The tree hash, the audit
path and the consistency path are the recursions of sections 2.1, 2.1.1 and 2.1.2 of RFC 6962; the verifiers are the
shifting loops of sections 2.1.3.2 and 2.1.4.2 of RFC 9162. `MerkleClimb` relates the shifts to the recursion,
`MerkleVerify` proves that the loops accept exactly what the recursion accepts, and `MerkleSound` that they are
complete and sound for every tree size. The hash is a parameter. A soundness statement reads "the claim holds, or
two different strings out of this finite set have one hash", and the set is written out: the strings that the tree
and the proof in question make the parties hash. On top of that stand the client that threads a checkpoint through
its lookups, gossip between contacts, the server's log with its hash cache under interleaving, and the auditors.
`LogClient` ties the theorems about whole runs to the client's methods, which compute in 32 bits. `HonestAudit` is
the other half of what an auditor is for: an honest server never sets off a critical finding, whatever is appended
while it is read.

**Double Ratchet** (`Ratchet`, `RatchetSync`, `RatchetRun`, `RatchetExpiry`, `RatchetSecrecy`). Cryptography is
symbolic: keys are terms, Diffie-Hellman is an unordered pair, a sealed value opens only under its own key and
associated data. A delivery is the session manager's transaction of load, decrypt, and save on success. Two parties
run over a network that may drop, delay, repeat, reorder and splice, and seal what it likes under keys of its own.
The result is an equivalence: a peer's message decrypts exactly if it was not delivered before, its key was not
evicted or expired, and no step skips more than MAX_SKIP. `RatchetExpiry` records when each key was cached and says
for how long it is good; what a stolen state gives away is characterised exactly as well.

**Groups** (`GroupRatchet`, `GroupRatchetRun`, `GroupExpiry`, `GroupMembership`, `GroupRemoval`). The sender-key
ratchet under an arbitrary network, where members who hold the chain key may send whatever they like; and the
cascade that one removal sets off among the remaining devices, while distributions from before it are on their way.

**Delivery** (`Mail`, `Socket`, `Hub`, `Delivery`, `DeliveryProgress`). The queue with its in-place compaction, the
connections with their bounded buffers, and the client that keeps acks until they can be sent, as one system in
which any connection may die at any time: nothing is lost, no ack is forgotten, and mail can always come through.

**Handshake and prekeys** (`Handshake`, `PreKeys`, `PreKeyRun`, `SessionSetup`). The handshake that begins a
session, the pool of one-time keys over whole runs, told apart by key because ids come back, and the composition: an
honest bundle, and no other, leads to a ratchet session that is in step.

**Calls** (`Calling`, `CallFanout`, `CallProgress`) and the **wire format** (`Wire`, `Sealed`).

Where the code and what is said about it disagree, the model follows the code:

- `mobile/src/session/manager.ts:1725` says, and section 4 of `docs/PROTOCOL.md` repeats, that a device which learns
  of a removal redistributes at the epoch it adopted. `rotateAfterRemoval` (line 1942) adds one first. The cascade
  ends all the same, but the common epoch is the remover's exactly if no other device remains, and higher otherwise
  (`GroupRemoval.FirstInvite`, `GroupRemoval.CascadeSettles`).
- Section 4 of `docs/PROTOCOL.md` promises a rotation "when a member leaves or is removed". A device that removes
  itself is put back by the first device that hears of it, because a sender is always made a member
  (`GroupRemoval.LeavingIsUndone`), and a removed device by any distribution of its own that comes in late
  (`GroupRemoval.RemovedSenderReturns`). The cascade is therefore stated for a remover who stays and for late
  distributions of the devices that remain.
- `mobile/src/session/manager.ts:1677` stores whatever chain an invite carries, of an older epoch too, while line
  1688 says of such an invite that its list is ignored. The list is; but a distribution from before the removal that
  comes in last puts the sender's old chain back (`GroupRemoval.LateDistributionUndoes`).
- `server/internal/gateway/hub.go:164-166` says that the backlog is drained before a connection goes live. `Serve`
  registers the connection first, so a live envelope can overtake the backlog. Nothing here relies on that order.
- `server/internal/gateway/hub.go:189` only logs what does not fit the send buffer. While 64 envelopes at the head
  of what a connection asks for stay unacked, nothing behind them is drained (`Hub.HeadOfLine`).
- `mobile/src/crypto/identity.ts:60-67` says that a top-up continues the id sequence. It numbers on from the highest
  classical id still held, so it repeats ids exactly if the newest key is not held any more
  (`PreKeyRun.TopUpRepeatsIff`, with a run of honest handshakes in `PreKeyRun.IdsComeBack`). Because the PQ keys are
  numbered from the classical ids, a top-up can write over a PQ key that is still on offer
  (`PreKeyRun.TopUpOverwritesPqIff`, `PreKeyRun.PqKeyIsLost`). Single use holds all the same, key by key.
- The TypeScript verifiers shift in 32 bits. For sizes up to 2^31 they agree with the Go ones; at 2^31 + 1 an honest
  proof is refused; and at positive multiples of 2^32 the first loop of `verifyConsistency` never ends.
- `group.ts` prunes its cache only when the chain moves, so unlike in the pairwise ratchet a cached key that has
  expired can still be used once, until such a step comes (`GroupExpiry.CachedIsReadable`,
  `GroupExpiry.LateGroupMessage`).

## Model

| member | source | states |
|---|---|---|
| Merkle.SplitPoint | server/internal/transparency/merkle.go:84-90 | the largest power of two below n |
| MerkleClimb.ClimbIsInclusion | server/internal/transparency/merkle.go:118-153 | shifting index and size to the top of the tree takes one step per node of the audit path, turns left where the recursion does, and ends at (0, 0) |
| MerkleClimb.ClimbIsConsistency | server/internal/transparency/merkle.go:208-253 | the same for the consistency walk, which starts after the trailing ones of first - 1 are shifted out |
| MerkleVerify.RootFromPathIsFold | server/internal/transparency/merkle.go:118-153 | the recursive reading of an audit path is a fold of its nodes along the turns, and exists exactly for the right path length |
| MerkleVerify.RootsFromPathIsFold | server/internal/transparency/merkle.go:188-264 | the same for both roots of a consistency path |
| MerkleVerify.ShiftPastZeros | server/internal/transparency/merkle.go:135-138 | the inner shifting loop |
| MerkleVerify.ShiftPastOnes | server/internal/transparency/merkle.go:211-214 | the loop in front of the consistency walk |
| MerkleVerify.VerifyInclusion | server/internal/transparency/merkle.go:118-153 | accepts exactly the paths that the recursion folds to the root, and names the right error otherwise |
| MerkleVerify.VerifyConsistency | server/internal/transparency/merkle.go:188-264 | accepts exactly the paths that the recursion folds to both roots, with the special cases of an empty and an unchanged log, and names the right error otherwise |
| MerkleSound.SameRootSameLeaves | server/internal/transparency/merkle.go:52-90 | lists of one length with one root are the same list, or a collision |
| MerkleEntries.SameRootSameEntries | server/internal/transparency/merkle.go:45-78 | one root belongs to one list of entries, whatever the lengths, or a collision among the strings that the two lists make one hash: leaves and nodes are kept apart |
| MerkleSound.InclusionComplete | server/internal/transparency/merkle.go:94-153 | for every tree and index the prover's path, read recursively, gives the root |
| MerkleSound.HonestInclusionAccepted | server/internal/transparency/merkle.go:94-153 | every audit path of the prover is accepted |
| MerkleSound.InclusionSound | server/internal/transparency/merkle.go:118-153 | an accepted leaf is the leaf at that index and the path is the honest one, or a collision |
| MerkleSound.ConsistencyPathParts | server/internal/transparency/merkle.go:169-184 | the prover's consistency path is the honest seed, left out if the old tree is a complete left part, and the honest rest |
| MerkleSound.GrowthComplete | server/internal/transparency/merkle.go:157-264 | seed and rest of the prover give both roots, for every pair of sizes |
| MerkleSound.GrowthSound | server/internal/transparency/merkle.go:188-264 | any seed and rest that give the new root are the honest ones and give the old root, or a collision |
| MerkleSound.HonestConsistencyAccepted | server/internal/transparency/merkle.go:157-264 | for 0 <= first <= second <= length the prover's path is accepted for the two prefix roots |
| MerkleSound.AcceptedConsistencySound | server/internal/transparency/merkle.go:188-264 | for 0 < first, a path accepted against the root of a leaf list shows that the old root is the root of the list's first leaves, and is the prover's path, or a collision |
| MerkleSound.EmptyTreeAlwaysAccepted | server/internal/transparency/merkle.go:192-195 | why first > 0 is needed: an empty old tree is accepted with any roots and path |
| Int32Verify.ShiftPastZeros32 | mobile/src/crypto/transparency.ts:140-143 | the 32-bit loop agrees with the unbounded one below 2^31 |
| Int32Verify.ShiftPastOnes32 | mobile/src/crypto/transparency.ts:188-193 | the same, where it ends at all |
| Int32Verify.VerifyInclusion | mobile/src/crypto/transparency.ts:116-156 | the same verdict as the Go verifier for every size up to 2^31; beyond it, the refusal that shows the bound is sharp |
| Int32Verify.VerifyConsistency | mobile/src/crypto/transparency.ts:160-241 | the same verdict as the Go verifier for every second size up to 2^31; called whenever it returns at all |
| Int32Verify.BoundIsSharp | mobile/src/crypto/transparency.ts:116-156 | the first size beyond the bound has an honest proof that the unbounded verifier accepts |
| Int32Verify.SpinsForever | mobile/src/crypto/transparency.ts:188-193 | the first loop never ends exactly if first is a positive multiple of 2^32 |
| Transparency.EncodeEntryInjective | mobile/src/crypto/transparency.ts:95-103 | entries that encode alike agree in everything but their index |
| Transparency.HeadBytesInjective | mobile/src/crypto/transparency.ts:243-257 | what is signed tells size, root and time |
| Transparency.VerifyHandleProof | mobile/src/crypto/transparency.ts:267-302 | the verdict and the next checkpoint, in terms of what the two proofs prove; and at every size an accepted head is signed, under the pinned key, and the entry is for the handle asked for |
| Transparency.RunSafe | mobile/src/crypto/transparency.ts:267-302 | over any run of lookups from no checkpoint: if the last accepted root is that of a leaf list, every earlier accepted root is that of a prefix and signed, and every accepted entry is for its handle and is the leaf at its index, or a collision |
| Transparency.SignedLookupVouched | mobile/src/crypto/transparency.ts:243-302 | under a key that signs only the heads of one list, whatever is accepted, on the first lookup too, is an entry of that list for the handle asked for, or a collision |
| Transparency.CrossCheckTreeHead | mobile/src/crypto/transparency.ts:321-362 | the verdict on a contact's tree head, whichever is the larger; what agrees is signed under our key |
| Transparency.HonestGossipAccepted | mobile/src/crypto/transparency.ts:321-362 | two heads of one honest log never look like a split view |
| Transparency.AcceptedGossipSound | mobile/src/crypto/transparency.ts:321-362 | heads that pass are heads of one log: the smaller is the root of a prefix, or a collision |
| TransparencyLog.LatestIsStored | server/internal/transparency/log.go:188-192 | the entry looked up is stored and is for that handle |
| TransparencyLog.LatestIsNewest | server/internal/store/memory/memory.go:473-483 | the last stored entry whose handle folds to the one asked for, and none exactly if there is no such entry |
| TransparencyLog.StepKeepsInv | server/internal/transparency/log.go:125-174 | every step of the log keeps the cache a prefix of the storage's leaf hashes, one behind at most while an append is writing |
| TransparencyLog.RunGrows | server/internal/transparency/log.go:125-174 | storage and cache only ever grow |
| TransparencyLog.CacheMatchesStorage | server/internal/transparency/log.go:125-174 | whenever no append is writing, the cache holds exactly the leaf hashes of the storage |
| TransparencyLog.AnswersAreAccepted | server/internal/transparency/log.go:188-217 | every answer to a lookup, however its read and its snapshot interleave with appends, is accepted by the client for any checkpoint signed earlier |
| TransparencyLog.LoadRace | server/internal/transparency/log.go:125-217 | over any run, a load that overlaps appends leaves the cache right exactly if nothing was appended between its read and its end, and afterwards the log can prove exactly the entries stored before the read |
| TransparencyLog.Log.Install | server/internal/transparency/log.go:135-143 | the part of a load after its read: the cache becomes the leaf hashes of what was read |
| TransparencyLog.Log.Load | server/internal/transparency/log.go:125-145 | the cache becomes the leaf hashes of the storage |
| TransparencyLog.Log.Append | server/internal/transparency/log.go:151-174 | appends one entry at the next index and its hash, or changes nothing if the newest binding is the same or the storage fails |
| LogClient.RunIsOneLog | mobile/src/crypto/transparency.ts:267-302 | the same statement for whatever list of leaves the checkpoint stands for |
| LogClient.HonestAnswerAccepted | server/internal/transparency/log.go:188-217 | an honest server's answer, from any moments of any run of its log, passes the client's check |
| LogClient.AgreeingMeansNoFork | mobile/src/crypto/transparency.ts:321-362 | whatever list the larger of two agreeing heads stands for, the smaller is the head of its first entries, or a collision |
| LogClient.NoFalseAlarm | mobile/src/crypto/transparency.ts:321-362 | heads of one list, with the proof the log gives for them, are never called a split view |
| LogClient.Client.LookUp | mobile/src/state/app.ts:751-773 | the stored checkpoint follows the run of lookups up to 2^31 entries: exactly the answers that extend it are used, honest ones always, each signed and for the handle asked for, every entry ever used is in the one log behind the checkpoint, or a collision; a server that has proved its answers once may not stop |
| LogClient.Client.AcceptGossip | mobile/src/session/manager.ts:1383-1406 | agreement means a signed head of our log and, up to 2^31 entries, no fork, or a collision, and honest heads raise no alarm; without a checkpoint nothing is compared |
| Auditing.LastKeyIsNewest | server/internal/auditor/auditor.go:239-252 | the key that a handle is bound to is that of its last entry |
| Auditing.RebindsIff | server/internal/auditor/auditor.go:239-250 | an entry rebinds its handle exactly if the last entry of that handle before it has another key |
| Auditing.RebindingsExact | server/internal/auditor/auditor.go:218-256 | a rebinding is reported for exactly the entries whose key differs from that handle's previous entry |
| Auditing.RebindingsConcat | server/internal/auditor/auditor.go:218-256 | the reports do not depend on how entries are batched |
| Auditing.AuditStep | server/internal/auditor/auditor.go:134-214 | one audit only adds entries; a critical finding never moves the checkpoint; otherwise the checkpoint is the verified, signed head |
| Auditing.CriticalMeans | server/internal/auditor/auditor.go:144-193 | which critical finding a head gets: another key, no good signature, a smaller log, or no consistency, exactly and in this order |
| Auditing.FirstHeadPinsTheKey | server/internal/auditor/auditor.go:144-155 | the first head pins the key, whatever else is found about it, and the key never changes |
| Auditing.EveryRebindingIsReported | server/internal/auditor/auditor.go:195-208 | every rebinding among the entries read is reported, also when the root does not match |
| Auditing.StartsAligned | server/internal/auditor/auditor.go:110-127 | a new auditor, and one that resumed, holds a checkpoint about exactly its entries |
| Auditing.AuditorRun | server/internal/auditor/auditor.go:110-214 | over any run the entries form one growing list, and up to the first root mismatch the checkpoint is the size and root of exactly that list |
| Auditing.AcceptedCheckpointsArePrefixes | server/internal/auditor/auditor.go:134-214 | two checkpoints accepted in one run without a mismatch are roots of prefixes of one entry list |
| Auditing.MismatchMisalignsIff | server/internal/auditor/auditor.go:195-208 | after a mismatch the checkpoint is still about exactly the entries held if and only if the audit took none in |
| Auditing.MismatchSticks | server/internal/auditor/auditor.go:195-208 | why the run ends there: after a mismatch the surplus leaf hashes make every later growth fail |
| Auditing.AgreeingAuditorsShareALog | server/internal/auditor/auditor.go:278-306 | two auditors whose checkpoints agree hold one list of entries as far as the shorter one has come, whichever it is and at equal sizes too, or a collision |
| Auditing.AgreeingMeansOneKey | server/internal/auditor/auditor.go:283-286 | auditors of different logs never agree |
| HonestAudit.AllServed | server/internal/api/api.go:895-930 | the bounded batches of the entries endpoint add up to the range, whatever is appended between them |
| HonestAudit.HonestAuditIsClean | server/internal/auditor/auditor.go:134-256 | an audit of an honest server reports exactly the rebindings among the new entries, none critical, and moves the checkpoint to the head; for a log that has not grown, nothing |
| HonestAudit.HonestRunIsClean | server/internal/auditor/auditor.go:134-256 | and so does every audit of a run |
| HonestAudit.HonestResumes | server/internal/auditor/auditor.go:110-127 | a checkpoint that an honest log has passed is resumed |
| HonestAudit.HonestCheckpointsAgree | server/internal/auditor/auditor.go:278-306 | two checkpoints of one honest log agree, whichever is the older |
| Auditing.Auditor.Take | server/internal/auditor/auditor.go:239-253 | one entry is hashed and bound, and reported if it rebinds |
| Auditing.Auditor.IngestBatch | server/internal/auditor/auditor.go:235-254 | a batch is taken up to its first wrong index |
| Auditing.Auditor.Ingest | server/internal/auditor/auditor.go:218-256 | the loop over batches takes exactly the well-numbered part of what was served |
| Auditing.Auditor.Resume | server/internal/auditor/auditor.go:110-127 | the whole new state, and whether the checkpoint matched |
| Auditing.Auditor.Audit | server/internal/auditor/auditor.go:134-214 | the whole new state and all findings |
| Ratchet.RatchetState.PruneSkipped | mobile/src/crypto/ratchet.ts:373-388 | expired entries go, then the oldest beyond the bound |
| Ratchet.RatchetState.SkipMessageKeys | mobile/src/crypto/ratchet.ts:354-371 | the state after skipping, and when it throws |
| Ratchet.RatchetState.AdoptPeerKey | mobile/src/crypto/ratchet.ts:319-331 | the receiving half of a DH ratchet step |
| Ratchet.RatchetState.BeginSendingChain | mobile/src/crypto/ratchet.ts:333-342 | the sending half |
| Ratchet.RatchetState.DhRatchet | mobile/src/crypto/ratchet.ts:319-343 | both halves |
| Ratchet.RatchetState.TrySkippedKeys | mobile/src/crypto/ratchet.ts:390-409 | the first cached key that fits is used and removed |
| Ratchet.RatchetState.Encrypt | mobile/src/crypto/ratchet.ts:207-242 | the whole new state and the message, or the refusal before the first step |
| Ratchet.RatchetState.Decrypt | mobile/src/crypto/ratchet.ts:244-282 | the whole new state, which has moved on even where the body fails |
| Ratchet.SessionStore.Receive | mobile/src/session/manager.ts:912-1003 | load, decrypt, and save if the content decodes and the sender's identity key is the known one; otherwise the session is as before |
| RatchetSync.HeaderInjective | mobile/src/crypto/ratchet.ts:300-317 | no two chains of a session share a header key |
| RatchetSync.RatchetKeys | mobile/src/crypto/ratchet.ts:319-343 | after a DH ratchet step every key of the party is the one its place in the list of key pairs calls for |
| RatchetSync.SkipToKeeps | mobile/src/crypto/ratchet.ts:354-371 | skipping caches the true keys of the positions it passes and changes nothing else |
| RatchetSync.DroppedMeansExpiredOrOldest | mobile/src/crypto/ratchet.ts:373-388 | what pruning drops has expired, or 1000 unexpired entries were inserted after it |
| RatchetRun.BeginInv | mobile/src/crypto/ratchet.ts:142-186 | initInitiator and initResponder agree on every key both will use |
| RatchetRun.WeSend | mobile/src/crypto/ratchet.ts:207-242 | sending produces the genuine next message of the chain and keeps the invariant |
| RatchetRun.HeaderTellsChain | mobile/src/crypto/ratchet.ts:300-317 | which header key opens a message tells exactly which chain it is on |
| RatchetRun.SearchIsExact | mobile/src/crypto/ratchet.ts:390-409 | the cache search succeeds exactly if the key of that position is cached |
| RatchetRun.DeliveryExact | mobile/src/crypto/ratchet.ts:244-282 | a delivery returns exactly the peer's plaintext if the position is cached or within reach; otherwise nothing, and the saved state is as before |
| RatchetRun.DeliveryKeeps | mobile/src/crypto/ratchet.ts:244-282 | a successful delivery keeps the invariant and is the first of its position |
| RatchetRun.MovedBodyRejected | mobile/src/crypto/ratchet.ts:284-293 | a body sealed for another header or with other associated data is never accepted |
| RatchetRun.ForeignRejected | mobile/src/crypto/ratchet.ts:244-282 | a message of another session changes nothing |
| RatchetRun.ForgedBodyRejected | mobile/src/session/manager.ts:964-1003 | a genuine header with a body under a key that is no message key of the session moves the ratchet and fails, and the saved session is as before |
| RatchetRun.StepKeepsInv | mobile/src/crypto/ratchet.ts:142-409 | sends, deliveries and noise, in any order, keep the two parties in step |
| RatchetRun.RunKeepsInv | mobile/src/crypto/ratchet.ts:142-409 | and so does every run |
| RatchetRun.AtMostOnce | mobile/src/session/manager.ts:978-1006 | no run returns a message twice, and what it returns is what the peer sent |
| RatchetRun.DecryptsExactly | mobile/src/crypto/ratchet.ts:244-282 | in every reachable state a peer's message decrypts, to its plaintext, if and only if it is undelivered, its key was not evicted or expired, and no step skips more than MAX_SKIP |
| RatchetRun.EncryptBoundsCache | mobile/src/crypto/ratchet.ts:207-216 | after every encrypt at most 1000 keys are cached |
| RatchetRun.DecryptBoundsCache | mobile/src/crypto/ratchet.ts:244-282 | after every decrypt too, whatever the state and the message |
| RatchetExpiry.DeliveryStamps | mobile/src/crypto/ratchet.ts:354-388 | a delivery caches keys of positions it passes with its own time, leaves the others as they were, and evicts only what had expired or is crowded out |
| RatchetExpiry.CachedWhenPassed | mobile/src/crypto/ratchet.ts:354-371 | in every run a key is cached by the step that passes its position, and by no later one |
| RatchetExpiry.TimedRunKeepsInv | mobile/src/crypto/ratchet.ts:142-409 | in every run each cached key carries the time of the step that cached it |
| RatchetExpiry.DroppedMeansRunOutOrCrowdedOut | mobile/src/crypto/ratchet.ts:373-388 | in every run a dropped key was cached more than the lifetime before the step that drops it, or 1000 unexpired keys come after it |
| RatchetExpiry.ReadableForTheTtl | mobile/src/crypto/ratchet.ts:354-409 | in every reachable state a message whose key is cached is read exactly within the lifetime of seven days from the step that cached it |
| RatchetExpiry.LateMessage | mobile/src/crypto/ratchet.ts:244-409 | from a new session on, the first of two messages that comes in second is read exactly within that time |
| RatchetSecrecy.DerivableExactly | mobile/src/crypto/ratchet.ts:84-109 | with a session state and every DH secret, the key of a message on a chain begun so far can be derived exactly if the chain has not reached it or it is cached |
| RatchetSecrecy.ForwardSecrecy | mobile/src/crypto/ratchet.ts:207-282 | messages that were delivered or sent, and keys that were dropped, are beyond reach |
| GroupRatchet.ReceiverKey.PruneSkipped | mobile/src/crypto/group.ts:271-285 | expired entries go, then the oldest beyond the bound |
| GroupRatchet.ReceiverKey.TakeMessageKey | mobile/src/crypto/group.ts:236-269 | the key of a position and the whole new state, in closed form |
| GroupRatchet.ReceiverKey.Decrypt | mobile/src/crypto/group.ts:195-227 | signature first, then the key, then the body |
| GroupRatchet.SenderKey.Encrypt | mobile/src/crypto/group.ts:170-193 | the chain moves on by one and the message is the one of its position |
| GroupRatchet.ReceiverStore.Receive | mobile/src/session/manager.ts:1850-1851 | load, decrypt, and save if the content decodes |
| GroupRatchetRun.SendNext | mobile/src/crypto/group.ts:138-193 | the sender's object stays in step with its history, and distributes from its current position |
| GroupRatchetRun.LowestGoFirst | mobile/src/crypto/group.ts:271-285 | what is evicted has expired, or 1000 unexpired entries with higher positions remain |
| GroupRatchetRun.PutRangeKeys | mobile/src/crypto/group.ts:252-264 | skipping caches the true keys of the positions it passes, in ascending order |
| GroupRatchetRun.TakeCached | mobile/src/crypto/group.ts:236-241 | a cached position is yielded and leaves the cache |
| GroupRatchetRun.TakeAhead | mobile/src/crypto/group.ts:251-268 | a position ahead is yielded and the chain key is the k-fold step of the distributed one |
| GroupRatchetRun.DeliveryExact | mobile/src/crypto/group.ts:195-269 | a sender's message yields its plaintext exactly if it is not before the distribution, not yielded, not dropped and at most 1000 ahead |
| GroupRatchetRun.OnlySenderWrites | mobile/src/crypto/group.ts:200-211 | what does not carry the sender's signature is rejected, whoever made it and whatever chain keys they hold |
| GroupRatchetRun.FailureChangesNothing | mobile/src/session/manager.ts:1850-1851 | whatever arrives, what yields nothing leaves the stored key as it was |
| GroupRatchetRun.DerivableExactly | mobile/src/crypto/group.ts:86-91 | a receiver's state gives away the key of a position exactly if it is not before the distribution and was neither yielded nor dropped |
| GroupRatchetRun.RunIsSafe | mobile/src/crypto/group.ts:138-285 | in every run each position is yielded at most once, as sent, and none before the distribution is yielded or derivable |
| GroupExpiry.DroppedMeansExpiredOrCrowdedOut | mobile/src/crypto/group.ts:251-285 | in every run a dropped key was cached more than the lifetime before, or 1000 keys of later positions stay |
| GroupExpiry.MovingOnDropsExpired | mobile/src/crypto/group.ts:251-285 | where there is room, a step that moves the chain drops exactly the cached keys that have expired and caches every key it skips |
| GroupExpiry.CachedIsReadable | mobile/src/crypto/group.ts:236-241 | a cached key is good at any time until such a step |
| GroupExpiry.LateGroupMessage | mobile/src/crypto/group.ts:195-285 | from the distribution on, the first of three messages that comes in last is read exactly if the third came in within the lifetime of the second |
| GroupMembership.OlderInviteIgnored | mobile/src/session/manager.ts:1688-1721 | a distribution of an older epoch brings nobody back but its sender, changes no epoch and sends nothing |
| GroupMembership.EqualInviteJoins | mobile/src/session/manager.ts:1682-1721 | at one epoch the members are those known and those listed, nobody is dropped and nothing is sent |
| GroupMembership.NewerInviteDeclares | mobile/src/session/manager.ts:1691-1733 | at a newer epoch the list is the sender's, and it costs a rotation exactly if it leaves out somebody known |
| GroupMembership.ChainsAfterInvite | mobile/src/session/manager.ts:1677-1733 | the sender's chain is the one that came last, chains of removed devices go, and all others stay |
| GroupMembership.AccountIsCutOff | mobile/src/session/manager.ts:1912-1952 | removing an account removes exactly its devices, sends the new sender key to exactly the others, and keeps none of theirs; nothing happens if it has none |
| GroupMembership.DeviceByDeviceTells | mobile/src/session/manager.ts:1903-1911 | removed device by device, the account's other devices are sent the new key on the way |
| GroupMembership.GroupDevice.DistributeSenderKey | mobile/src/session/manager.ts:1635-1665 | every listed member but ourselves is told |
| GroupMembership.GroupDevice.AcceptSenderKey | mobile/src/session/manager.ts:1667-1733 | the merge of the lists by epoch, the removals it implies, and the rotation that follows; a distribution for another group is refused |
| GroupMembership.GroupDevice.RotateAfterRemoval | mobile/src/session/manager.ts:1941-1952 | epoch, sender key, receiver keys and distribution together |
| GroupMembership.GroupDevice.RemoveGroupMember | mobile/src/session/manager.ts:1877-1886 | removes one device, or nothing if it is no member |
| GroupMembership.GroupDevice.RemoveGroupAccount | mobile/src/session/manager.ts:1912-1921 | removes every device of an account with one rotation |
| GroupRemoval.FirstInvite | mobile/src/session/manager.ts:1691-1730 | the first distribution makes a device rotate, at one more than the epoch it carried |
| GroupRemoval.LaterInvite | mobile/src/session/manager.ts:1691-1730 | any later one is taken in without another rotation |
| GroupRemoval.StaleInvite | mobile/src/session/manager.ts:1677-1721 | one from before the removal changes neither list nor epoch, before or after the rotation; only the sender's chain |
| GroupRemoval.DeliverKeepsInv | mobile/src/session/manager.ts:1635-1733 | every delivery, in any order, keeps the cascade's invariant |
| GroupRemoval.CascadeTerminates | mobile/src/session/manager.ts:1635-1733 | among n remaining devices at most n(n - 1) distributions are delivered besides those from before the removal, and none is ever addressed to a removed device |
| GroupRemoval.CascadeSettles | mobile/src/session/manager.ts:1635-1733 | once nothing is in flight every remaining device has rotated exactly once, and all share the remaining members, an epoch of at most e0 + n that is e0 + 1 exactly if nobody but the remover remains, no key of a removed device, and of each other the chain that came in last, which is the fresh one exactly if it is not one from before the removal |
| GroupRemoval.LateDistributionUndoes | mobile/src/session/manager.ts:1677 | a distribution from before the removal that comes in last puts the old chain back |
| GroupRemoval.RemovedSenderReturns | mobile/src/session/manager.ts:1705 | one from a removed device makes it a member again, however old it is |
| GroupRemoval.LeavingIsUndone | mobile/src/session/manager.ts:1705 | a remover among the removed is made a member again by the first device that hears of it |
| Mail.MailQueue.Enqueue | server/internal/store/memory/memory.go:271-277 | appends, growing the backing array when it is full |
| Mail.MailQueue.Dequeue | server/internal/store/memory/memory.go:279-292 | a copy of the first envelopes; the queue is unchanged |
| Mail.MailQueue.Ack | server/internal/store/memory/memory.go:294-320 | in-place compaction is the order-preserving filter |
| Mail.MailQueue.Sweep | server/internal/store/memory/memory.go:538-561 | the same by age, and the count of what was destroyed |
| Mail.UnackedTwice | server/internal/store/memory/memory.go:294-320 | two acks are one ack of both sets |
| Mail.SweepIsAck | server/internal/store/memory/memory.go:538-561 | sweeping, which goes by age, is acking what has expired exactly if no envelope that stays shares an id with one that goes |
| Socket.TildraSocket.Track | mobile/src/api/socket.ts:189-196 | the ack is pending |
| Socket.TildraSocket.Untrack | mobile/src/api/socket.ts:198-202 | the ack is pending no more, and nothing else changes |
| Socket.TildraSocket.Ack | mobile/src/api/socket.ts:221-224 | an ack that could not be sent stays pending |
| Socket.TildraSocket.OnOpen | mobile/src/api/socket.ts:93-105 | subscribes again and sends every pending ack |
| Socket.TildraSocket.OnMessage | mobile/src/api/socket.ts:107-129 | a closed or replaced connection delivers no more |
| Socket.TildraSocket.HandleMessage | mobile/src/api/socket.ts:151-187 | envelopes are handled one at a time and acked only on success |
| Socket.TildraSocket.Subscribe | mobile/src/api/socket.ts:214-218 | remembered, and sent if the connection is open |
| Socket.OpeningReplaysAll | mobile/src/api/socket.ts:99-104 | opening sends exactly the pending acks and leaves none behind |
| Socket.AckSentOrKept | mobile/src/api/socket.ts:189-231 | the ack of a handled envelope goes out exactly if the connection is open, and is pending exactly if not; no other pending ack changes |
| Socket.OpeningSubscribesAgain | mobile/src/api/socket.ts:93-98 | opening asks for exactly the mailboxes subscribed to |
| Hub.Connection.Register | server/internal/gateway/hub.go:76-81 | the connection serves the added mailboxes too |
| Hub.Connection.Offer | server/internal/gateway/hub.go:128-142 | a full buffer closes the connection instead of growing |
| Hub.Connection.Drain | server/internal/gateway/hub.go:174-194 | the buffer takes the first 64 of all backlogs together and nothing after them |
| Hub.DrainsCompose | server/internal/gateway/hub.go:174-224 | draining mailboxes one by one is draining them together |
| Hub.HeadOfLine | server/internal/gateway/hub.go:174-194 | which envelopes of which mailbox a subscription drains, and where: exactly those that fit the buffer behind everything before them; what is enqueued behind them makes no difference |
| Delivery.EnqueueKeepsQueue | server/internal/store/memory/memory.go:271-277 | the queue stays everything enqueued, in order, less what was destroyed |
| Delivery.AckArrivesKeepsAcks | server/internal/gateway/hub.go:279-291 | only a connection of the mailbox's own device destroys mail, and only mail the client handled |
| Delivery.HandleKeepsAcks | mobile/src/api/socket.ts:151-231 | an ack is sent or kept only for an envelope the handler accepted |
| Delivery.StepKeepsFate | mobile/src/api/socket.ts:189-231 | the ack of a handled envelope is pending, on its way, or went down with a connection that the server dropped |
| Delivery.PendingUntilSent | mobile/src/api/socket.ts:93-231 | a pending ack stays pending until a frame carries it |
| Delivery.StepKeepsInv | server/internal/gateway/hub.go:112-300 | every step of server, network and client keeps the invariant |
| Delivery.Conservation | mobile/src/api/socket.ts:93-231 | an envelope for our device, not past its time, is queued or was handled |
| Delivery.NothingIsLost | mobile/src/api/socket.ts:93-231 | and so it is after every run; pending and travelling acks are for handled envelopes, no ack of one is forgotten, and the queue is in order |
| Delivery.ReplayDestroys | mobile/src/api/socket.ts:99-104 | a pending ack destroys its envelope once the frame that replays it arrives |
| DeliveryProgress.MailComesThrough | server/internal/gateway/hub.go:144-300 | from every reachable state with nothing left to handle, a new connection can deliver any of the first 64 envelopes of a mailbox, and its ack destroys that one and no other |
| DeliveryProgress.PushReachesOrCloses | server/internal/gateway/hub.go:112-142 | a live envelope is buffered behind what is there, or the connection is closed; it is not dropped in silence |
| DeliveryProgress.TakenOnStays | server/internal/gateway/hub.go:144-240 | what a connection has taken on stays on it as long as it lives |
| DeliveryProgress.OnlyTheCurrentDelivers | mobile/src/api/socket.ts:107-129 | only the current connection, and only until we close it, adds to what is to be handled |
| DeliveryProgress.ClosedIsSilent | mobile/src/api/socket.ts:107-149 | once the connection is closed, by us or not, nothing is sent or taken in until there is another one |
| DeliveryProgress.SubscriptionsComeBack | server/internal/gateway/hub.go:196-224 | after a reconnect the server serves every mailbox of ours that was subscribed to |
| DeliveryProgress.StepKeepsAsked | mobile/src/api/socket.ts:93-218 | over an open connection the client has asked for every mailbox it subscribes to |
| Calling.CallManager.PlaceCall | mobile/src/session/manager.ts:2058-2124 | offers to every device that can be reached, or a failed call; nothing for a flagged contact |
| Calling.CallManager.AnswerCall | mobile/src/session/manager.ts:2127-2159 | one answer, and only for a ringing incoming call of a contact that is not flagged; the call advances only if it was sent |
| Calling.CallManager.MarkCallConnected | mobile/src/session/manager.ts:2232-2237 | only a connecting call becomes active |
| Calling.CallManager.EndCall | mobile/src/session/manager.ts:2240-2256 | tells the peer device, or all that ring, and ends |
| Calling.CallManager.FinishCall | mobile/src/session/manager.ts:2306-2312 | the call ends and nothing rings |
| Calling.CallManager.ReceiveCallAnswer | mobile/src/session/manager.ts:2471-2517 | the first verified answer from a ringing device wins, and the others are told |
| Calling.CallManager.ReceiveCallRenegotiation | mobile/src/session/manager.ts:2532-2566 | a renegotiation that fails a check ends the call |
| Calling.CallManager.ReceiveCallEnd | mobile/src/session/manager.ts:2586-2602 | only the peer device ends a settled call |
| Calling.CallManager.ReceiveCallSignal | mobile/src/session/manager.ts:2375-2469 | what each kind of signal does, offers and busy replies included |
| CallFanout.OpKeepsWellFormed | mobile/src/crypto/calling.ts:743-863 | a placed call has no peer until it is answered, any other has one |
| CallFanout.PinNeverChanges | mobile/src/crypto/calling.ts:777-863 | whatever is done and whatever arrives, a pinned fingerprint and peer device stay |
| CallFanout.PinnedMeansSigned | mobile/src/crypto/calling.ts:432-481 | a fingerprint is pinned only if the peer's identity key signed exactly it, for this call, role and pair of accounts |
| CallFanout.CalleeHearsKeeps | mobile/src/session/manager.ts:2419-2602 | a callee device has the call only through the offer, and loses it through the hangup |
| CallFanout.CallerHearsKeepsInv | mobile/src/session/manager.ts:2471-2517 | when an answer wins, every other device involved has a hangup on its way |
| CallFanout.StepKeepsInv | mobile/src/session/manager.ts:2057-2602 | every operation and every signal keeps the invariant |
| CallFanout.OneDeviceHasTheCall | mobile/src/session/manager.ts:2057-2602 | once the call is settled and nothing is on its way to a device, that device can have the call only if it is the peer device; each side's pin is what the other signed |
| CallProgress.SignedVerifiesIff | mobile/src/crypto/calling.ts:385-481 | a signed signal verifies exactly for its sender and recipient and within the two age bounds, and yields the fingerprint signed |
| CallProgress.VerifiedIff | mobile/src/crypto/calling.ts:432-481 | and nothing else verifies |
| CallProgress.OfferRingsIff | mobile/src/session/manager.ts:2419-2469 | a free device rings, and pins the fingerprint, exactly if the offer is in time |
| CallProgress.AnswerConnectsIff | mobile/src/session/manager.ts:2471-2517 | the answer of a ringing device connects the call exactly if it is in time |
| CallProgress.CallComesUpIff | mobile/src/session/manager.ts:2058-2517 | from two free accounts to a call that is up on both sides, each with the other's fingerprint, exactly if offer and answer arrive in time |
| CallProgress.OthersAreTold | mobile/src/session/manager.ts:2471-2517 | then exactly the other devices are told to stop |
| CallProgress.HangupEndsBoth | mobile/src/session/manager.ts:2240-2602 | hanging up on one side ends the call on the other |
| CallProgress.HangupReason | mobile/src/crypto/calling.ts:805-818 | the end of a call is a refusal exactly on the side that placed it, while it rings |
| CallProgress.BusyEndsTheCall | mobile/src/session/manager.ts:2419-2602 | calling a device that has another call ends in a busy call |
| CallProgress.OneCallAtATime | mobile/src/session/manager.ts:2062-2469 | during a call no other is placed, an offer of another one is told busy, and a repeated offer of this one is ignored |
| CallProgress.OpKeepsNobodyRings | mobile/src/session/manager.ts:2058-2602 | where there is no call, nobody is held to ring |
| CallProgress.StrangersCannotEnd | mobile/src/session/manager.ts:2471-2602 | nobody but the peer device changes a settled call |
| CallProgress.RenegotiatesIff | mobile/src/session/manager.ts:2532-2566 | new media parameters are taken exactly in time and with the pinned fingerprint; any other ends the call on both sides |
| CallProgress.RenegotiationReaches | mobile/src/session/manager.ts:2180-2566 | what one side sends to renegotiate reaches the other, which takes it exactly in time and with its pinned fingerprint |
| Handshake.HandshakeAgrees | mobile/src/crypto/pqxdh.ts:127-259 | for every honest bundle, with or without one-time keys, both sides derive the same secrets and associated data, and exactly the bundle's one-time keys are used up |
| Handshake.HandshakeAgreesIff | mobile/src/crypto/pqxdh.ts:127-259 | they derive the same exactly for the bundles whose keys the device holds under the ids given |
| Handshake.ReplayAcceptedIff | mobile/src/crypto/pqxdh.ts:205-240 | an accepted handshake is accepted again exactly if it used no one-time key |
| Handshake.FailureCost | mobile/src/crypto/pqxdh.ts:205-240 | a failing handshake costs at most the classical one-time key it names |
| Handshake.OneRotationOfGrace | mobile/src/crypto/identity.ts:164-185 | a bundle stays good over one rotation of the signed prekeys and no more |
| Handshake.RotationKeepsIdsApart | mobile/src/crypto/identity.ts:112-122 | whatever the ids were, a replaced prekey never goes under the id of the one that replaces it |
| PreKeys.KeyPool.PutKeys | server/internal/store/memory/memory.go:173-193 | one-time keys accumulate, signed ones are replaced |
| PreKeys.KeyPool.TakeBundle | server/internal/store/memory/memory.go:195-223 | at most one key of each kind leaves the pool |
| PreKeys.PreKeySecrets.AcceptSession | mobile/src/crypto/pqxdh.ts:181-259 | the outcome and the remaining secrets; the ratchet gets a key pair in a buffer of its own |
| PreKeys.PreKeySecrets.AcceptThenWipe | mobile/src/crypto/pqxdh.ts:244-252 | wiping the ratchet's key pair leaves every stored prekey as it was |
| PreKeys.PreKeySecrets.NextId | mobile/src/session/manager.ts:2621 | one more than the highest classical id held, or 1 |
| PreKeys.PreKeySecrets.TopUp | mobile/src/session/manager.ts:2621-2655 | the keys held and published afterwards, both kinds numbered on from there |
| PreKeyRun.HandedBundleAgreesIff | mobile/src/crypto/pqxdh.ts:127-259 | in every reachable state a bundle handed out completes a handshake if and only if its one-time keys are unused, its PQ key was not written over, and the signed keys it needs were rotated at most once |
| PreKeyRun.OneTimeMeansOnce | server/internal/store/memory/memory.go:173-223 | in every run, repeated ids included, each one-time key is handed out at most once and accepted at most once |
| PreKeyRun.RunKeepsInv | mobile/src/session/manager.ts:2615-2655 | every run of top-ups, bundles, handshakes and rotations keeps the invariant; no top-up ever loses a classical key |
| PreKeyRun.TopUpRepeatsIff | mobile/src/session/manager.ts:2621 | in every reachable state a top-up publishes an id again exactly if the key under the newest id is not held any more |
| PreKeyRun.TopUpKeepsHeld | mobile/src/session/manager.ts:2621-2630 | a top-up writes over no classical key |
| PreKeyRun.TopUpOverwritesPqIff | mobile/src/session/manager.ts:2621-2631 | it writes over a PQ key exactly if its id is above every classical id held and within the number of new keys |
| PreKeyRun.IdsComeBack | mobile/src/session/manager.ts:2621 | a run with one honest handshake after which one id is handed out for two keys |
| PreKeyRun.PqKeyIsLost | mobile/src/session/manager.ts:2621-2631 | a run in which a PQ key is written over while the server still offers it |
| SessionSetup.HandshakeOpensSession | mobile/src/crypto/pqxdh.ts:127-259 | the handshake begins a session in which both ratchets are in step, on one associated data, exactly for an honest bundle among those that verify |
| SessionSetup.HandshakeRunIsSafe | mobile/src/crypto/ratchet.ts:142-409 | from an honest bundle on, no run returns a message twice or anything but what the peer sent |
| Wire.Unframe | mobile/src/crypto/wire.ts:21-41 | the loop reads what the recursion reads |
| Wire.UnframeIsExact | mobile/src/crypto/wire.ts:12-41 | unframing accepts exactly the images of framing |
| Wire.BucketSize | mobile/src/crypto/wire.ts:52-57 | the smallest bucket that fits |
| Wire.Pad | mobile/src/crypto/wire.ts:60-66 | length, payload, zeros up to the bucket |
| Wire.UnpadPadIff | mobile/src/crypto/wire.ts:60-77 | unpadding returns the payload exactly if its length fits the prefix |
| Wire.UnpaddedIff | mobile/src/crypto/wire.ts:68-77 | unpadding accepts exactly what begins with a length and that many bytes |
| Wire.PaddingHidesLength | mobile/src/crypto/wire.ts:52-66 | two payloads are padded to one size exactly if no bucket ends between their lengths |
| Sealed.InitReadsBack | mobile/src/crypto/sealed.ts:142-172 | a handshake header reads back, its ids as a u32 carries them |
| Sealed.ContentReadsBack | mobile/src/crypto/sealed.ts:109-135 | a content reads back, with empty parts as absent ones |
| Sealed.SealRoundTripIff | mobile/src/crypto/sealed.ts:109-172 | encoding, padding, unpadding and decoding return the content if and only if no part present is empty and all ids fit |
| Sealed.EncodingIsInjective | mobile/src/crypto/sealed.ts:109-135 | contents that encode alike mean the same |
| Sealed.DistributionRoundTripIff | mobile/src/crypto/group.ts:138-165 | a distribution arrives as sent exactly if its keys have 32 bytes and its position fits |
| Sealed.DistributionDecodedIff | mobile/src/crypto/group.ts:148-165 | exactly five fields of this version, with keys of 32 bytes, are decoded |
| Sealed.GroupRoundTripIff | mobile/src/crypto/group.ts:291-314 | a group message arrives as sent exactly if its position fits |
| Sealed.GroupDecodedIff | mobile/src/crypto/group.ts:301-314 | exactly five fields of this version are decoded |

## Left out

- Concrete cryptography: signatures, Diffie-Hellman, the KEM, the AEAD and the key derivations are symbolic or parameters.
- Int32Verify.VerifyConsistency: requires that the call ends; `Int32Verify.SpinsForever` says when its first loop does not. Beyond 2^31 no verdict is claimed.
- Int32Verify.VerifyInclusion: beyond 2^31 the only verdict claimed is the refusal of a one-node path at 2^31 + 1.
- MerkleVerify.VerifyInclusion: sizes are unbounded, so the overflow of Go's `int` in `splitPoint` near 2^62 is not modelled.
- Transparency.RunSafe: about the unbounded verdict, like the gossip lemmas and `TransparencyLog.AnswersAreAccepted`; `LogClient` restates them for the methods, up to 2^31 entries.
- Transparency.VerifyHandleProof: the verdict is stated for heads of at most 2^31 entries, where the 32-bit verifiers agree with the others.
- Handles are compared through one case-folding function; that Go's EqualFold and the client's toLowerCase agree on it is not modelled.
- RatchetRun.WeSend: a chain ends at 2^32 messages, where the number in the header would wrap; the same bound holds for a group chain.
- RatchetRun.AtMostOnce: a message that decrypts but is refused afterwards (`Ratchet.SessionStore.Receive`) leaves the session as it was, and is no delivery of the run.
- Forged ciphertexts: the network may seal headers and bodies under keys of its own, but not under keys of the session.
- A send is atomic: encrypting, saving and handing over to the server are one step, so a send that fails after the server accepted it is not modelled.
- Wiping of key buffers and their aliasing are modelled for the stored prekeys only; elsewhere keys are values.
- The order of a group's member list, its name and its creation time; the members are a set in the theorems.
- GroupMembership.GroupDevice.DistributeSenderKey: a member whose device the server no longer lists is skipped by the code; here everyone is told.
- GroupRemoval.CascadeSettles: one removal at a time, with reliable delivery of every distribution exactly once, and late ones of the remaining devices only (`GroupRemoval.RemovedSenderReturns` says why); concurrent removals merge by union and are not claimed to settle.
- TransparencyLog.Log.Append: the duplicate check happens outside the lock, so two identical appends at once may both be stored.
- Delivery: registration and expiry of mailboxes, the choice of which frames a reconnecting client asks for, backoff, pings, and the wiping of ciphertext bytes.
- DeliveryProgress.MailComesThrough: that a connection stays up for long enough is an assumption about the network; acks that go down with a dropped connection are redeliveries later.
- Hub.Connection.Drain: nothing leaves the buffer during a drain; the write loop is another step of the system.
- Hub: a connection's read and write loops are steps of the system; the order between draining and live delivery is not claimed.
- CallFanout.OneDeviceHasTheCall: each operation is one step, sends to a device succeed or were never made, and channels are in order; a call whose caller has ended it, or was told busy by one device, makes no claim about the others.
- Calls: ICE candidates and their address policy, the parsing of SDP, the relay credential, and when the ringing timer fires.
- CallFanout.StepKeepsInv: anybody may send signals that name the call, but nobody else offers a call under this very id.
- PreKeyRun: a top-up is one step that is published, and may happen at any time and with any number of keys, as many of one kind as of the other.
- Sealed: account and device ids are byte strings; ill-formed UTF-8 is not modelled. The sealing of envelopes is not part of this model.
- Screens, storage, REST handlers, push, TURN, attachments, recovery, receipts, safety numbers and the client's copy of the auditor: presentation, input and output, or small facts.
