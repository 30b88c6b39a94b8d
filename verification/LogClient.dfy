/**
 The client that keeps the checkpoint: it looks handles up, and compares tree heads with its contacts. Here the
 properties of whole runs are those of the code itself, with its 32-bit verifiers, on logs of up to 2^31 entries.
 */
module LogClient {
  import opened Bytes
  import opened Merkle
  import opened Transparency
  import opened TransparencyLog
  import Int32Verify
  import MerkleSound

  /** Logs of a size that the 32-bit verifiers handle. */
  ghost predicate Small(lookups: seq<Lookup>) {
    forall i :: 0 <= i < |lookups| ==> lookups[i].proof.head.size <= Int32Verify.MAX_SIZE
  }

  /** Whatever list of leaves the checkpoint stands for: the run hashed a collision, or every entry that it ever
      accepted is in that list at its place. */
  ghost predicate OneLog(env: Env, lookups: seq<Lookup>, checkpoint: Checkpoint) {
    forall tree: seq<Digest> :: checkpoint.size == |tree| && checkpoint.rootHash == RootHash(env.sha, tree) ==>
      || MerkleSound.Collision(env.sha, RunInputs(env, lookups, tree))
      || forall i :: 0 <= i < |lookups| && Accepted(env, lookups, i) ==> Vouched(env, lookups[i], tree)
  }

  lemma RunIsOneLog(env: Env, lookups: seq<Lookup>)
    requires Run(env, lookups).Some?
    ensures OneLog(env, lookups, Run(env, lookups).value)
  {
    hide Run, RootHash, Vouched, Accepted, RunInputs, MerkleSound.Collision;
    var checkpoint := Run(env, lookups).value;
    forall tree: seq<Digest> | checkpoint.size == |tree| && checkpoint.rootHash == RootHash(env.sha, tree)
      ensures || MerkleSound.Collision(env.sha, RunInputs(env, lookups, tree))
              || forall i :: 0 <= i < |lookups| && Accepted(env, lookups, i) ==> Vouched(env, lookups[i], tree)
    {
      RunSafe(env, lookups, tree);
    }
  }

  /** An honest server answered from some moments of one run of its log, over which the checkpoint was signed too. */
  ghost predicate AnsweredOver(env: Env, signer: Signer, states: seq<LogState>, steps: seq<Step>, read: nat, snapshot: nat,
                               at: int, seen: Option<nat>, seenAt: int, asked: Lookup, checkpoint: Option<Checkpoint>)
  {
    && SignsFor(env, signer) && IsRun(env.sha, states, steps) && read <= snapshot < |states| && states[snapshot].writer.None?
    && Latest(env, states[read].storage, asked.handle).Some?
    && (seen.Some? ==> seen.value <= snapshot && states[seen.value].writer.None?)
    && (checkpoint == if seen.None? then None else Some(NextCheckpoint(HeadOf(env.sha, signer, states[seen.value].hashes, seenAt))))
    && Answer(env.sha, signer, states[snapshot].hashes, Latest(env, states[read].storage, asked.handle).value,
              if seen.None? then 0 else |states[seen.value].hashes|, at) == Ok(asked.proof)
  }

  ghost predicate AnsweredHonestly(env: Env, asked: Lookup, checkpoint: Option<Checkpoint>) {
    exists signer: Signer, states: seq<LogState>, steps: seq<Step>, read: nat, snapshot: nat, at: int, seen: Option<nat>, seenAt: int ::
      AnsweredOver(env, signer, states, steps, read, snapshot, at, seen, seenAt, asked, checkpoint)
  }

  lemma HonestAnswerAccepted(env: Env, asked: Lookup, checkpoint: Option<Checkpoint>)
    requires AnsweredHonestly(env, asked, checkpoint)
    ensures HandleProofVerdict(env, asked.proof, asked.handle, checkpoint) == Ok(NextCheckpoint(asked.proof.head))
  {
    hide HandleProofVerdict, Answer, IsRun, HeadOf, Latest, SignsFor;
    var signer: Signer, states: seq<LogState>, steps: seq<Step>, read: nat, snapshot: nat, at: int, seen: Option<nat>, seenAt: int :|
      AnsweredOver(env, signer, states, steps, read, snapshot, at, seen, seenAt, asked, checkpoint);
    AnswersAreAccepted(env, signer, states, steps, read, snapshot, asked.handle,
                       if seen.None? then 0 else |states[seen.value].hashes|, at, seen, seenAt);
  }

  /** The two heads are heads of this one list. */
  ghost predicate HeadsOf(sha: Sha, leaves: seq<Digest>, ours: Checkpoint, theirs: SignedTreeHead) {
    && 0 <= ours.size <= |leaves| && ours.rootHash == RootHash(sha, leaves[..ours.size])
    && 0 <= theirs.size <= |leaves| && theirs.rootHash == RootHash(sha, leaves[..theirs.size])
  }

  /** They are, the request for a consistency proof is answered from it, and the contact's head is signed. */
  ghost predicate GossipedHonestly(env: Env, leaves: seq<Digest>, ours: Checkpoint, theirs: SignedTreeHead, fetched: Option<seq<Bytes>>) {
    && HeadsOf(env.sha, leaves, ours, theirs)
    && fetched == (if ours.size < theirs.size then HonestFetch(env.sha, leaves, ours.size, theirs.size)
                   else HonestFetch(env.sha, leaves, theirs.size, ours.size))
  }

  /** Whatever list the larger head stands for, the smaller one is the head of its first entries, or a collision. */
  ghost predicate NoFork(env: Env, ours: Checkpoint, theirs: SignedTreeHead, fetched: Option<seq<Bytes>>)
    requires CrossCheckVerdict(env, ours, theirs, fetched).None?
  {
    forall leaves: seq<Digest> :: Behind(env.sha, leaves, ours, theirs) && 0 < ours.size && 0 < theirs.size ==>
      || HeadsOf(env.sha, leaves, ours, theirs)
      || (ours.size != theirs.size && MerkleSound.Collision(env.sha, ComparedInputs(env, leaves, ours, theirs, fetched)))
  }

  ghost predicate Behind(sha: Sha, leaves: seq<Digest>, ours: Checkpoint, theirs: SignedTreeHead) {
    && (if ours.size < theirs.size then theirs.size else ours.size) == |leaves|
    && (if ours.size < theirs.size then theirs.rootHash else ours.rootHash) == RootHash(sha, leaves)
  }

  ghost function ComparedInputs(env: Env, leaves: seq<Digest>, ours: Checkpoint, theirs: SignedTreeHead, fetched: Option<seq<Bytes>>)
    : set<Bytes>
    requires CrossCheckVerdict(env, ours, theirs, fetched).None? && ours.size != theirs.size
    requires Behind(env.sha, leaves, ours, theirs) && 0 < ours.size && 0 < theirs.size
  {
    MerkleSound.TreeInputs(env.sha, leaves)
    + if ours.size < theirs.size
      then MerkleSound.ConsistencyInputs(env.sha, ours.size, |leaves|, fetched.value, ours.rootHash, theirs.rootHash)
      else MerkleSound.ConsistencyInputs(env.sha, theirs.size, |leaves|, fetched.value, theirs.rootHash, ours.rootHash)
  }

  lemma AgreeingMeansNoFork(env: Env, ours: Checkpoint, theirs: SignedTreeHead, fetched: Option<seq<Bytes>>)
    requires CrossCheckVerdict(env, ours, theirs, fetched).None?
    ensures NoFork(env, ours, theirs, fetched)
  {
    hide ConsistencyAccepts, VerifyTreeHead, RootHash, MerkleSound.Collision, MerkleSound.TreeInputs, MerkleSound.ConsistencyInputs;
    forall leaves: seq<Digest> | Behind(env.sha, leaves, ours, theirs) && 0 < ours.size && 0 < theirs.size
      ensures || HeadsOf(env.sha, leaves, ours, theirs)
              || (ours.size != theirs.size && MerkleSound.Collision(env.sha, ComparedInputs(env, leaves, ours, theirs, fetched)))
    {
      AcceptedGossipSound(env, leaves, ours, theirs, fetched);
    }
  }

  datatype Answered = Proved(next: Checkpoint) | NotProved | Refused(why: Refusal) | Downgrade

  datatype Compared = Nothing | Agreeing | SplitViewSeen | Reported(why: Refusal)

  class Client {
    const env: Env
    var checkpoint: Option<Checkpoint>
    ghost var lookups: seq<Lookup>   // the ones that came with a proof

    constructor (env: Env)
      ensures this.env == env && checkpoint == None && lookups == [] && Valid()
    {
      this.env, this.checkpoint, this.lookups := env, None, [];
    }

    ghost predicate Valid()
      reads this
    {
      Small(lookups) ==> checkpoint == Run(env, lookups)
    }

    /** The part of startConversation that decides whether an answer to a lookup may be used. A server that has
        once proved what it says may not stop. */
    method LookUp(handle: Bytes, proof: Option<HandleProof>) returns (r: Answered)
      requires Valid()
      requires proof.Some? && checkpoint.Some?
           ==> !Int32Verify.Hangs(checkpoint.value.size, proof.value.head.size, proof.value.consistency)
      modifies `checkpoint, `lookups
      ensures Valid() && lookups == old(lookups) + if proof.Some? then [Lookup(proof.value, handle)] else []
      ensures proof.None? ==> checkpoint == old(checkpoint) && r == if checkpoint.Some? then Downgrade else NotProved
      ensures proof.Some? ==> (r.Proved? && checkpoint == Some(r.next)) || (r.Refused? && checkpoint == old(checkpoint))
      ensures r.Proved? ==>
                && proof.Some? && r.next == NextCheckpoint(proof.value.head) && Signed(env, proof.value.head)
                && env.lower(proof.value.entry.handle) == env.lower(handle)
                && (old(checkpoint).Some? ==> r.next.logKey == old(checkpoint).value.logKey)
      ensures proof.Some? && Small(lookups) ==> (r.Proved? <==> Accepted(env, lookups, |old(lookups)|))
      ensures Small(lookups) && checkpoint.Some? ==> OneLog(env, lookups, checkpoint.value)
      ensures proof.Some? && Small(lookups) && AnsweredHonestly(env, Lookup(proof.value, handle), old(checkpoint)) ==> r.Proved?
    {
      hide HandleProofVerdict, AnsweredHonestly, OneLog;
      if proof.None? {
        r := if checkpoint.Some? then Downgrade else NotProved;
      } else {
        ghost var before, asked := checkpoint, Lookup(proof.value, handle);
        var verdict := VerifyHandleProof(env, proof.value, handle, checkpoint);
        match verdict {
          case Ok(next) =>
            checkpoint := Some(next);
            r := Proved(next);
          case Err(why) =>
            r := Refused(why);
        }
        lookups := lookups + [asked];
        assert lookups[..|lookups| - 1] == old(lookups);
        SmallPrefix(lookups, |lookups| - 1);
        if AnsweredHonestly(env, asked, before) {
          HonestAnswerAccepted(env, asked, before);
        }
      }
      if Small(lookups) && checkpoint.Some? {
        RunIsOneLog(env, lookups);
      }
    }

    /** Without a checkpoint there is nothing to compare. */
    method AcceptGossip(theirs: SignedTreeHead, fetched: Option<seq<Bytes>>) returns (r: Compared)
      requires checkpoint.Some? && fetched.Some? ==> && !Int32Verify.Hangs(checkpoint.value.size, theirs.size, fetched.value)
                                                     && !Int32Verify.Hangs(theirs.size, checkpoint.value.size, fetched.value)
      ensures r.Nothing? <==> checkpoint.None?
      ensures r.Agreeing? ==> Signed(env, theirs) && theirs.logKey == checkpoint.value.logKey
      ensures checkpoint.Some? && checkpoint.value.size <= Int32Verify.MAX_SIZE && theirs.size <= Int32Verify.MAX_SIZE
          ==> (&& (r.Agreeing? <==> CrossCheckVerdict(env, checkpoint.value, theirs, fetched).None?)
               && (r.Agreeing? ==> NoFork(env, checkpoint.value, theirs, fetched))
               && forall leaves: seq<Digest> :: GossipedHonestly(env, leaves, checkpoint.value, theirs, fetched) ==> !r.SplitViewSeen?)
    {
      hide CrossCheckVerdict, GossipedHonestly, NoFork;
      if checkpoint.None? {
        return Nothing;
      }
      var bad := CrossCheckTreeHead(env, checkpoint.value, theirs, fetched);
      if bad.None? {
        r := Agreeing;
        if CrossCheckVerdict(env, checkpoint.value, theirs, fetched).None? {
          AgreeingMeansNoFork(env, checkpoint.value, theirs, fetched);
        }
      } else if bad.value == SplitView {
        r := SplitViewSeen;
      } else {
        r := Reported(bad.value);
      }
      NoFalseAlarm(env, checkpoint.value, theirs, fetched);
    }
  }

  lemma SmallPrefix(lookups: seq<Lookup>, n: nat)
    requires n <= |lookups|
    ensures Small(lookups) ==> Small(lookups[..n])
  {
  }

  lemma NoFalseAlarm(env: Env, ours: Checkpoint, theirs: SignedTreeHead, fetched: Option<seq<Bytes>>)
    ensures forall leaves: seq<Digest> :: GossipedHonestly(env, leaves, ours, theirs, fetched)
              ==> CrossCheckVerdict(env, ours, theirs, fetched) != Some(SplitView)
  {
    hide CrossCheckVerdict, RootHash, HonestFetch;
    forall leaves: seq<Digest> | GossipedHonestly(env, leaves, ours, theirs, fetched)
      ensures CrossCheckVerdict(env, ours, theirs, fetched) != Some(SplitView)
    {
      HonestGossipAccepted(env, leaves, ours, theirs);
    }
  }
}
