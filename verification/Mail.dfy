/**
 The mail of one mailbox as the server keeps it, in memory.go: a slice that Ack compacts in place.
 */
module Mail {
  datatype Envelope = Envelope(id: string, mailbox: string, ciphertext: seq<int>, serverTs: nat)

  /** The envelopes that remain when those with these ids are destroyed, in order. */
  function Unacked(q: seq<Envelope>, ids: set<string>): seq<Envelope> {
    if q == [] then []
    else
      var n := |q| - 1;
      Unacked(q[..n], ids) + if q[n].id in ids then [] else [q[n]]
  }

  lemma {:induction false} UnackedMembers(q: seq<Envelope>, ids: set<string>)
    ensures forall e :: e in Unacked(q, ids) <==> e in q && e.id !in ids
    ensures |Unacked(q, ids)| <= |q|
  {
    if q == [] {
    } else {
      var n := |q| - 1;
      UnackedMembers(q[..n], ids);
      assert q == q[..n] + [q[n]];
    }
  }

  /** Two acks are one ack. */
  lemma {:induction false} UnackedTwice(q: seq<Envelope>, a: set<string>, b: set<string>)
    ensures Unacked(Unacked(q, a), b) == Unacked(q, a + b)
  {
    if q == [] {
    } else {
      var n := |q| - 1;
      var before := Unacked(q[..n], a);
      UnackedTwice(q[..n], a, b);
      if q[n].id in a {
        assert Unacked(q, a) == before;
      } else {
        assert Unacked(q, a) == before + [q[n]];
        assert (before + [q[n]])[..|before|] == before;
      }
    }
  }

  lemma UnackedAppend(q: seq<Envelope>, e: Envelope, ids: set<string>)
    ensures Unacked(q + [e], ids) == Unacked(q, ids) + if e.id in ids then [] else [e]
  {
    assert (q + [e])[..|q|] == q;
  }

  function Ids(q: seq<Envelope>): set<string> {
    set e | e in q :: e.id
  }

  /** Acking an id that is not queued does nothing. */
  lemma {:induction false} UnackedPresent(q: seq<Envelope>, ids: set<string>, present: set<string>)
    requires Ids(q) <= present
    ensures Unacked(q, ids) == Unacked(q, ids * present)
  {
    if q == [] {
    } else {
      var n := |q| - 1;
      assert q == q[..n] + [q[n]];
      assert q[n].id in Ids(q) && Ids(q[..n]) <= Ids(q);
      UnackedPresent(q[..n], ids, present);
    }
  }

  /** The envelopes that are not older than the cutoff, in order. */
  function Unexpired(q: seq<Envelope>, cutoff: int): seq<Envelope> {
    if q == [] then []
    else
      var n := |q| - 1;
      Unexpired(q[..n], cutoff) + if q[n].serverTs < cutoff then [] else [q[n]]
  }

  function ExpiredIds(q: seq<Envelope>, cutoff: int): set<string> {
    set e | e in q && e.serverTs < cutoff :: e.id
  }

  lemma {:induction false} UnexpiredMembers(q: seq<Envelope>, cutoff: int)
    ensures forall e :: e in Unexpired(q, cutoff) <==> e in q && e.serverTs >= cutoff
  {
    if q == [] {
    } else {
      var n := |q| - 1;
      UnexpiredMembers(q[..n], cutoff);
      assert q == q[..n] + [q[n]];
    }
  }

  /** No envelope that stays has the id of one that has expired. */
  predicate ToldApart(q: seq<Envelope>, cutoff: int) {
    forall e, f :: e in q && f in q && e.serverTs < cutoff <= f.serverTs ==> e.id != f.id
  }

  lemma {:induction false} SweepFilters(q: seq<Envelope>, cutoff: int, expired: set<string>)
    requires forall e :: e in q ==> (e.id in expired <==> e.serverTs < cutoff)
    ensures Unexpired(q, cutoff) == Unacked(q, expired)
  {
    if q == [] {
    } else {
      var n := |q| - 1;
      assert q == q[..n] + [q[n]];
      SweepFilters(q[..n], cutoff, expired);
    }
  }

  /** Sweeping is acking what has expired exactly if ids tell the two apart: it goes by age alone. */
  lemma SweepIsAck(q: seq<Envelope>, cutoff: int)
    ensures Unexpired(q, cutoff) == Unacked(q, ExpiredIds(q, cutoff)) <==> ToldApart(q, cutoff)
  {
    hide Unexpired, Unacked;
    if ToldApart(q, cutoff) {
      SweepFilters(q, cutoff, ExpiredIds(q, cutoff));
    } else {
      var e, f :| e in q && f in q && e.serverTs < cutoff <= f.serverTs && e.id == f.id;
      UnexpiredMembers(q, cutoff);
      UnackedMembers(q, ExpiredIds(q, cutoff));
      assert e.id in ExpiredIds(q, cutoff);
    }
  }

  class MailQueue {
    var slots: array<Envelope>
    var len: nat

    ghost predicate Valid()
      reads this
    {
      len <= slots.Length
    }

    ghost function Contents(): seq<Envelope>
      reads this, slots
      requires Valid()
    {
      slots[..len]
    }

    constructor ()
      ensures Valid() && fresh(slots) && Contents() == []
    {
      slots := new Envelope[0];
      len := 0;
    }

    method Enqueue(e: Envelope)
      requires Valid()
      modifies this, slots
      ensures Valid() && (slots == old(slots) || fresh(slots))
      ensures Contents() == old(Contents()) + [e]
    {
      if len == slots.Length {
        var larger := new Envelope[2 * len + 1](_ => e);
        for i := 0 to len
          modifies larger
          invariant larger[..i] == old(slots[..len])[..i]
          invariant unchanged(this) && slots[..] == old(slots[..])
        {
          larger[i] := slots[i];
        }
        slots := larger;
      }
      slots[len] := e;
      len := len + 1;
    }

    /** A copy of the first envelopes, all of them if the limit is 0; the queue keeps them until they are acked. */
    method Dequeue(limit: nat) returns (out: seq<Envelope>)
      requires Valid()
      ensures out == if 0 < limit < |Contents()| then Contents()[..limit] else Contents()
    {
      return if 0 < limit < len then slots[..limit] else slots[..len];
    }

    /** Compaction writes over the slots it has already read. */
    method Ack(ids: set<string>)
      requires Valid()
      modifies this`len, slots
      ensures Valid() && slots == old(slots)
      ensures Contents() == Unacked(old(Contents()), ids)
    {
      ghost var was := slots[..len];
      var kept := 0;
      for i := 0 to len
        invariant kept <= i && len == old(len)
        invariant slots[..kept] == Unacked(was[..i], ids)
        invariant slots[i..len] == was[i..]
      {
        assert was[..i + 1][..i] == was[..i];
        assert slots[i] == slots[i..len][0] == was[i];
        if slots[i].id !in ids {
          slots[kept] := slots[i];
          kept := kept + 1;
          assert slots[..kept] == Unacked(was[..i], ids) + [was[i]];
        }
        assert slots[i + 1..len] == was[i + 1..];
      }
      assert was[..|was|] == was;
      len := kept;
    }

    /** Sweep's pass over this mailbox; tells how many envelopes were destroyed. */
    method Sweep(cutoff: int) returns (destroyed: nat)
      requires Valid()
      modifies this`len, slots
      ensures Valid() && slots == old(slots)
      ensures Contents() == Unexpired(old(Contents()), cutoff) && destroyed == |old(Contents())| - |Contents()|
    {
      ghost var was := slots[..len];
      var kept := 0;
      destroyed := 0;
      for i := 0 to len
        invariant kept <= i && destroyed == i - kept && len == old(len)
        invariant slots[..kept] == Unexpired(was[..i], cutoff)
        invariant slots[i..len] == was[i..]
      {
        assert was[..i + 1][..i] == was[..i];
        assert slots[i] == slots[i..len][0] == was[i];
        if slots[i].serverTs < cutoff {
          destroyed := destroyed + 1;
        } else {
          slots[kept] := slots[i];
          kept := kept + 1;
          assert slots[..kept] == Unexpired(was[..i], cutoff) + [was[i]];
        }
        assert slots[i + 1..len] == was[i + 1..];
      }
      assert was[..|was|] == was;
      len := kept;
    }
  }
}
