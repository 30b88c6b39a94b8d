/**
 The wire format inside every ciphertext: length-prefixed frames and size buckets, in wire.ts.
 */
module Wire {
  import opened Bytes

  /** u32-length-prefixed fields, one after the other. */
  function Frame(fields: seq<Bytes>): Bytes {
    if fields == [] then [] else U32(|fields[0]|) + fields[0] + Frame(fields[1..])
  }

  /** What is left at `offset`, read as exactly `count` frames; None where the source throws. */
  function Unframed(data: Bytes, offset: nat, count: nat): Option<seq<Bytes>>
    requires offset <= |data|
    decreases count
  {
    if count == 0 then if offset == |data| then Some([]) else None
    else if offset + 4 > |data| then None
    else
      var length := ReadU32(data, offset);
      if offset + 4 + length > |data| then None
      else
        var rest := Unframed(data, offset + 4 + length, count - 1);
        if rest.None? then None else Some([data[offset + 4..offset + 4 + length]] + rest.value)
  }

  method Unframe(data: Bytes, count: nat) returns (fields: Option<seq<Bytes>>)
    ensures fields == Unframed(data, 0, count)
  {
    var out: seq<Bytes> := [];
    var offset: nat := 0;
    ghost var whole := Unframed(data, 0, count);
    assert whole.Some? ==> [] + whole.value == whole.value;
    for i := 0 to count
      invariant offset <= |data|
      invariant whole
             == var rest := Unframed(data, offset, count - i); if rest.None? then None else Some(out + rest.value)
    {
      if offset + 4 > |data| {
        return None;
      }
      var length := ReadU32(data, offset);
      if offset + 4 + length > |data| {
        return None;
      }
      var field := data[offset + 4..offset + 4 + length];
      ghost var rest := Unframed(data, offset + 4 + length, count - i - 1);
      assert rest.Some? ==> out + ([field] + rest.value) == out + [field] + rest.value;
      out := out + [field];
      offset := offset + 4 + length;
    }
    if offset != |data| {
      return None;
    }
    assert out + [] == out;
    return Some(out);
  }

  predicate Framable(fields: seq<Bytes>) {
    forall i :: 0 <= i < |fields| ==> |fields[i]| < TWO32
  }

  lemma FrameHead(fields: seq<Bytes>, data: Bytes, offset: nat)
    requires fields != [] && |fields[0]| < TWO32 && offset <= |data| && data[offset..] == Frame(fields)
    ensures offset + 4 + |fields[0]| <= |data| && ReadU32(data, offset) == |fields[0]|
    ensures data[offset + 4..offset + 4 + |fields[0]|] == fields[0]
    ensures data[offset + 4 + |fields[0]|..] == Frame(fields[1..])
  {
    var head, rest := U32(|fields[0]|), Frame(fields[1..]);
    var tail := data[offset..];
    assert tail == head + fields[0] + rest;
    assert tail[..4] == head;
    assert tail[4..4 + |fields[0]|] == fields[0];
    assert tail[4 + |fields[0]|..] == rest;
    ReadsBack(|fields[0]|, data, offset);
  }

  lemma ReadsBack(n: nat, data: Bytes, offset: nat)
    requires n < TWO32 && offset + 4 <= |data| && data[offset..offset + 4] == U32(n)
    ensures ReadU32(data, offset) == n
  {
    hide U32, ReadU32;
    ReadU32OfU32(n, []);
    assert U32(n) + [] == U32(n);
    SameWord(data, offset);
  }

  lemma SameWord(data: Bytes, offset: nat)
    requires offset + 4 <= |data|
    ensures ReadU32(data[offset..offset + 4], 0) == ReadU32(data, offset)
  {
    var head := data[offset..offset + 4];
    assert head[0] == data[offset] && head[1] == data[offset + 1] && head[2] == data[offset + 2] && head[3] == data[offset + 3];
  }

  /** What was framed is read back. */
  lemma {:induction false} UnframesFrame(fields: seq<Bytes>, data: Bytes, offset: nat)
    requires Framable(fields) && offset <= |data| && data[offset..] == Frame(fields)
    ensures Unframed(data, offset, |fields|) == Some(fields)
    decreases |fields|
  {
    hide U32, ReadU32;
    if fields == [] {
      assert |data[offset..]| == 0;
    } else {
      FrameHead(fields, data, offset);
      UnframesFrame(fields[1..], data, offset + 4 + |fields[0]|);
      assert [fields[0]] + fields[1..] == fields;
    }
  }

  lemma WritesBack(data: Bytes, offset: nat)
    requires offset + 4 <= |data|
    ensures U32(ReadU32(data, offset)) == data[offset..offset + 4]
  {
    hide U32, ReadU32;
    U32OfReadU32(data[offset..offset + 4]);
    SameWord(data, offset);
  }

  /** What is read is the image of framing, byte for byte. */
  lemma {:induction false} FramesUnframed(data: Bytes, offset: nat, count: nat)
    requires offset <= |data| && Unframed(data, offset, count).Some?
    ensures var fields := Unframed(data, offset, count).value;
            |fields| == count && Framable(fields) && data[offset..] == Frame(fields)
    decreases count
  {
    if count == 0 {
    } else {
      var length := ReadU32(data, offset);
      FramesUnframed(data, offset + 4 + length, count - 1);
      WritesBack(data, offset);
      var fields := Unframed(data, offset, count).value;
      assert fields[1..] == Unframed(data, offset + 4 + length, count - 1).value;
      assert data[offset..] == data[offset..offset + 4] + data[offset + 4..offset + 4 + length] + data[offset + 4 + length..];
    }
  }

  /** Unframing accepts exactly the images of framing. */
  lemma UnframeIsExact(data: Bytes, fields: seq<Bytes>)
    ensures Unframed(data, 0, |fields|) == Some(fields) <==> Framable(fields) && data == Frame(fields)
  {
    assert data[0..] == data;
    if Framable(fields) && data == Frame(fields) {
      UnframesFrame(fields, data, 0);
    }
    if Unframed(data, 0, |fields|) == Some(fields) {
      FramesUnframed(data, 0, |fields|);
    }
  }

  // ----- padding -----

  const BUCKETS: seq<nat> := [256, 1024, 4096, 16384, 65536]
  const LARGE_INCREMENT: nat := 65536

  predicate IsBucket(n: nat) {
    n in BUCKETS || (n > 0 && n % LARGE_INCREMENT == 0)
  }

  ghost predicate IsSmallest(size: nat, length: nat) {
    IsBucket(size) && length <= size && forall b :: length <= b < size ==> !IsBucket(b)
  }

  lemma RoundedUp(length: nat)
    requires length > LARGE_INCREMENT
    ensures IsSmallest((length + LARGE_INCREMENT - 1) / LARGE_INCREMENT * LARGE_INCREMENT, length)
  {
  }

  lemma SmallestExists(length: nat)
    ensures exists size: nat :: IsSmallest(size, length)
  {
    if length > LARGE_INCREMENT {
      RoundedUp(length);
    } else {
      assert IsSmallest(if length <= 256 then 256 else if length <= 1024 then 1024 else if length <= 4096 then 4096
                        else if length <= 16384 then 16384 else LARGE_INCREMENT, length);
    }
  }

  /** The smallest bucket that fits. */
  ghost function Bucket(length: nat): (size: nat)
    ensures IsSmallest(size, length)
  {
    SmallestExists(length);
    var size: nat :| IsSmallest(size, length);
    size
  }

  lemma SmallestIsBucket(size: nat, length: nat)
    requires IsSmallest(size, length)
    ensures size == Bucket(length)
  {
  }

  method BucketSize(length: nat) returns (size: nat)
    ensures size == Bucket(length)
  {
    for i := 0 to |BUCKETS|
      invariant forall k :: 0 <= k < i ==> BUCKETS[k] < length
    {
      if length <= BUCKETS[i] {
        FitsFirst(length, i);
        SmallestIsBucket(BUCKETS[i], length);
        return BUCKETS[i];
      }
    }
    size := (length + LARGE_INCREMENT - 1) / LARGE_INCREMENT * LARGE_INCREMENT;
    assert BUCKETS[4] < length;
    RoundedUp(length);
    SmallestIsBucket(size, length);
  }

  lemma FitsFirst(length: nat, i: nat)
    requires i < |BUCKETS| && length <= BUCKETS[i] && forall k :: 0 <= k < i ==> BUCKETS[k] < length
    ensures IsSmallest(BUCKETS[i], length)
  {
  }

  /** The true length, the payload, and zeros up to the bucket. */
  ghost function Padded(payload: Bytes): Bytes {
    U32(|payload|) + payload + seq(Bucket(|payload| + 4) - |payload| - 4, _ => 0)
  }

  method Pad(payload: Bytes) returns (out: array<Byte>)
    ensures fresh(out) && out[..] == Padded(payload)
  {
    var target := BucketSize(|payload| + 4);
    var prefix := U32(|payload|);
    out := new Byte[target](_ => 0);
    for i := 0 to 4
      invariant forall k :: 0 <= k < target ==> out[k] == if k < i then prefix[k] else 0
    {
      out[i] := prefix[i];
    }
    for i := 0 to |payload|
      invariant forall k :: 0 <= k < target ==> out[k] == if k < 4 then prefix[k] else if k < 4 + i then payload[k - 4] else 0
    {
      out[4 + i] := payload[i];
    }
  }

  function Unpadded(padded: Bytes): Option<Bytes> {
    if |padded| < 4 then None
    else
      var length := ReadU32(padded, 0);
      if 4 + length > |padded| then None else Some(padded[4..4 + length])
  }

  /** Unpadding accepts exactly what begins with a length and that many bytes, whatever follows. */
  lemma UnpaddedIff(padded: Bytes, payload: Bytes)
    ensures Unpadded(padded) == Some(payload) <==> |payload| < TWO32 && U32(|payload|) + payload <= padded
  {
    hide U32, ReadU32;
    if Unpadded(padded) == Some(payload) {
      WritesBack(padded, 0);
      assert padded[..4] + padded[4..4 + |payload|] <= padded;
    }
    if |payload| < TWO32 && U32(|payload|) + payload <= padded {
      var rest := padded[4..];
      assert padded[..4] == (U32(|payload|) + payload)[..4] == U32(|payload|);
      assert padded[4..4 + |payload|] == (U32(|payload|) + payload)[4..] == payload;
      assert padded == U32(|payload|) + rest;
      ReadU32OfU32(|payload|, rest);
    }
  }

  /** Unpadding recovers the payload if and only if its length fits the prefix. */
  lemma UnpadPadIff(payload: Bytes)
    ensures Unpadded(Padded(payload)) == Some(payload) <==> |payload| < TWO32
  {
    hide Bucket, U32, ReadU32;
    var rest := payload + seq(Bucket(|payload| + 4) - |payload| - 4, _ => 0);
    assert Padded(payload) == U32(|payload|) + rest;
    ReadU32OfU32(|payload|, rest);
    if |payload| < TWO32 {
      assert Padded(payload)[4..4 + |payload|] == payload;
    }
  }

  /** Two payloads are padded to one size exactly if no bucket ends between their lengths. */
  lemma PaddingHidesLength(a: Bytes, b: Bytes)
    ensures |Padded(a)| == |Padded(b)| <==> forall x: nat :: IsBucket(x) ==> (|a| + 4 <= x <==> |b| + 4 <= x)
  {
    hide IsBucket, U32;
    var p, q := Bucket(|a| + 4), Bucket(|b| + 4);
    assert |Padded(a)| == p && |Padded(b)| == q;
    if forall x: nat :: IsBucket(x) ==> (|a| + 4 <= x <==> |b| + 4 <= x) {
      assert |b| + 4 <= p && |a| + 4 <= q;
    }
  }
}
