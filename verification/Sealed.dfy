/**
 What an envelope carries inside its seal, in sealed.ts, and the two group blobs, in group.ts. Account and device
 ids are taken in their UTF-8 form.
 */
module Sealed {
  import opened Bytes
  import opened Wire

  datatype SessionInit = SessionInit(identityKey: Bytes, ephemeralKey: Bytes, kemCiphertext: Bytes, signedPreKeyId: nat,
                                     pqPreKeyId: nat, oneTimePreKeyId: Option<nat>, usedOneTimePq: bool)

  datatype RatchetMessage = RatchetMessage(header: Bytes, body: Bytes)

  datatype Content = Content(accountId: Bytes, deviceId: Bytes, identityKey: Bytes, sessionInit: Option<SessionInit>,
                             message: Option<RatchetMessage>, groupMessage: Option<Bytes>)

  function Flag(b: bool): Byte {
    if b then 1 else 0
  }

  function InitFields(i: SessionInit): seq<Bytes> {
    [[Flag(i.usedOneTimePq), Flag(i.oneTimePreKeyId.Some?)], i.identityKey, i.ephemeralKey, i.kemCiphertext,
     U32(i.signedPreKeyId), U32(i.pqPreKeyId), U32(if i.oneTimePreKeyId.Some? then i.oneTimePreKeyId.value else 0)]
  }

  function EncodeInit(i: SessionInit): Bytes {
    Frame(InitFields(i))
  }

  function FromInitFields(f: seq<Bytes>): Option<SessionInit>
    requires |f| == 7
  {
    if |f[0]| != 2 || |f[4]| < 4 || |f[5]| < 4 || (f[0][1] == 1 && |f[6]| < 4) then None
    else Some(SessionInit(f[1], f[2], f[3], ReadU32(f[4], 0), ReadU32(f[5], 0),
                          if f[0][1] == 1 then Some(ReadU32(f[6], 0)) else None, f[0][0] == 1))
  }

  lemma UnframedLength(data: Bytes, count: nat)
    ensures Unframed(data, 0, count).Some? ==> |Unframed(data, 0, count).value| == count
  {
    hide Unframed;
    if Unframed(data, 0, count).Some? {
      FramesUnframed(data, 0, count);
    }
  }

  function DecodeInit(data: Bytes): Option<SessionInit> {
    UnframedLength(data, 7);
    var f := Unframed(data, 0, 7);
    if f.None? then None else FromInitFields(f.value)
  }

  function ContentFields(c: Content): seq<Bytes> {
    [c.accountId, c.deviceId, c.identityKey, if c.sessionInit.Some? then EncodeInit(c.sessionInit.value) else [],
     if c.message.Some? then c.message.value.header else [], if c.message.Some? then c.message.value.body else [],
     if c.groupMessage.Some? then c.groupMessage.value else []]
  }

  /** None where the source throws. */
  function EncodeContent(c: Content): Option<Bytes> {
    if c.message.None? && c.groupMessage.None? then None else Some(Frame(ContentFields(c)))
  }

  function FromContentFields(f: seq<Bytes>): Option<Content>
    requires |f| == 7
  {
    var init := if f[3] == [] then None else DecodeInit(f[3]);
    if f[3] != [] && init.None? then None
    else Some(Content(f[0], f[1], f[2], init, if f[4] == [] then None else Some(RatchetMessage(f[4], f[5])),
                      if f[6] == [] then None else Some(f[6])))
  }

  function DecodeContent(data: Bytes): Option<Content> {
    UnframedLength(data, 7);
    var f := Unframed(data, 0, 7);
    if f.None? then None else FromContentFields(f.value)
  }

  // ----- round trips -----

  lemma {:induction false} FieldsFit(fields: seq<Bytes>)
    ensures |Frame(fields)| < TWO32 ==> Framable(fields)
    ensures forall i :: 0 <= i < |fields| ==> |fields[i]| + 4 <= |Frame(fields)|
  {
    if fields == [] {
    } else {
      FieldsFit(fields[1..]);
      assert forall i :: 1 <= i < |fields| ==> fields[i] == fields[1..][i - 1];
    }
  }

  lemma FieldsReadBack(fields: seq<Bytes>)
    requires |Frame(fields)| < TWO32
    ensures Unframed(Frame(fields), 0, |fields|) == Some(fields)
  {
    hide Frame, Unframed;
    FieldsFit(fields);
    UnframeIsExact(Frame(fields), fields);
  }

  /** What a handshake header means once its ids have been through a u32. */
  function WireInit(i: SessionInit): SessionInit {
    i.(signedPreKeyId := i.signedPreKeyId % TWO32, pqPreKeyId := i.pqPreKeyId % TWO32,
       oneTimePreKeyId := if i.oneTimePreKeyId.Some? then Some(i.oneTimePreKeyId.value % TWO32) else None)
  }

  lemma WordReadsBack(n: nat)
    ensures ReadU32(U32(n), 0) == n % TWO32
  {
    ReadU32OfU32(n, []);
    assert U32(n) + [] == U32(n);
  }

  lemma InitReadsBack(i: SessionInit)
    requires |EncodeInit(i)| < TWO32
    ensures DecodeInit(EncodeInit(i)) == Some(WireInit(i)) && EncodeInit(i) != []
  {
    hide U32, ReadU32, Frame, Unframed;
    FieldsReadBack(InitFields(i));
    FieldsFit(InitFields(i));
    WordReadsBack(i.signedPreKeyId);
    WordReadsBack(i.pqPreKeyId);
    WordReadsBack(if i.oneTimePreKeyId.Some? then i.oneTimePreKeyId.value else 0);
    assert InitFields(i)[0] in InitFields(i);
  }

  /** What a content means once it has been through the wire: an empty header or group part is no part. */
  function WireContent(c: Content): Content {
    c.(sessionInit := if c.sessionInit.Some? then Some(WireInit(c.sessionInit.value)) else None,
       message := if c.message.Some? && c.message.value.header != [] then c.message else None,
       groupMessage := if c.groupMessage.Some? && c.groupMessage.value != [] then c.groupMessage else None)
  }

  lemma ContentReadsBack(c: Content)
    requires EncodeContent(c).Some? && |EncodeContent(c).value| < TWO32
    ensures DecodeContent(EncodeContent(c).value) == Some(WireContent(c))
  {
    hide Frame, Unframed, DecodeInit, WireInit, EncodeInit;
    var fields := ContentFields(c);
    FieldsReadBack(fields);
    FieldsFit(fields);
    if c.sessionInit.Some? {
      assert fields[3] == EncodeInit(c.sessionInit.value);
      InitReadsBack(c.sessionInit.value);
    }
  }

  /** Nothing in the content is too wide for its field, and no part that is present is empty. */
  predicate Faithful(c: Content) {
    && (c.message.Some? ==> c.message.value.header != [])
    && (c.groupMessage.Some? ==> c.groupMessage.value != [])
    && (c.sessionInit.Some? ==> WireInit(c.sessionInit.value) == c.sessionInit.value)
  }

  /** A content can be encoded if it has a part, and encoding, padding, unpadding and decoding return it, if and only if
      it is faithful. */
  lemma SealRoundTripIff(c: Content)
    requires |Frame(ContentFields(c))| < TWO32
    ensures EncodeContent(c).Some? <==> c.message.Some? || c.groupMessage.Some?
    ensures EncodeContent(c).Some? ==>
              var padded := Padded(EncodeContent(c).value);
              Unpadded(padded).Some? && (DecodeContent(Unpadded(padded).value) == Some(c) <==> Faithful(c))
  {
    hide ContentFields, Frame, DecodeContent, Padded, Unpadded, WireInit;
    if EncodeContent(c).Some? {
      UnpadPadIff(EncodeContent(c).value);
      ContentReadsBack(c);
    }
  }

  /** Two contents that encode alike mean the same. */
  lemma EncodingIsInjective(a: Content, b: Content)
    requires EncodeContent(a).Some? && EncodeContent(a) == EncodeContent(b) && |EncodeContent(a).value| < TWO32
    ensures WireContent(a) == WireContent(b)
  {
    hide EncodeContent, DecodeContent, WireContent;
    ContentReadsBack(a);
    ContentReadsBack(b);
  }

  // ----- the two group blobs -----

  const VERSION: Byte := 1

  /** A sender-key distribution: the chain key from its current position, and the signing key. */
  datatype Distribution = Distribution(groupId: Bytes, iteration: nat, chainKey: Bytes, signingPublicKey: Bytes)

  function DistributionFields(d: Distribution): seq<Bytes> {
    [[VERSION], d.groupId, U32(d.iteration), d.chainKey, d.signingPublicKey]
  }

  function DecodeDistribution(data: Bytes): Option<Distribution> {
    UnframedLength(data, 5);
    var f := Unframed(data, 0, 5);
    if f.None? || f.value[0] != [VERSION] || |f.value[3]| != 32 || |f.value[4]| != 32 || |f.value[2]| < 4 then None
    else Some(Distribution(f.value[1], ReadU32(f.value[2], 0), f.value[3], f.value[4]))
  }

  /** A distribution arrives as it was sent if and only if its keys have 32 bytes and its position fits a u32. */
  lemma DistributionRoundTripIff(d: Distribution)
    requires |Frame(DistributionFields(d))| < TWO32
    ensures DecodeDistribution(Frame(DistributionFields(d))) == Some(d)
       <==> |d.chainKey| == 32 && |d.signingPublicKey| == 32 && d.iteration < TWO32
  {
    hide U32, ReadU32, Frame, Unframed;
    FieldsReadBack(DistributionFields(d));
    WordReadsBack(d.iteration);
  }

  datatype GroupBlob = GroupBlob(groupId: Bytes, iteration: nat, ciphertext: Bytes, signature: Bytes)

  function BlobFields(m: GroupBlob): seq<Bytes> {
    [[VERSION], m.groupId, U32(m.iteration), m.ciphertext, m.signature]
  }

  function DecodeBlob(data: Bytes): Option<GroupBlob> {
    UnframedLength(data, 5);
    var f := Unframed(data, 0, 5);
    if f.None? || f.value[0] != [VERSION] || |f.value[2]| < 4 then None
    else Some(GroupBlob(f.value[1], ReadU32(f.value[2], 0), f.value[3], f.value[4]))
  }

  lemma GroupRoundTripIff(m: GroupBlob)
    requires |Frame(BlobFields(m))| < TWO32
    ensures DecodeBlob(Frame(BlobFields(m))) == Some(m) <==> m.iteration < TWO32
  {
    hide U32, ReadU32, Frame, Unframed;
    FieldsReadBack(BlobFields(m));
    WordReadsBack(m.iteration);
  }

  // ----- what is refused -----

  /** Exactly the five fields of this version are decoded, with keys of 32 bytes; of the field of the position only the
      first four bytes matter. */
  lemma DistributionDecodedIff(data: Bytes, d: Distribution)
    ensures DecodeDistribution(data) == Some(d) <==> exists word: Bytes :: IsDistribution(data, d, word)
  {
    hide U32, ReadU32, Frame, Unframed;
    if DecodeDistribution(data) == Some(d) {
      UnframedLength(data, 5);
      var f := Unframed(data, 0, 5).value;
      UnframeIsExact(data, f);
      assert f == [[VERSION], d.groupId, f[2], d.chainKey, d.signingPublicKey];
      assert IsDistribution(data, d, f[2]);
    }
    if word: Bytes :| IsDistribution(data, d, word) {
      UnframeIsExact(data, [[VERSION], d.groupId, word, d.chainKey, d.signingPublicKey]);
    }
  }

  ghost predicate IsDistribution(data: Bytes, d: Distribution, word: Bytes) {
    var fields := [[VERSION], d.groupId, word, d.chainKey, d.signingPublicKey];
    && Framable(fields) && data == Frame(fields) && |d.chainKey| == 32 && |d.signingPublicKey| == 32
    && |word| >= 4 && d.iteration == ReadU32(word, 0)
  }

  /** And so it is with a group message. */
  lemma GroupDecodedIff(data: Bytes, m: GroupBlob)
    ensures DecodeBlob(data) == Some(m) <==> exists word: Bytes :: IsBlob(data, m, word)
  {
    hide U32, ReadU32, Frame, Unframed;
    if DecodeBlob(data) == Some(m) {
      UnframedLength(data, 5);
      var f := Unframed(data, 0, 5).value;
      UnframeIsExact(data, f);
      assert f == [[VERSION], m.groupId, f[2], m.ciphertext, m.signature];
      assert IsBlob(data, m, f[2]);
    }
    if word: Bytes :| IsBlob(data, m, word) {
      UnframeIsExact(data, [[VERSION], m.groupId, word, m.ciphertext, m.signature]);
    }
  }

  ghost predicate IsBlob(data: Bytes, m: GroupBlob, word: Bytes) {
    var fields := [[VERSION], m.groupId, word, m.ciphertext, m.signature];
    Framable(fields) && data == Frame(fields) && |word| >= 4 && m.iteration == ReadU32(word, 0)
  }
}
