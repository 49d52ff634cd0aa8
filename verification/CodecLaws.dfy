/** What the frame codec promises: round trip, sizes, and agreement between two ends. */
module CodecLaws {
  import opened Wrappers
  import opened Bytes
  import opened Json
  import opened Attachment
  import opened Packet
  import opened FrameCodec

  /** The largest frame whose length fits the four-byte prefix. */
  const MAX_WIRE_FRAME := U32_RANGE + 3

  /** What decoding gives back: the normal form, marked with the connection's wire mode. */
  function NormalEnvelope(wire: EncryptionKind, p: PacketEnvelope): PacketEnvelope {
    PacketEnvelope(p.messageType, wire, Normal(p.body))
  }

  predicate SameKeys(a: Codec, b: Codec) {
    a.wire == b.wire && a.WireKey() == b.WireKey()
  }

  // ----- Layers -----

  lemma ReadTypeInverse(t: MessageType)
    ensures ReadType(TypeCode(t)) == Ok(t)
  {
  }

  lemma NormalKeepsShape(b: PacketBody)
    ensures Normal(b).MessageType() == b.MessageType()
    ensures Normal(b).Attachments() == b.Attachments()
    ensures Normal(b).SetAttachments(b.Attachments()) == Normal(b)
  {
  }

  lemma ParseWritten(l: Library, b: PacketBody)
    requires Lawful(l)
    ensures ParseJson(l, l.toText(Serialize(b))) == Ok(Normal(b).SetAttachments([]))
  {
    SerializedKeysDistinct(b);
    BodyRoundTrip(b);
  }

  lemma SetTwice(b: PacketBody, atts: seq<FileAttachment>)
    ensures b.SetAttachments([]).SetAttachments(atts) == b.SetAttachments(atts)
  {
  }

  lemma SplitAfterPrefix(json: seq<u8>, count: u8, rest: seq<u8>, c: seq<u8>)
    requires |json| < U32_RANGE && c == Be32(|json|) + json + [count] + rest
    ensures |c| >= 4 + |json| + 1 && FromBe32(c) == |json|
    ensures c[4..4 + |json|] == json && c[4 + |json|] == count && c[4 + |json| + 1..] == rest
  {
    assert c == Be32(|json|) + (json + [count] + rest);
    Be32RoundTrip(|json|, json + [count] + rest);
  }

  /** A composite splits back into its JSON, its count byte and its sections. */
  lemma CompositeSplit(l: Library, b: PacketBody)
    requires |l.toText(Serialize(b))| < U32_RANGE
    ensures var c, json := Composite(l, b), l.toText(Serialize(b));
            && |c| >= 4 + |json| + 1 && FromBe32(c) == |json|
            && c[4..4 + |json|] == json
            && c[4 + |json|] == AsU8(|b.Attachments()|)
            && c[4 + |json| + 1..] == Sections(b.Attachments())
  {
    SplitAfterPrefix(l.toText(Serialize(b)), AsU8(|b.Attachments()|), Sections(b.Attachments()),
                     Composite(l, b));
  }

  lemma CompositeRead(l: Library, b: PacketBody)
    requires Lawful(l) && |l.toText(Serialize(b))| < U32_RANGE
    ensures var atts := ReadSections(AsU8(|b.Attachments()|), Sections(b.Attachments()));
            ParseComposite(l, Composite(l, b)) ==
            if atts.Err? then Err(InvalidAttachmentEncoding(atts.error))
            else Ok(Normal(b).SetAttachments(atts.value.0))
  {
    CompositeSplit(l, b);
    ParseWritten(l, b);
    var atts := ReadSections(AsU8(|b.Attachments()|), Sections(b.Attachments()));
    if atts.Ok? {
      SetTwice(Normal(b), atts.value.0);
    }
  }

  /** The composite is recovered as the same body exactly when the attachment list fits. */
  lemma CompositeRoundTripIff(l: Library, b: PacketBody)
    requires Lawful(l) && |l.toText(Serialize(b))| < U32_RANGE
    ensures ParseComposite(l, Composite(l, b)) == Ok(Normal(b)) <==> ListFits(b.Attachments())
  {
    CompositeRead(l, b);
    NormalKeepsShape(b);
    var atts := b.Attachments();
    var got := ReadSections(AsU8(|atts|), Sections(atts));
    if ListFits(atts) {
      FittingListRecovered(atts);
    } else if got.Ok? {
      if got.value.0 == atts {
        RecoveredListFits(AsU8(|atts|), Sections(atts), atts, got.value.1);
      }
      assert got.value.0 != atts;
      assert Normal(b).SetAttachments(got.value.0).Attachments() == got.value.0;
    }
  }

  lemma OpenInvertsEncrypt(l: Library, a: Codec, b: Codec, nonce: Option<Nonce>, m: seq<u8>)
    requires Lawful(l) && SameKeys(a, b) && a.wire != Plain && Encrypt(l, a, nonce, m).Ok?
    ensures Open(l, b, Encrypt(l, a, nonce, m).value) == Ok(m)
    ensures |Encrypt(l, a, nonce, m).value| == |m| + NONCE_LEN + TAG_LEN
  {
    var sealed := l.seal(WireCipher(a.wire), a.WireKey().value, nonce.value, m).value;
    var payload := nonce.value + sealed;
    assert payload[..NONCE_LEN] == nonce.value;
    assert payload[NONCE_LEN..] == sealed;
  }

  /** Every successful encoding is a wrapped payload that the other end opens to the composite. */
  lemma EncodedPayload(
    l: Library, a: Codec, b: Codec, nonce: Option<Nonce>, p: PacketEnvelope)
    returns (payload: seq<u8>)
    requires Lawful(l) && SameKeys(a, b) && Encode(l, a, nonce, p).Ok?
    ensures Encode(l, a, nonce, p).value == Wrap(p.messageType, payload)
    ensures |payload| <= a.MaxPayload()
    ensures |payload| == |Composite(l, p.body)| + Overhead(a)
    ensures Open(l, b, payload) == Ok(Composite(l, p.body))
  {
    var composite := Composite(l, p.body);
    if a.wire == Plain {
      payload := composite;
    } else {
      payload := Encrypt(l, a, nonce, composite).value;
      OpenInvertsEncrypt(l, a, b, nonce, composite);
    }
  }

  lemma WrapParts(t: MessageType, payload: seq<u8>)
    ensures var f := Wrap(t, payload);
            && |f| == 5 + |payload|
            && FromBe32(f) == (|f| - 4) % U32_RANGE
            && f[4] == TypeCode(t)
            && f[5..] == payload
  {
    var f := Wrap(t, payload);
    assert f == Be32(1 + |payload|) + ([TypeCode(t)] + payload);
    Be32RoundTrip(1 + |payload|, [TypeCode(t)] + payload);
  }

  /** The header of an encoded frame passes exactly when its length fits the prefix and the limit. */
  lemma HeaderOfWrapIff(max: nat, t: MessageType, payload: seq<u8>)
    ensures CheckHeader(max, Wrap(t, payload)).Ok?
            <==> |Wrap(t, payload)| <= MAX_WIRE_FRAME && |Wrap(t, payload)| <= max
  {
    WrapParts(t, payload);
    var n := 1 + |payload|;
    assert n % U32_RANGE == n <==> n < U32_RANGE;
  }

  lemma CompositeLength(l: Library, b: PacketBody)
    ensures |Composite(l, b)| == 4 + |l.toText(Serialize(b))| + 1 + WireSizes(b.Attachments())
  {
    SectionsLength(b.Attachments());
  }

  // ----- Main results -----

  /**
   * One end encodes, another decodes with the same wire mode and key. Exactly the packets whose
   * type matches their body, whose attachments fit their prefixes, and whose frame fits the length
   * prefix and the receiver's limit come back as themselves, up to normal form.
   */
  lemma CrossDecodeIff(
    l: Library, a: Codec, b: Codec, nonce: Option<Nonce>, p: PacketEnvelope, frame: seq<u8>)
    requires Lawful(l) && SameKeys(a, b)
    requires Encode(l, a, nonce, p) == Ok(frame)
    ensures Decode(l, b, frame) == Ok(NormalEnvelope(b.wire, p))
            <==> && p.messageType == p.body.MessageType()
                 && ListFits(p.body.Attachments())
                 && |frame| <= MAX_WIRE_FRAME
                 && |frame| <= b.maxFrameBytes
  {
    var payload := EncodedPayload(l, a, b, nonce, p);
    HeaderOfWrapIff(b.maxFrameBytes, p.messageType, payload);
    WrapParts(p.messageType, payload);
    ReadTypeInverse(p.messageType);
    NormalKeepsShape(p.body);
    if CheckHeader(b.maxFrameBytes, frame).Ok? {
      CompositeLength(l, p.body);
      CompositeRoundTripIff(l, p.body);
    }
  }

  /** `b` is what the wire keeps of `p`, with whatever attachment list was read. */
  predicate SameButAttachments(b: PacketBody, p: PacketBody) {
    b == Normal(p).SetAttachments(b.Attachments())
  }

  /** Whatever the other end manages to decode is the packet that was encoded, attachments aside. */
  lemma CrossDecodeShape(
    l: Library, a: Codec, b: Codec, nonce: Option<Nonce>, p: PacketEnvelope, frame: seq<u8>)
    requires Lawful(l) && SameKeys(a, b)
    requires Encode(l, a, nonce, p) == Ok(frame) && Decode(l, b, frame).Ok?
    ensures SameButAttachments(Decode(l, b, frame).value.body, p.body)
    ensures ListFits(p.body.Attachments()) ==> Decode(l, b, frame).value.body == Normal(p.body)
  {
    var payload := EncodedPayload(l, a, b, nonce, p);
    HeaderOfWrapIff(b.maxFrameBytes, p.messageType, payload);
    WrapParts(p.messageType, payload);
    CompositeLength(l, p.body);
    CompositeRead(l, p.body);
    var atts := ReadSections(AsU8(|p.body.Attachments()|), Sections(p.body.Attachments()));
    assert Decode(l, b, frame).value.body == Normal(p.body).SetAttachments(atts.value.0);
    if ListFits(p.body.Attachments()) {
      CompositeRoundTripIff(l, p.body);
    }
  }

  /** The same codec at both ends: the sender's own size check already bounds the frame. */
  lemma RoundTripIff(l: Library, c: Codec, nonce: Option<Nonce>, p: PacketEnvelope, frame: seq<u8>)
    requires Lawful(l) && Encode(l, c, nonce, p) == Ok(frame)
    ensures Decode(l, c, frame) == Ok(NormalEnvelope(c.wire, p))
            <==> && p.messageType == p.body.MessageType()
                 && ListFits(p.body.Attachments())
                 && |frame| <= MAX_WIRE_FRAME
  {
    var payload := EncodedPayload(l, c, c, nonce, p);
    WrapParts(p.messageType, payload);
    assert |frame| <= c.maxFrameBytes by {
      CompositeLength(l, p.body);
    }
    CrossDecodeIff(l, c, c, nonce, p, frame);
  }

  /** Bytes that encryption adds: a nonce and a tag. */
  function Overhead(c: Codec): nat {
    if c.wire == Plain then 0 else NONCE_LEN + TAG_LEN
  }

  /** The length a frame of this packet must have. */
  function FrameSize(l: Library, c: Codec, p: PacketEnvelope): nat {
    5 + 4 + |l.toText(Serialize(p.body))| + 1 + WireSizes(p.body.Attachments()) + Overhead(c)
  }

  /** Sealing succeeds: there is a key, a nonce, and the cipher accepts the composite. */
  predicate SealingWorks(l: Library, c: Codec, nonce: Option<Nonce>, p: PacketEnvelope) {
    c.wire != Plain ==> Encrypt(l, c, nonce, Composite(l, p.body)).Ok?
  }

  /** Encoding succeeds exactly when the whole frame fits the limit. */
  lemma SizeLaw(l: Library, c: Codec, nonce: Option<Nonce>, p: PacketEnvelope)
    requires Lawful(l) && SealingWorks(l, c, nonce, p)
    ensures Encode(l, c, nonce, p).Ok? <==> FrameSize(l, c, p) <= c.maxFrameBytes
    ensures Encode(l, c, nonce, p).Ok? ==> |Encode(l, c, nonce, p).value| == FrameSize(l, c, p)
    ensures Encode(l, c, nonce, p).Err? ==> Encode(l, c, nonce, p).error.PayloadTooLarge?
  {
    CompositeLength(l, p.body);
    if c.wire != Plain {
      OpenInvertsEncrypt(l, c, c, nonce, Composite(l, p.body));
    }
    if Encode(l, c, nonce, p).Ok? {
      var payload := EncodedPayload(l, c, c, nonce, p);
      WrapParts(p.messageType, payload);
    }
  }

  lemma HeaderErrorsComeFromHeader(l: Library, c: Codec, frame: seq<u8>)
    requires CheckHeader(c.maxFrameBytes, frame).Ok? && Decode(l, c, frame).Err?
    ensures !Decode(l, c, frame).error.FrameLengthMismatch? && !Decode(l, c, frame).error.FrameTooLarge?
  {
  }

  /**
   * Under a limit the prefix can express, both length prefixes are written exactly and decoding
   * under the same limit never reports a wrong length or an oversized frame.
   */
  lemma LengthsAreExact(l: Library, c: Codec, nonce: Option<Nonce>, p: PacketEnvelope, frame: seq<u8>)
    requires Lawful(l) && c.maxFrameBytes <= MAX_WIRE_FRAME
    requires Encode(l, c, nonce, p) == Ok(frame)
    ensures |frame| >= 5 && FromBe32(frame) == |frame| - 4
    ensures FromBe32(Composite(l, p.body)) == |l.toText(Serialize(p.body))|
    ensures CheckHeader(c.maxFrameBytes, frame).Ok?
    ensures Decode(l, c, frame).Err? ==>
              !Decode(l, c, frame).error.FrameLengthMismatch? && !Decode(l, c, frame).error.FrameTooLarge?
  {
    var payload := EncodedPayload(l, c, c, nonce, p);
    CompositeLength(l, p.body);
    WrapParts(p.messageType, payload);
    HeaderOfWrapIff(c.maxFrameBytes, p.messageType, payload);
    CompositeSplit(l, p.body);
    if Decode(l, c, frame).Err? {
      HeaderErrorsComeFromHeader(l, c, frame);
    }
  }

  /** Lists of 256, 512, ... attachments are written with a count byte of zero: all are lost. */
  lemma AttachmentsLostByCountByte(l: Library, b: PacketBody)
    requires Lawful(l) && |l.toText(Serialize(b))| < U32_RANGE
    requires |b.Attachments()| % 0x100 == 0
    ensures ParseComposite(l, Composite(l, b)) == Ok(Normal(b).SetAttachments([]))
  {
    CompositeRead(l, b);
  }
}
