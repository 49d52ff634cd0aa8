/** Frames on the wire: `FrameCodec` builders, `encode`, `decode` and the two cipher modes. */
module FrameCodec {
  import opened Wrappers
  import opened Bytes
  import opened Json
  import opened Attachment
  import opened Packet

  const ZERO_KEY: seq<u8> := seq(32, _ => 0)
  const ZERO_NONCE: seq<u8> := seq(12, _ => 0)

  type Key = k: seq<u8> | |k| == 32 witness ZERO_KEY
  type Nonce = n: seq<u8> | |n| == 12 witness ZERO_NONCE

  const NONCE_LEN := 12
  const TAG_LEN := 16
  const DEFAULT_MAX_FRAME_BYTES := 100 * 1024 * 1024

  datatype Cipher = ChaCha20Poly1305 | Aes256Gcm

  /** The library code the codec calls: JSON text and authenticated encryption. */
  datatype Library = Library(
    toText: seq<Entry> -> seq<u8>,
    fromText: seq<u8> -> Option<Json>,
    seal: (Cipher, Key, Nonce, seq<u8>) -> Option<seq<u8>>,
    open: (Cipher, Key, Nonce, seq<u8>) -> Option<seq<u8>>)

  /**
   * What is assumed of it. Parsing inverts printing. A sealed message is 16 bytes longer and opens
   * to its plaintext (section 2.8 of RFC 8439 and section 7 of NIST SP 800-38D).
   */
  ghost predicate Lawful(l: Library) {
    && (forall es :: DistinctKeys(es) ==> l.fromText(l.toText(es)) == Some(Obj(Fields(es))))
    && (forall c, k, n, m :: l.seal(c, k, n, m).Some? ==>
          && |l.seal(c, k, n, m).value| == |m| + TAG_LEN
          && l.open(c, k, n, l.seal(c, k, n, m).value) == Some(m))
  }

  datatype ProtocolError =
    | FrameTooShort
    | FrameLengthMismatch(declared: nat, actual: nat)
    | PayloadTooLarge(actual: nat, max: nat)
    | FrameTooLarge(actual: nat, max: nat)
    | UnknownMessageType(code: u8)
    | MissingEncryptionKey(cipher: Cipher)
    | Random
    | EncryptedPayloadTooShort(cipher: Cipher, expectedMin: nat, actual: nat)
    | EncryptionFailed(cipher: Cipher)
    | DecryptionFailed(cipher: Cipher)
    | MessageTypeMismatch
    | InvalidAttachmentEncoding(reason: string)
    | JsonError(reason: string)
    | InvalidEcdhPublicKey(expected: nat, actual: nat)

  // ----- Codecs and their builders -----

  datatype Codec = Codec(
    aes256: Option<Key>, chacha20: Option<Key>, wire: EncryptionKind, maxFrameBytes: nat)
  {
    /** The cipher and key that the wire mode selects. */
    function WireKey(): Option<Key> {
      match wire
      case Plain => None
      case ChaCha20 => chacha20
      case Aes256 => aes256
    }

    function MaxPayload(): nat {
      if maxFrameBytes >= 5 then maxFrameBytes - 5 else 0
    }
  }

  function WireCipher(wire: EncryptionKind): Cipher {
    if wire == Aes256 then Aes256Gcm else ChaCha20Poly1305
  }

  function Plaintext(): Codec {
    Codec(None, None, Plain, DEFAULT_MAX_FRAME_BYTES)
  }

  function WithChaCha20Key(c: Codec, key: Key): Codec {
    c.(chacha20 := Some(key), wire := ChaCha20)
  }

  function WithAes256Key(c: Codec, key: Key): Codec {
    c.(aes256 := Some(key), wire := Aes256)
  }

  function WithMaxFrameBytes(c: Codec, max: nat): Codec {
    c.(maxFrameBytes := max)
  }

  datatype BuilderCall = SetChaCha20(key: Key) | SetAes256(key: Key) | SetMaxFrameBytes(max: nat)

  /** The codec that `plaintext()` followed by these builder calls yields. */
  function Build(calls: seq<BuilderCall>): Codec {
    if calls == [] then Plaintext()
    else
      var c := Build(calls[..|calls| - 1]);
      match calls[|calls| - 1]
      case SetChaCha20(key) => WithChaCha20Key(c, key)
      case SetAes256(key) => WithAes256Key(c, key)
      case SetMaxFrameBytes(max) => WithMaxFrameBytes(c, max)
  }

  /** The key of the wire mode is present. */
  predicate Keyed(c: Codec) {
    c.wire != Plain ==> c.WireKey().Some?
  }

  lemma {:induction false} BuiltCodecsAreKeyed(calls: seq<BuilderCall>)
    ensures Keyed(Build(calls))
  {
    if calls == [] {
    } else {
      BuiltCodecsAreKeyed(calls[..|calls| - 1]);
    }
  }

  // ----- Encryption -----

  /** `encrypt_chacha20` and `encrypt_aes256`; `nonce` is what the random source returned. */
  function Encrypt(l: Library, c: Codec, nonce: Option<Nonce>, payload: seq<u8>)
    : Result<seq<u8>, ProtocolError>
  {
    var cipher := WireCipher(c.wire);
    if c.WireKey().None? then Err(MissingEncryptionKey(cipher))
    else if nonce.None? then Err(Random)
    else match l.seal(cipher, c.WireKey().value, nonce.value, payload)
      case None => Err(EncryptionFailed(cipher))
      case Some(sealed) => Ok(nonce.value + sealed)
  }

  /** `decrypt_chacha20` and `decrypt_aes256`. */
  function Decrypt(l: Library, c: Codec, payload: seq<u8>): Result<seq<u8>, ProtocolError> {
    var cipher := WireCipher(c.wire);
    if |payload| < NONCE_LEN then Err(EncryptedPayloadTooShort(cipher, NONCE_LEN, |payload|))
    else if c.WireKey().None? then Err(MissingEncryptionKey(cipher))
    else match l.open(cipher, c.WireKey().value, payload[..NONCE_LEN], payload[NONCE_LEN..])
      case None => Err(DecryptionFailed(cipher))
      case Some(plain) => Ok(plain)
  }

  // ----- Frame layout -----

  function TypeCode(t: MessageType): u8 {
    match t
    case Api => 0x00
    case Event => 0x01
    case Auth => 0x02
  }

  /** `MessageType::try_from`. */
  function ReadType(code: u8): Result<MessageType, ProtocolError> {
    if code == 0x00 then Ok(Api)
    else if code == 0x01 then Ok(Event)
    else if code == 0x02 then Ok(Auth)
    else Err(UnknownMessageType(code))
  }

  /** meta_len, JSON, att_count, attachment sections. */
  function Composite(l: Library, body: PacketBody): seq<u8> {
    var json := l.toText(Serialize(body));
    Be32(|json|) + json + [AsU8(|body.Attachments()|)] + Sections(body.Attachments())
  }

  function Wrap(t: MessageType, payload: seq<u8>): seq<u8> {
    Be32(1 + |payload|) + [TypeCode(t)] + payload
  }

  /** The frame of a packet, or why there is none. */
  function Encode(l: Library, c: Codec, nonce: Option<Nonce>, p: PacketEnvelope)
    : Result<seq<u8>, ProtocolError>
  {
    var composite := Composite(l, p.body);
    if |composite| > c.MaxPayload() then Err(PayloadTooLarge(|composite|, c.MaxPayload()))
    else if c.wire == Plain then Ok(Wrap(p.messageType, composite))
    else
      var payload :- Encrypt(l, c, nonce, composite);
      if |payload| > c.MaxPayload() then Err(PayloadTooLarge(|payload|, c.MaxPayload()))
      else Ok(Wrap(p.messageType, payload))
  }

  /** The checks of `decode` on the frame header. */
  function CheckHeader(maxFrameBytes: nat, frame: seq<u8>): Result<(), ProtocolError> {
    if |frame| < 5 then Err(FrameTooShort)
    else if FromBe32(frame) != |frame| - 4 then Err(FrameLengthMismatch(FromBe32(frame), |frame| - 4))
    else if |frame| > maxFrameBytes then Err(FrameTooLarge(|frame|, maxFrameBytes))
    else Ok(())
  }

  function ParseJson(l: Library, text: seq<u8>): Result<PacketBody, ProtocolError> {
    match l.fromText(text)
    case None => Err(JsonError("syntax"))
    case Some(j) =>
      match ReadJson(j)
      case Err(e) => Err(JsonError(e))
      case Ok(body) => Ok(body)
  }

  /** A body with the attachments of its sections; bad sections are reported before a bad body. */
  function Assembled(
    sections: Result<(seq<FileAttachment>, seq<u8>), string>, body: Result<PacketBody, ProtocolError>)
    : Result<PacketBody, ProtocolError>
  {
    match sections
    case Err(e) => Err(InvalidAttachmentEncoding(e))
    case Ok((atts, _)) => if body.Ok? then Ok(body.value.SetAttachments(atts)) else body
  }

  function ParseComposite(l: Library, composite: seq<u8>): Result<PacketBody, ProtocolError> {
    if |composite| < 5 || |composite| < 4 + FromBe32(composite) + 1 then Err(FrameTooShort)
    else
      var metaLen := FromBe32(composite);
      Assembled(ReadSections(composite[4 + metaLen], composite[4 + metaLen + 1..]),
                ParseJson(l, composite[4..4 + metaLen]))
  }

  function Open(l: Library, c: Codec, payload: seq<u8>): Result<seq<u8>, ProtocolError> {
    if c.wire == Plain then Ok(payload) else Decrypt(l, c, payload)
  }

  function Decode(l: Library, c: Codec, frame: seq<u8>): Result<PacketEnvelope, ProtocolError> {
    var _ :- CheckHeader(c.maxFrameBytes, frame);
    var messageType :- ReadType(frame[4]);
    var composite :- Open(l, c, frame[5..]);
    var body :- ParseComposite(l, composite);
    if body.MessageType() != messageType then Err(MessageTypeMismatch)
    else Ok(PacketEnvelope(messageType, c.wire, body))
  }

  // ----- The program's buffer code -----

  /** The plaintext fast path: one buffer, two placeholders, patched once the lengths are known. */
  method EncodePlain(l: Library, c: Codec, p: PacketEnvelope)
    returns (r: Result<seq<u8>, ProtocolError>)
    requires c.wire == Plain
    ensures r == Encode(l, c, None, p)
    ensures r.Ok? ==> |r.value| >= 5 && r.value[5..] == Composite(l, p.body)
  {
    var attachments := p.body.Attachments();
    var frame: seq<u8> := [0, 0, 0, 0];
    frame := frame + [TypeCode(p.messageType)];
    frame := frame + [0, 0, 0, 0];
    var json := l.toText(Serialize(p.body));
    frame := frame + json;
    var jsonLen := |frame| - 9;
    frame := frame + [AsU8(|attachments|)];
    frame := WriteAll(attachments, frame);
    var payloadLen := |frame| - 5;
    ghost var tail := json + [AsU8(|attachments|)] + Sections(attachments);
    assert frame == [0, 0, 0, 0, TypeCode(p.messageType), 0, 0, 0, 0] + tail;
    assert Composite(l, p.body) == Be32(jsonLen) + tail;
    if payloadLen > c.MaxPayload() {
      return Err(PayloadTooLarge(payloadLen, c.MaxPayload()));
    }
    PatchedFrame(TypeCode(p.messageType), tail, Be32(|frame| - 4), Be32(jsonLen));
    frame := Be32(|frame| - 4) + frame[4..];
    frame := frame[..5] + Be32(jsonLen) + frame[9..];
    return Ok(frame);
  }

  /** Patching the two placeholders leaves exactly length, type, meta length and the rest. */
  lemma PatchedFrame(code: u8, tail: seq<u8>, frameLen: seq<u8>, metaLen: seq<u8>)
    requires |frameLen| == 4 && |metaLen| == 4
    ensures var blank := [0, 0, 0, 0, code, 0, 0, 0, 0] + tail;
            var once := frameLen + blank[4..];
            var twice := once[..5] + metaLen + once[9..];
            twice == frameLen + [code] + (metaLen + tail) && twice[5..] == metaLen + tail
  {
    var blank: seq<u8> := [0, 0, 0, 0, code, 0, 0, 0, 0] + tail;
    var once := frameLen + blank[4..];
    assert once[..5] == frameLen + [code];
    assert once[9..] == tail;
  }

  /** The encrypted path: build the composite in its own buffer, seal it, then wrap it. */
  method EncodeSealed(l: Library, c: Codec, nonce: Option<Nonce>, p: PacketEnvelope)
    returns (r: Result<seq<u8>, ProtocolError>)
    requires c.wire != Plain
    ensures r == Encode(l, c, nonce, p)
  {
    var attachments := p.body.Attachments();
    var composite: seq<u8> := [0, 0, 0, 0];
    composite := composite + l.toText(Serialize(p.body));
    var jsonLen := |composite| - 4;
    composite := Be32(jsonLen) + composite[4..];
    composite := composite + [AsU8(|attachments|)];
    composite := WriteAll(attachments, composite);
    assert composite == Composite(l, p.body);
    if |composite| > c.MaxPayload() {
      return Err(PayloadTooLarge(|composite|, c.MaxPayload()));
    }
    var sealed := Encrypt(l, c, nonce, composite);
    if sealed.Err? {
      return Err(sealed.error);
    }
    var payload := sealed.value;
    if |payload| > c.MaxPayload() {
      return Err(PayloadTooLarge(|payload|, c.MaxPayload()));
    }
    var frame := Be32(1 + |payload|);
    frame := frame + [TypeCode(p.messageType)];
    frame := frame + payload;
    return Ok(frame);
  }

  /** `encode`: the connection's wire mode, not the packet's, selects the path. */
  method EncodeFrame(l: Library, c: Codec, nonce: Option<Nonce>, p: PacketEnvelope)
    returns (r: Result<seq<u8>, ProtocolError>)
    ensures r == Encode(l, c, nonce, p)
  {
    if c.wire == Plain {
      r := EncodePlain(l, c, p);
    } else {
      r := EncodeSealed(l, c, nonce, p);
    }
  }

  /** `decode`: header checks, opening, the attachment loop, then the JSON body. */
  method DecodeFrame(l: Library, c: Codec, frame: seq<u8>)
    returns (r: Result<PacketEnvelope, ProtocolError>)
    ensures r == Decode(l, c, frame)
  {
    if |frame| < 5 {
      return Err(FrameTooShort);
    }
    var declared := FromBe32([frame[0], frame[1], frame[2], frame[3]]);
    assert declared == FromBe32(frame);
    var actual := |frame| - 4;
    if declared != actual {
      return Err(FrameLengthMismatch(declared, actual));
    }
    if |frame| > c.maxFrameBytes {
      return Err(FrameTooLarge(|frame|, c.maxFrameBytes));
    }
    var messageType := ReadType(frame[4]);
    if messageType.Err? {
      return Err(messageType.error);
    }
    var plain := if c.wire == Plain then Ok(frame[5..]) else Decrypt(l, c, frame[5..]);
    if plain.Err? {
      return Err(plain.error);
    }
    var body := DecodeComposite(l, plain.value);
    if body.Err? {
      return Err(body.error);
    }
    if body.value.MessageType() != messageType.value {
      return Err(MessageTypeMismatch);
    }
    return Ok(PacketEnvelope(messageType.value, c.wire, body.value));
  }

  method DecodeJson(l: Library, text: seq<u8>) returns (r: Result<PacketBody, ProtocolError>)
    ensures r == ParseJson(l, text)
  {
    var parsed := l.fromText(text);
    if parsed.None? {
      return Err(JsonError("syntax"));
    }
    var body := Deserialize(parsed.value);
    r := if body.Ok? then Ok(body.value) else Err(JsonError(body.error));
  }

  /** The part of `decode` after opening: attachment sections first, then the JSON body. */
  method DecodeComposite(l: Library, composite: seq<u8>) returns (r: Result<PacketBody, ProtocolError>)
    ensures r == ParseComposite(l, composite)
  {
    if |composite| < 5 {
      return Err(FrameTooShort);
    }
    var metaLen := FromBe32(composite);
    if |composite| < 4 + metaLen + 1 {
      return Err(FrameTooShort);
    }
    var atts := ReadAll(composite[4 + metaLen], composite[4 + metaLen + 1..]);
    if atts.Err? {
      return Err(InvalidAttachmentEncoding(atts.error));
    }
    var body := DecodeJson(l, composite[4..4 + metaLen]);
    if body.Err? {
      return Err(body.error);
    }
    return Ok(body.value.SetAttachments(atts.value.0));
  }
}
