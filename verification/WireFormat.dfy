/** The bytes and keys on the wire, written out: what another implementation of the protocol would have to agree on. */
module WireFormat {
  import opened Wrappers
  import opened Bytes
  import opened Json
  import opened Attachment
  import opened Packet
  import opened FrameCodec
  import opened CodecLaws

  /** The number that four bytes, most significant first, stand for. */
  function BigEndian(a: u8, b: u8, c: u8, d: u8): nat {
    ((a * 256 + b) * 256 + c) * 256 + d
  }

  lemma Be32Bytes(n: nat)
    requires n < 0x1_0000_0000
    ensures var bs := Be32(n); BigEndian(bs[0], bs[1], bs[2], bs[3]) == n
  {
    var a, b, c, d := n / 0x100_0000, n / 0x1_0000, n / 0x100, n % 0x100;
    assert b == a * 256 + b % 256;
    assert c == b * 256 + c % 256;
    assert n == c * 256 + d;
  }

  /** The length of everything after it, and the kind of the message, open every frame. */
  lemma FrameHead(l: Library, c: Codec, nonce: Option<Nonce>, p: PacketEnvelope, frame: seq<u8>)
    requires Lawful(l) && Encode(l, c, nonce, p) == Ok(frame) && |frame| <= MAX_WIRE_FRAME
    ensures |frame| >= 5 && BigEndian(frame[0], frame[1], frame[2], frame[3]) == |frame| - 4
    ensures p.messageType == Api ==> frame[4] == 0
    ensures p.messageType == Event ==> frame[4] == 1
    ensures p.messageType == Auth ==> frame[4] == 2
  {
    var payload := EncodedPayload(l, c, c, nonce, p);
    WrapParts(p.messageType, payload);
    Be32Bytes(1 + |payload|);
    assert frame == Be32(1 + |payload|) + ([TypeCode(p.messageType)] + payload);
  }

  /** In plaintext: the JSON length, the JSON, the attachment count, the attachments. */
  lemma PlainBody(l: Library, c: Codec, p: PacketEnvelope, frame: seq<u8>)
    requires c.wire == Plain && Encode(l, c, None, p) == Ok(frame) && |frame| <= MAX_WIRE_FRAME
    ensures var json, atts := l.toText(Serialize(p.body)), p.body.Attachments();
            && |frame| >= 10 + |json| && BigEndian(frame[5], frame[6], frame[7], frame[8]) == |json|
            && frame[9..9 + |json|] == json
            && frame[9 + |json|] == |atts| % 256
            && frame[10 + |json|..] == Sections(atts)
  {
    var json, atts := l.toText(Serialize(p.body)), p.body.Attachments();
    var composite := Composite(l, p.body);
    CompositeLength(l, p.body);
    WrapParts(p.messageType, composite);
    Pieces(json, AsU8(|atts|), Sections(atts), composite);
    Shifted(frame, composite, |json|);
  }

  lemma Pieces(json: seq<u8>, count: u8, rest: seq<u8>, c: seq<u8>)
    requires |json| < 0x1_0000_0000 && c == Be32(|json|) + json + [count] + rest
    ensures |c| >= 5 + |json| && BigEndian(c[0], c[1], c[2], c[3]) == |json|
    ensures c[4..4 + |json|] == json && c[4 + |json|] == count && c[5 + |json|..] == rest
  {
    SplitAfterPrefix(json, count, rest, c);
    Be32Bytes(|json|);
    var bs := Be32(|json|);
    assert c[0] == bs[0] && c[1] == bs[1] && c[2] == bs[2] && c[3] == bs[3];
  }

  lemma Shifted(frame: seq<u8>, c: seq<u8>, n: nat)
    requires |frame| == 5 + |c| && frame[5..] == c && |c| >= 5 + n
    ensures frame[5] == c[0] && frame[6] == c[1] && frame[7] == c[2] && frame[8] == c[3]
    ensures frame[9..9 + n] == c[4..4 + n] && frame[9 + n] == c[4 + n] && frame[10 + n..] == c[5 + n..]
  {
    assert forall i :: 0 <= i < |c| ==> frame[5 + i] == frame[5..][i];
  }

  /** Encrypted: the nonce, then the sealed form of what a plaintext frame would hold. */
  lemma SealedBody(l: Library, c: Codec, nonce: Nonce, p: PacketEnvelope, frame: seq<u8>)
    requires c.wire != Plain && Encode(l, c, Some(nonce), p) == Ok(frame)
    ensures c.WireKey().Some? && |frame| >= 17 && frame[5..17] == nonce
    ensures l.seal(if c.wire == Aes256 then Aes256Gcm else ChaCha20Poly1305, c.WireKey().value, nonce, Composite(l, p.body))
            == Some(frame[17..])
  {
    var sealed := Encrypt(l, c, Some(nonce), Composite(l, p.body)).value;
    WrapParts(p.messageType, sealed);
    assert frame[5..] == sealed;
    assert frame[5..17] == sealed[..12] && frame[17..] == sealed[12..];
  }

  /** One attachment: three strings with one length byte each, then four length bytes and the data. */
  lemma SectionBytes(a: FileAttachment)
    requires InRange(a)
    ensures var s, n := Section(a), 3 + |a.id| + |a.name| + |a.contentType|;
            && |s| == n + 4 + |a.data|
            && s[..n] == [|a.id|] + a.id + [|a.name|] + a.name + [|a.contentType|] + a.contentType
            && BigEndian(s[n], s[n + 1], s[n + 2], s[n + 3]) == |a.data|
            && s[n + 4..] == a.data
  {
    var head := [|a.id|] + a.id + [|a.name|] + a.name + [|a.contentType|] + a.contentType;
    Be32Bytes(|a.data|);
    assert Section(a) == head + (Be32(|a.data|) + a.data);
  }

  // ----- JSON keys -----

  /** The error object of a reply. */
  ghost predicate ErrorKeys(m: Object, error: Option<ErrorPayload>) {
    if error.None? then "er" !in m
    else
      && "er" in m && m["er"].Obj?
      && var e := m["er"].fields;
         && "code" in e && e["code"] == Str(error.value.code)
         && "message" in e && e["message"] == Str(error.value.message)
         && "status" in e && e["status"] == Num(PosInt(error.value.status))
         && ("details" in e <==> error.value.details.Some?)
         && (error.value.details.Some? ==> e["details"] == error.value.details.value)
  }

  /** Metadata is written unless it is null or an empty object. */
  ghost predicate MetaKeys(m: Object, metadata: Json) {
    && ("m" in m <==> metadata != Null && metadata != Obj(map[]))
    && ("m" in m ==> m["m"] == metadata)
  }

  /** The keys and values a packet is written with. */
  ghost predicate WrittenAs(b: PacketBody, m: Object) {
    && "k" in m && "a" !in m
    && match b
       case ApiRequest(id, route, params, _, metadata) =>
         && m["k"] == Num(PosInt(0)) && "i" in m && m["i"] == Num(PosInt(id)) && "r" in m && m["r"] == Str(route)
         && "p" in m && m["p"] == params && MetaKeys(m, metadata)
       case EventEmit(id, name, data, _, metadata, expectAck) =>
         && m["k"] == Num(PosInt(1)) && "i" in m && m["i"] == Num(PosInt(id)) && "n" in m && m["n"] == Str(name)
         && "d" in m && m["d"] == Obj(data) && "e" in m && m["e"] == Bool(expectAck) && MetaKeys(m, metadata)
       case ApiResponse(id, ok, status, data, error, metadata) =>
         && m["k"] == Num(PosInt(2)) && "i" in m && m["i"] == Num(PosInt(id)) && "o" in m && m["o"] == Bool(ok)
         && "s" in m && m["s"] == Num(PosInt(status)) && "d" in m && m["d"] == data
         && ErrorKeys(m, error) && MetaKeys(m, metadata)
       case EventAck(id, ok, receipt, error) =>
         && m["k"] == Num(PosInt(3)) && "i" in m && m["i"] == Num(PosInt(id)) && "o" in m && m["o"] == Bool(ok)
         && "rc" in m && m["rc"] == receipt && ErrorKeys(m, error)
       case AuthRequest(credential) =>
         m["k"] == Num(PosInt(4)) && "c" in m && m["c"] == Str(credential)
       case AuthResponse(ok, timeout, error) =>
         && m["k"] == Num(PosInt(5)) && "o" in m && m["o"] == Bool(ok)
         && ("st" in m <==> timeout.Some?) && (timeout.Some? ==> m["st"] == Num(PosInt(timeout.value)))
         && ErrorKeys(m, error)
  }

  lemma EntryAt(m: Object, es: seq<Entry>, i: nat, key: string, v: Json)
    requires Holds(m, es) && i < |es| && es[i] == (key, v)
    ensures key in m && m[key] == v
  {
    assert es[i].0 in m;
  }

  lemma ErrorWritten(m: Object, es: seq<Entry>, error: Option<ErrorPayload>, at: nat)
    requires Holds(m, es)
    requires if error.Some? then at < |es| && es[at] == ("er", ErrorJson(error.value))
             else forall i :: 0 <= i < |es| ==> es[i].0 != "er"
    ensures ErrorKeys(m, error)
  {
    if error.Some? {
      EntryAt(m, es, at, "er", ErrorJson(error.value));
    }
  }

  lemma MetaWritten(m: Object, es: seq<Entry>, metadata: Json, at: nat)
    requires Holds(m, es)
    requires if MetadataIsEmpty(metadata) then forall i :: 0 <= i < |es| ==> es[i].0 != "m"
             else at < |es| && es[at] == ("m", metadata)
    ensures MetaKeys(m, metadata)
  {
    if !MetadataIsEmpty(metadata) {
      EntryAt(m, es, at, "m", metadata);
    }
  }

  lemma RequestKeys(b: PacketBody, m: Object, es: seq<Entry>)
    requires b.ApiRequest? && es == Serialize(b) && Holds(m, es)
    ensures WrittenAs(b, m)
  {
    EntryAt(m, es, 0, "k", Uint(0));
    EntryAt(m, es, 1, "i", Uint(b.requestId));
    EntryAt(m, es, 2, "r", Str(b.route));
    EntryAt(m, es, 3, "p", b.params);
    MetaWritten(m, es, b.metadata, 4);
  }

  lemma EmitKeys(b: PacketBody, m: Object, es: seq<Entry>)
    requires b.EventEmit? && es == Serialize(b) && Holds(m, es)
    ensures WrittenAs(b, m)
  {
    EntryAt(m, es, 0, "k", Uint(1));
    EntryAt(m, es, 1, "i", Uint(b.eventId));
    EntryAt(m, es, 2, "n", Str(b.name));
    EntryAt(m, es, 3, "d", Obj(b.payload));
    EntryAt(m, es, |es| - 1, "e", Bool(b.expectAck));
    MetaWritten(m, es, b.metadata, 4);
  }

  lemma ResponseKeys(b: PacketBody, m: Object, es: seq<Entry>)
    requires b.ApiResponse? && es == Serialize(b) && Holds(m, es)
    ensures WrittenAs(b, m)
  {
    EntryAt(m, es, 0, "k", Uint(2));
    EntryAt(m, es, 1, "i", Uint(b.requestId));
    EntryAt(m, es, 2, "o", Bool(b.ok));
    EntryAt(m, es, 3, "s", Uint(b.status));
    EntryAt(m, es, 4, "d", b.data);
    ResponseTail(b, m, es);
    assert "a" !in m by {
      ResponseHasNoAttachments(b, m, es);
    }
  }

  lemma ResponseTail(b: PacketBody, m: Object, es: seq<Entry>)
    requires b.ApiResponse? && es == Serialize(b) && Holds(m, es)
    ensures ErrorKeys(m, b.error) && MetaKeys(m, b.metadata)
  {
    var head := [("k", Uint(2)), ("i", Uint(b.requestId)), ("o", Bool(b.ok)), ("s", Uint(b.status)), ("d", b.data)];
    assert es == head + (ErrorEntry(b.error) + MetaEntry(b.metadata));
    ErrorWritten(m, es, b.error, 5);
    MetaWritten(m, es, b.metadata, |es| - 1);
  }

  lemma ResponseHasNoAttachments(b: PacketBody, m: Object, es: seq<Entry>)
    requires b.ApiResponse? && es == Serialize(b) && Holds(m, es)
    ensures "a" !in m
  {
  }

  lemma AckKeys(b: PacketBody, m: Object, es: seq<Entry>)
    requires b.EventAck? && es == Serialize(b) && Holds(m, es)
    ensures WrittenAs(b, m)
  {
    EntryAt(m, es, 0, "k", Uint(3));
    EntryAt(m, es, 1, "i", Uint(b.eventId));
    EntryAt(m, es, 2, "o", Bool(b.ok));
    EntryAt(m, es, 3, "rc", b.receipt);
    AckTail(b, m, es);
  }

  lemma AckTail(b: PacketBody, m: Object, es: seq<Entry>)
    requires b.EventAck? && es == Serialize(b) && Holds(m, es)
    ensures ErrorKeys(m, b.error) && "a" !in m
  {
    var head := [("k", Uint(3)), ("i", Uint(b.eventId)), ("o", Bool(b.ok)), ("rc", b.receipt)];
    assert es == head + ErrorEntry(b.error);
    ErrorWritten(m, es, b.error, 4);
  }

  lemma AuthRequestKeys(b: PacketBody, m: Object, es: seq<Entry>)
    requires b.AuthRequest? && es == Serialize(b) && Holds(m, es)
    ensures WrittenAs(b, m)
  {
    EntryAt(m, es, 0, "k", Uint(4));
    EntryAt(m, es, 1, "c", Str(b.credential));
  }

  lemma AuthResponseKeys(b: PacketBody, m: Object, es: seq<Entry>)
    requires b.AuthResponse? && es == Serialize(b) && Holds(m, es)
    ensures WrittenAs(b, m)
  {
    EntryAt(m, es, 0, "k", Uint(5));
    EntryAt(m, es, 1, "o", Bool(b.ok));
    var timeout: seq<Entry> :=
      if b.sessionTimeoutSecs.Some? then [("st", Uint(b.sessionTimeoutSecs.value))] else [];
    assert es == [("k", Uint(5)), ("o", Bool(b.ok))] + (timeout + ErrorEntry(b.error));
    if b.sessionTimeoutSecs.Some? {
      EntryAt(m, es, 2, "st", Uint(b.sessionTimeoutSecs.value));
    }
    ErrorWritten(m, es, b.error, |es| - 1);
  }

  /** Every packet is written under exactly these keys, with its kind as a number from 0 to 5. */
  lemma WireKeys(b: PacketBody)
    ensures WrittenAs(b, Fields(Serialize(b)))
  {
    var es, m := Serialize(b), Fields(Serialize(b));
    SerializedFields(b);
    match b
    case ApiRequest(_, _, _, _, _) => RequestKeys(b, m, es);
    case EventEmit(_, _, _, _, _, _) => EmitKeys(b, m, es);
    case ApiResponse(_, _, _, _, _, _) => ResponseKeys(b, m, es);
    case EventAck(_, _, _, _) => AckKeys(b, m, es);
    case AuthRequest(_) => AuthRequestKeys(b, m, es);
    case AuthResponse(_, _, _) => AuthResponseKeys(b, m, es);
  }

  // ----- Rejected frames -----

  /** The header of a frame is refused for exactly these reasons, in this order. */
  lemma HeaderRefusals(l: Library, c: Codec, frame: seq<u8>)
    ensures |frame| < 5 ==> Decode(l, c, frame) == Err(FrameTooShort)
    ensures |frame| >= 5 && BigEndian(frame[0], frame[1], frame[2], frame[3]) != |frame| - 4 ==>
              Decode(l, c, frame).Err? && Decode(l, c, frame).error.FrameLengthMismatch?
    ensures |frame| >= 5 && BigEndian(frame[0], frame[1], frame[2], frame[3]) == |frame| - 4 && |frame| > c.maxFrameBytes ==>
              Decode(l, c, frame) == Err(FrameTooLarge(|frame|, c.maxFrameBytes))
    ensures |frame| >= 5 && BigEndian(frame[0], frame[1], frame[2], frame[3]) == |frame| - 4 && |frame| <= c.maxFrameBytes ==>
              frame[4] > 2 ==> Decode(l, c, frame) == Err(UnknownMessageType(frame[4]))
  {
    if |frame| >= 5 {
      assert BigEndian(frame[0], frame[1], frame[2], frame[3]) == FromBe32(frame);
    }
  }

  /** What a request, event or credential reads as that has nothing but its required fields. */
  lemma SparseRequests(id: u64, text: string)
    ensures ReadBody(map["k" := Uint(0), "i" := Uint(id), "r" := Str(text)]) == Ok(ApiRequest(id, text, Null, [], Null))
    ensures ReadBody(map["k" := Uint(1), "i" := Uint(id), "n" := Str(text)])
            == Ok(EventEmit(id, text, map[], [], Null, false))
    ensures ReadBody(map["k" := Uint(4), "c" := Str(text)]) == Ok(AuthRequest(text))
  {
  }

  /** The same for the replies: what does not say that it is ok is not. */
  lemma SparseReplies(id: u64)
    ensures ReadBody(map["k" := Uint(2), "i" := Uint(id)]) == Ok(ApiResponse(id, false, 0, Null, None, Null))
    ensures ReadBody(map["k" := Uint(3), "i" := Uint(id)]) == Ok(EventAck(id, false, Null, None))
    ensures ReadBody(map["k" := Uint(5)]) == Ok(AuthResponse(false, None, None))
  {
  }

  /** A body without a known kind, or without a field its kind requires, is refused. */
  lemma RefusedBodies(m: Object)
    ensures "k" !in m ==> ReadBody(m).Err?
    ensures "k" in m && (forall n: u64 :: n <= 5 ==> m["k"] != Uint(n)) ==> ReadBody(m).Err?
    ensures "k" in m && (exists n: u64 :: n <= 3 && m["k"] == Uint(n)) && "i" !in m ==> ReadBody(m).Err?
    ensures "k" in m && m["k"] == Uint(0) && ("r" !in m || !m["r"].Str?) ==> ReadBody(m).Err?
    ensures "k" in m && m["k"] == Uint(1) && ("n" !in m || !m["n"].Str?) ==> ReadBody(m).Err?
    ensures "k" in m && m["k"] == Uint(4) && ("c" !in m || !m["c"].Str?) ==> ReadBody(m).Err?
  {
    if "k" in m && (forall n: u64 :: n <= 5 ==> m["k"] != Uint(n)) {
      if AsU64(m["k"]).Some? {
        var n: u64 := AsU64(m["k"]).value;
        assert m["k"] == Uint(n);
      }
    }
  }
}
