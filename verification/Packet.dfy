/** Packet bodies and their JSON key maps: `PacketBody` Serialize and Deserialize. */
module Packet {
  import opened Wrappers
  import opened Bytes
  import opened Json
  import opened Attachment

  datatype MessageType = Api | Event | Auth

  datatype EncryptionKind = Plain | ChaCha20 | Aes256

  datatype ErrorPayload = ErrorPayload(
    code: string, message: string, status: u16, details: Option<Json>)

  datatype PacketBody =
    | ApiRequest(requestId: u64, route: string, params: Json,
                 attachments: seq<FileAttachment>, metadata: Json)
    | ApiResponse(requestId: u64, ok: bool, status: u16, data: Json,
                  error: Option<ErrorPayload>, metadata: Json)
    | EventEmit(eventId: u64, name: string, payload: Object,
                attachments: seq<FileAttachment>, metadata: Json, expectAck: bool)
    | EventAck(eventId: u64, ok: bool, receipt: Json, error: Option<ErrorPayload>)
    | AuthRequest(credential: string)
    | AuthResponse(ok: bool, sessionTimeoutSecs: Option<u64>, error: Option<ErrorPayload>)
  {
    function MessageType(): MessageType {
      match this
      case ApiRequest(_, _, _, _, _) => Api
      case ApiResponse(_, _, _, _, _, _) => Api
      case EventEmit(_, _, _, _, _, _) => Event
      case EventAck(_, _, _, _) => Event
      case AuthRequest(_) => Auth
      case AuthResponse(_, _, _) => Auth
    }

    function Attachments(): seq<FileAttachment> {
      if ApiRequest? || EventEmit? then attachments else []
    }

    /** `set_attachments`: ignored by the variants that carry none. */
    function SetAttachments(atts: seq<FileAttachment>): PacketBody {
      match this
      case ApiRequest(id, route, params, _, metadata) => ApiRequest(id, route, params, atts, metadata)
      case EventEmit(id, name, payload, _, metadata, ack) =>
        EventEmit(id, name, payload, atts, metadata, ack)
      case _ => this
    }
  }

  datatype PacketEnvelope = PacketEnvelope(
    messageType: MessageType, encryption: EncryptionKind, body: PacketBody)

  /** `PacketEnvelope::with_encryption`. */
  function Envelope(body: PacketBody, encryption: EncryptionKind): PacketEnvelope {
    PacketEnvelope(body.MessageType(), encryption, body)
  }

  const K_API_REQUEST: u8 := 0
  const K_EVENT_EMIT: u8 := 1
  const K_API_RESPONSE: u8 := 2
  const K_EVENT_ACK: u8 := 3
  const K_AUTH_REQUEST: u8 := 4
  const K_AUTH_RESPONSE: u8 := 5

  predicate MetadataIsEmpty(v: Json) {
    v.Null? || (v.Obj? && v.fields == map[])
  }

  // ----- Serialize: the entries in the order they are written -----

  function ErrorJson(e: ErrorPayload): Json {
    var base: Object := map["code" := Str(e.code), "message" := Str(e.message), "status" := Uint(e.status)];
    Obj(if e.details.Some? then base["details" := e.details.value] else base)
  }

  function MetaEntry(metadata: Json): seq<Entry> {
    if MetadataIsEmpty(metadata) then [] else [("m", metadata)]
  }

  function ErrorEntry(error: Option<ErrorPayload>): seq<Entry> {
    if error.Some? then [("er", ErrorJson(error.value))] else []
  }

  function Tag(b: PacketBody): u8 {
    match b
    case ApiRequest(_, _, _, _, _) => K_API_REQUEST
    case EventEmit(_, _, _, _, _, _) => K_EVENT_EMIT
    case ApiResponse(_, _, _, _, _, _) => K_API_RESPONSE
    case EventAck(_, _, _, _) => K_EVENT_ACK
    case AuthRequest(_) => K_AUTH_REQUEST
    case AuthResponse(_, _, _) => K_AUTH_RESPONSE
  }

  /** The entries after the `k` tag. */
  function Members(b: PacketBody): seq<Entry> {
    match b
    case ApiRequest(id, route, params, _, metadata) =>
      [("i", Uint(id)), ("r", Str(route)), ("p", params)] + MetaEntry(metadata)
    case ApiResponse(id, ok, status, data, error, metadata) =>
      [("i", Uint(id)), ("o", Bool(ok)), ("s", Uint(status)), ("d", data)]
      + ErrorEntry(error) + MetaEntry(metadata)
    case EventEmit(id, name, payload, _, metadata, expectAck) =>
      [("i", Uint(id)), ("n", Str(name)), ("d", Obj(payload))]
      + MetaEntry(metadata) + [("e", Bool(expectAck))]
    case EventAck(id, ok, receipt, error) =>
      [("i", Uint(id)), ("o", Bool(ok)), ("rc", receipt)] + ErrorEntry(error)
    case AuthRequest(credential) =>
      [("c", Str(credential))]
    case AuthResponse(ok, timeout, error) =>
      [("o", Bool(ok))]
      + (if timeout.Some? then [("st", Uint(timeout.value))] else [])
      + ErrorEntry(error)
  }

  function Serialize(b: PacketBody): seq<Entry> {
    [("k", Uint(Tag(b)))] + Members(b)
  }

  // ----- Deserialize: reference reader, which looks keys up and removes nothing -----

  function FieldU64(m: Object, key: string): Result<u64, string> {
    if key in m && AsU64(m[key]).Some? then Ok(AsU64(m[key]).value)
    else Err("missing or non-numeric '" + key + "' field in packet body")
  }

  function FieldString(m: Object, key: string): Result<string, string> {
    if key in m && m[key].Str? then Ok(m[key].s)
    else Err("missing or non-string '" + key + "' field in packet body")
  }

  function FieldObject(m: Object, key: string): Result<Object, string> {
    if key !in m then Ok(map[])
    else if m[key].Obj? then Ok(m[key].fields)
    else Err("'" + key + "' field must be a JSON object")
  }

  function FieldBool(m: Object, key: string): bool {
    key in m && m[key] == Bool(true)
  }

  function FieldU16(m: Object, key: string): u16 {
    if key in m && AsU64(m[key]).Some? then AsU16(AsU64(m[key]).value) else 0
  }

  function FieldOrNull(m: Object, key: string): Json {
    if key in m then m[key] else Null
  }

  function OptionalU64(m: Object, key: string): Option<u64> {
    if key in m then AsU64(m[key]) else None
  }

  /** The derived reader of a `u16` struct field. */
  predicate IsU16(j: Json) {
    AsU64(j).Some? && AsU64(j).value < 0x1_0000
  }

  /** The derived reader of an `Option<Value>` struct field: null reads as absent. */
  function Present(j: Json): Option<Json> {
    if j.Null? then None else Some(j)
  }

  /** The derived reader of `ErrorPayload`: from an object, or from an array of its four fields. */
  function ReadError(j: Json): Result<ErrorPayload, string> {
    if j.Obj? && "code" in j.fields && j.fields["code"].Str?
       && "message" in j.fields && j.fields["message"].Str?
       && "status" in j.fields && IsU16(j.fields["status"]) then
      Ok(ErrorPayload(j.fields["code"].s, j.fields["message"].s, AsU64(j.fields["status"]).value,
                      Present(FieldOrNull(j.fields, "details"))))
    else if j.Arr? && |j.items| == 4 && j.items[0].Str? && j.items[1].Str? && IsU16(j.items[2]) then
      Ok(ErrorPayload(j.items[0].s, j.items[1].s, AsU64(j.items[2]).value, Present(j.items[3])))
    else
      Err("invalid error payload")
  }

  function FieldError(m: Object): Result<Option<ErrorPayload>, string> {
    if "er" !in m then Ok(None)
    else
      var e :- ReadError(m["er"]);
      Ok(Some(e))
  }

  predicate IsByteList(j: Json) {
    j.Arr? && forall x :: x in j.items ==> AsU64(x).Some? && AsU64(x).value < 0x100
  }

  /** Accepted by the manual `FileAttachment` reader, which refuses unknown keys. */
  predicate IsAttachment(j: Json) {
    || (&& j.Obj? && j.fields.Keys == {"id", "name", "content_type", "data"}
        && j.fields["id"].Str? && j.fields["name"].Str? && j.fields["content_type"].Str?
        && IsByteList(j.fields["data"]))
    || (&& j.Arr? && |j.items| == 4 && j.items[0].Str? && j.items[1].Str? && j.items[2].Str?
        && IsByteList(j.items[3]))
  }

  /**
   * The JSON `a` field must be a list of attachments. Its contents are then replaced by the
   * binary section, so only acceptance matters.
   */
  function CheckAttachments(m: Object): Result<(), string> {
    if "a" !in m || (m["a"].Arr? && forall x :: x in m["a"].items ==> IsAttachment(x)) then Ok(())
    else Err("invalid attachment list")
  }

  function Discriminator(m: Object): (r: Result<nat, string>)
    ensures r.Ok? ==> r.value < 0x100
  {
    if "k" !in m || AsU64(m["k"]).None? then Err("missing or non-numeric 'k' field in packet body")
    else
      var k: nat := AsU64(m["k"]).value;
      if k < 0x100 then Ok(k) else Err("'k' value is outside the valid range")
  }

  function ReadApiRequest(m: Object): Result<PacketBody, string> {
    var id :- FieldU64(m, "i");
    var route :- FieldString(m, "r");
    var _ :- CheckAttachments(m);
    Ok(ApiRequest(id, route, FieldOrNull(m, "p"), [], FieldOrNull(m, "m")))
  }

  function ReadEventEmit(m: Object): Result<PacketBody, string> {
    var id :- FieldU64(m, "i");
    var name :- FieldString(m, "n");
    var payload :- FieldObject(m, "d");
    var _ :- CheckAttachments(m);
    Ok(EventEmit(id, name, payload, [], FieldOrNull(m, "m"), FieldBool(m, "e")))
  }

  function ReadApiResponse(m: Object): Result<PacketBody, string> {
    var id :- FieldU64(m, "i");
    var error :- FieldError(m);
    Ok(ApiResponse(id, FieldBool(m, "o"), FieldU16(m, "s"), FieldOrNull(m, "d"), error,
                   FieldOrNull(m, "m")))
  }

  function ReadEventAck(m: Object): Result<PacketBody, string> {
    var id :- FieldU64(m, "i");
    var error :- FieldError(m);
    Ok(EventAck(id, FieldBool(m, "o"), FieldOrNull(m, "rc"), error))
  }

  function ReadAuthRequest(m: Object): Result<PacketBody, string> {
    var credential :- FieldString(m, "c");
    Ok(AuthRequest(credential))
  }

  function ReadAuthResponse(m: Object): Result<PacketBody, string> {
    var error :- FieldError(m);
    Ok(AuthResponse(FieldBool(m, "o"), OptionalU64(m, "st"), error))
  }

  function ReadVariant(k: nat, m: Object): Result<PacketBody, string> {
    if k == K_API_REQUEST then ReadApiRequest(m)
    else if k == K_EVENT_EMIT then ReadEventEmit(m)
    else if k == K_API_RESPONSE then ReadApiResponse(m)
    else if k == K_EVENT_ACK then ReadEventAck(m)
    else if k == K_AUTH_REQUEST then ReadAuthRequest(m)
    else if k == K_AUTH_RESPONSE then ReadAuthResponse(m)
    else Err("unknown 'k' value")
  }

  function ReadBody(m: Object): Result<PacketBody, string> {
    var k :- Discriminator(m);
    ReadVariant(k, m)
  }

  function ReadJson(j: Json): Result<PacketBody, string> {
    if j.Obj? then ReadBody(j.fields) else Err("packet body must be a JSON object")
  }

  // ----- Deserialize: the program's reader, which moves each field out of the map -----

  /** `map.remove(key)`. */
  method Remove(m: Object, key: string) returns (v: Option<Json>, rest: Object)
    ensures v == Get(m, key) && rest == m - {key}
  {
    v := Get(m, key);
    rest := m - {key};
  }

  method TakeU64(m: Object, key: string) returns (r: Result<u64, string>, rest: Object)
    ensures r == FieldU64(m, key) && rest == m - {key}
  {
    var v;
    v, rest := Remove(m, key);
    if v.Some? && AsU64(v.value).Some? {
      r := Ok(AsU64(v.value).value);
    } else {
      r := Err("missing or non-numeric '" + key + "' field in packet body");
    }
  }

  method TakeString(m: Object, key: string) returns (r: Result<string, string>, rest: Object)
    ensures r == FieldString(m, key) && rest == m - {key}
  {
    var v;
    v, rest := Remove(m, key);
    if v.Some? && v.value.Str? {
      r := Ok(v.value.s);
    } else {
      r := Err("missing or non-string '" + key + "' field in packet body");
    }
  }

  method TakeObject(m: Object, key: string) returns (r: Result<Object, string>, rest: Object)
    ensures r == FieldObject(m, key) && rest == m - {key}
  {
    var v;
    v, rest := Remove(m, key);
    match v {
      case None => r := Ok(map[]);
      case Some(Obj(fields)) => r := Ok(fields);
      case Some(_) => r := Err("'" + key + "' field must be a JSON object");
    }
  }

  method TakeBool(m: Object, key: string) returns (r: bool, rest: Object)
    ensures r == FieldBool(m, key) && rest == m - {key}
  {
    var v;
    v, rest := Remove(m, key);
    r := v.Some? && AsBool(v.value) == Some(true);
  }

  method TakeU16(m: Object, key: string) returns (r: u16, rest: Object)
    ensures r == FieldU16(m, key) && rest == m - {key}
  {
    var v;
    v, rest := Remove(m, key);
    r := if v.Some? && AsU64(v.value).Some? then AsU16(AsU64(v.value).value) else 0;
  }

  method TakeOrNull(m: Object, key: string) returns (r: Json, rest: Object)
    ensures r == FieldOrNull(m, key) && rest == m - {key}
  {
    var v;
    v, rest := Remove(m, key);
    r := if v.Some? then v.value else Null;
  }

  method TakeAttachments(m: Object) returns (r: Result<(), string>, rest: Object)
    ensures r == CheckAttachments(m) && rest == m - {"a"}
  {
    var v;
    v, rest := Remove(m, "a");
    if v.Some? && !(v.value.Arr? && forall x :: x in v.value.items ==> IsAttachment(x)) {
      r := Err("invalid attachment list");
    } else {
      r := Ok(());
    }
  }

  method TakeError(m: Object) returns (r: Result<Option<ErrorPayload>, string>, rest: Object)
    ensures r == FieldError(m) && rest == m - {"er"}
  {
    var v;
    v, rest := Remove(m, "er");
    if v.None? {
      r := Ok(None);
    } else {
      var e := ReadError(v.value);
      r := if e.Ok? then Ok(Some(e.value)) else Err(e.error);
    }
  }

  method TakeApiRequest(fields: Object) returns (r: Result<PacketBody, string>)
    ensures r == ReadApiRequest(fields)
  {
    var m := fields;
    var id, route, params, atts, metadata;
    id, m := TakeU64(m, "i");
    if id.Err? { return Err(id.error); }
    route, m := TakeString(m, "r");
    if route.Err? { return Err(route.error); }
    params, m := TakeOrNull(m, "p");
    atts, m := TakeAttachments(m);
    if atts.Err? { return Err(atts.error); }
    metadata, m := TakeOrNull(m, "m");
    return Ok(ApiRequest(id.value, route.value, params, [], metadata));
  }

  method TakeEventEmit(fields: Object) returns (r: Result<PacketBody, string>)
    ensures r == ReadEventEmit(fields)
  {
    var m := fields;
    var id, name, payload, atts, metadata, ack;
    id, m := TakeU64(m, "i");
    if id.Err? { return Err(id.error); }
    name, m := TakeString(m, "n");
    if name.Err? { return Err(name.error); }
    payload, m := TakeObject(m, "d");
    if payload.Err? { return Err(payload.error); }
    atts, m := TakeAttachments(m);
    if atts.Err? { return Err(atts.error); }
    metadata, m := TakeOrNull(m, "m");
    ack, m := TakeBool(m, "e");
    return Ok(EventEmit(id.value, name.value, payload.value, [], metadata, ack));
  }

  method TakeApiResponse(fields: Object) returns (r: Result<PacketBody, string>)
    ensures r == ReadApiResponse(fields)
  {
    var m := fields;
    var id, ok, status, data, error, metadata;
    id, m := TakeU64(m, "i");
    if id.Err? { return Err(id.error); }
    ok, m := TakeBool(m, "o");
    status, m := TakeU16(m, "s");
    data, m := TakeOrNull(m, "d");
    error, m := TakeError(m);
    if error.Err? { return Err(error.error); }
    metadata, m := TakeOrNull(m, "m");
    return Ok(ApiResponse(id.value, ok, status, data, error.value, metadata));
  }

  method TakeEventAck(fields: Object) returns (r: Result<PacketBody, string>)
    ensures r == ReadEventAck(fields)
  {
    var m := fields;
    var id, ok, receipt, error;
    id, m := TakeU64(m, "i");
    if id.Err? { return Err(id.error); }
    ok, m := TakeBool(m, "o");
    receipt, m := TakeOrNull(m, "rc");
    error, m := TakeError(m);
    if error.Err? { return Err(error.error); }
    return Ok(EventAck(id.value, ok, receipt, error.value));
  }

  method TakeAuthRequest(fields: Object) returns (r: Result<PacketBody, string>)
    ensures r == ReadAuthRequest(fields)
  {
    var credential, _ := TakeString(fields, "c");
    if credential.Err? { return Err(credential.error); }
    return Ok(AuthRequest(credential.value));
  }

  method TakeAuthResponse(fields: Object) returns (r: Result<PacketBody, string>)
    ensures r == ReadAuthResponse(fields)
  {
    var m := fields;
    var ok, timeout, error;
    ok, m := TakeBool(m, "o");
    timeout, m := Remove(m, "st");
    error, m := TakeError(m);
    if error.Err? { return Err(error.error); }
    return Ok(AuthResponse(ok, if timeout.Some? then AsU64(timeout.value) else None, error.value));
  }

  /** Moving fields out of the map, in this order, reads the same body as looking them up. */
  method Deserialize(j: Json) returns (r: Result<PacketBody, string>)
    ensures r == ReadJson(j)
  {
    if !j.Obj? {
      return Err("packet body must be a JSON object");
    }
    var k := Discriminator(j.fields);
    if k.Err? {
      return Err(k.error);
    }
    if k.value == K_API_REQUEST {
      r := TakeApiRequest(j.fields);
    } else if k.value == K_EVENT_EMIT {
      r := TakeEventEmit(j.fields);
    } else if k.value == K_API_RESPONSE {
      r := TakeApiResponse(j.fields);
    } else if k.value == K_EVENT_ACK {
      r := TakeEventAck(j.fields);
    } else if k.value == K_AUTH_REQUEST {
      r := TakeAuthRequest(j.fields);
    } else if k.value == K_AUTH_RESPONSE {
      r := TakeAuthResponse(j.fields);
    } else {
      r := Err("unknown 'k' value");
    }
  }

  // ----- Normal form -----

  function NormalMetadata(v: Json): Json {
    if MetadataIsEmpty(v) then Null else v
  }

  function NormalError(e: Option<ErrorPayload>): Option<ErrorPayload> {
    if e.Some? && e.value.details == Some(Null) then Some(e.value.(details := None)) else e
  }

  /** What the wire keeps of a body: empty metadata becomes null, null error details become absent. */
  function Normal(b: PacketBody): PacketBody {
    match b
    case ApiRequest(id, route, params, atts, metadata) =>
      ApiRequest(id, route, params, atts, NormalMetadata(metadata))
    case ApiResponse(id, ok, status, data, error, metadata) =>
      ApiResponse(id, ok, status, data, NormalError(error), NormalMetadata(metadata))
    case EventEmit(id, name, payload, atts, metadata, ack) =>
      EventEmit(id, name, payload, atts, NormalMetadata(metadata), ack)
    case EventAck(id, ok, receipt, error) => EventAck(id, ok, receipt, NormalError(error))
    case AuthRequest(_) => b
    case AuthResponse(ok, timeout, error) => AuthResponse(ok, timeout, NormalError(error))
  }

  lemma ErrorRoundTrip(e: ErrorPayload)
    ensures ReadError(ErrorJson(e)) == Ok(NormalError(Some(e)).value)
  {
  }

  lemma RequestKeysDistinct(b: PacketBody)
    requires b.ApiRequest? || b.EventEmit?
    ensures DistinctKeys(Serialize(b))
  {
  }

  lemma ResponseKeysDistinct(b: PacketBody)
    requires b.ApiResponse?
    ensures DistinctKeys(Serialize(b))
  {
  }

  lemma ShortKeysDistinct(b: PacketBody)
    requires b.EventAck? || b.AuthRequest? || b.AuthResponse?
    ensures DistinctKeys(Serialize(b))
  {
  }

  /** No body writes a key twice. */
  lemma SerializedKeysDistinct(b: PacketBody)
    ensures DistinctKeys(Serialize(b))
  {
    match b
    case ApiRequest(_, _, _, _, _) => RequestKeysDistinct(b);
    case EventEmit(_, _, _, _, _, _) => RequestKeysDistinct(b);
    case ApiResponse(_, _, _, _, _, _) => ResponseKeysDistinct(b);
    case _ => ShortKeysDistinct(b);
  }

  /** `m` holds exactly the given entries. */
  ghost predicate Holds(m: Object, es: seq<Entry>) {
    && (forall i :: 0 <= i < |es| ==> es[i].0 in m && m[es[i].0] == es[i].1)
    && (forall key :: key in m ==> exists i :: 0 <= i < |es| && es[i].0 == key)
  }

  lemma SerializedFields(b: PacketBody)
    ensures Holds(Fields(Serialize(b)), Serialize(b))
  {
    var es := Serialize(b);
    SerializedKeysDistinct(b);
    forall i | 0 <= i < |es|
      ensures es[i].0 in Fields(es) && Fields(es)[es[i].0] == es[i].1
    {
      FieldsLookup(es, es[i].0);
    }
    forall key | key in Fields(es)
      ensures exists i :: 0 <= i < |es| && es[i].0 == key
    {
      FieldsLookup(es, key);
    }
  }

  lemma ErrorFieldRead(m: Object, es: seq<Entry>, e: Option<ErrorPayload>, at: nat)
    requires Holds(m, es) && at <= |es|
    requires if e.Some? then at < |es| && es[at] == ("er", ErrorJson(e.value))
             else forall i :: 0 <= i < |es| ==> es[i].0 != "er"
    ensures FieldError(m) == Ok(NormalError(e))
  {
    if e.Some? {
      ErrorRoundTrip(e.value);
      assert es[at].0 in m;
    }
  }

  lemma MetadataRead(m: Object, es: seq<Entry>, v: Json, at: nat)
    requires Holds(m, es) && at <= |es|
    requires if MetadataIsEmpty(v) then forall i :: 0 <= i < |es| ==> es[i].0 != "m"
             else at < |es| && es[at] == ("m", v)
    ensures FieldOrNull(m, "m") == NormalMetadata(v)
  {
    if !MetadataIsEmpty(v) {
      assert es[at].0 in m;
    }
  }

  lemma RequestRead(b: PacketBody, m: Object, es: seq<Entry>)
    requires b.ApiRequest? && es == Serialize(b) && Holds(m, es)
    ensures ReadApiRequest(m) == Ok(Normal(b).SetAttachments([]))
  {
    assert es[1].0 == "i" && es[2].0 == "r" && es[3].0 == "p";
    assert "a" !in m;
    MetadataRead(m, es, b.metadata, 4);
  }

  lemma EmitRead(b: PacketBody, m: Object, es: seq<Entry>)
    requires b.EventEmit? && es == Serialize(b) && Holds(m, es)
    ensures ReadEventEmit(m) == Ok(Normal(b).SetAttachments([]))
  {
    assert es[1].0 == "i" && es[2].0 == "n" && es[3].0 == "d" && es[|es| - 1].0 == "e";
    assert "a" !in m;
    MetadataRead(m, es, b.metadata, 4);
  }

  lemma ResponseRead(b: PacketBody, m: Object, es: seq<Entry>)
    requires b.ApiResponse? && es == Serialize(b) && Holds(m, es)
    ensures ReadApiResponse(m) == Ok(Normal(b).SetAttachments([]))
  {
    assert es[1].0 == "i" && es[2].0 == "o" && es[3].0 == "s" && es[4].0 == "d";
    ErrorFieldRead(m, es, b.error, 5);
    MetadataRead(m, es, b.metadata, if b.error.Some? then 6 else 5);
  }

  lemma AckRead(b: PacketBody, m: Object, es: seq<Entry>)
    requires b.EventAck? && es == Serialize(b) && Holds(m, es)
    ensures ReadEventAck(m) == Ok(Normal(b).SetAttachments([]))
  {
    assert es[1].0 == "i" && es[2].0 == "o" && es[3].0 == "rc";
    ErrorFieldRead(m, es, b.error, 4);
  }

  lemma AuthRequestRead(b: PacketBody, m: Object, es: seq<Entry>)
    requires b.AuthRequest? && es == Serialize(b) && Holds(m, es)
    ensures ReadAuthRequest(m) == Ok(Normal(b).SetAttachments([]))
  {
    assert es[1].0 == "c";
  }

  lemma AuthResponseRead(b: PacketBody, m: Object, es: seq<Entry>)
    requires b.AuthResponse? && es == Serialize(b) && Holds(m, es)
    ensures ReadAuthResponse(m) == Ok(Normal(b).SetAttachments([]))
  {
    assert es[1].0 == "o";
    assert b.sessionTimeoutSecs.Some? ==> es[2].0 == "st";
    ErrorFieldRead(m, es, b.error, if b.sessionTimeoutSecs.Some? then 3 else 2);
  }

  lemma TagRead(b: PacketBody, m: Object, es: seq<Entry>)
    requires es == Serialize(b) && Holds(m, es)
    ensures Discriminator(m) == Ok(Tag(b))
  {
    assert es[0] == ("k", Uint(Tag(b)));
  }

  /** Every body is read back from its own entries, up to normal form; attachments travel apart. */
  lemma BodyRoundTrip(b: PacketBody)
    ensures ReadBody(Fields(Serialize(b))) == Ok(Normal(b).SetAttachments([]))
  {
    var es := Serialize(b);
    var m := Fields(es);
    SerializedFields(b);
    TagRead(b, m, es);
    match b
    case ApiRequest(_, _, _, _, _) => RequestRead(b, m, es);
    case EventEmit(_, _, _, _, _, _) => EmitRead(b, m, es);
    case ApiResponse(_, _, _, _, _, _) => ResponseRead(b, m, es);
    case EventAck(_, _, _, _) => AckRead(b, m, es);
    case AuthRequest(_) => AuthRequestRead(b, m, es);
    case AuthResponse(_, _, _) => AuthResponseRead(b, m, es);
  }
}
