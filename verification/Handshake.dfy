/**
 * Setting up one connection: key agreement, the authentication exchange and going live, as a step
 * system of `establish_connection` and the first part of `serve_connection` over two ordered channels.
 */
module Handshake {
  import opened Wrappers
  import opened Bytes
  import opened Json
  import opened Attachment
  import opened Packet
  import opened FrameCodec
  import opened CodecLaws

  // ----- Key agreement -----

  /** X25519 and SHA-256 as the program calls them. */
  datatype Curve = Curve(public: Key -> Key, shared: (Key, Key) -> Key, hash: seq<u8> -> Key)

  /** Both sides compute the same shared secret (section 6.1 of RFC 7748). */
  ghost predicate Commutes(k: Curve) {
    forall a, b :: k.shared(a, k.public(b)) == k.shared(b, k.public(a))
  }

  /** The domain tag "wscall-ecdh-v1". */
  const ECDH_DOMAIN_TAG: seq<u8> :=
    [0x77, 0x73, 0x63, 0x61, 0x6c, 0x6c, 0x2d, 0x65, 0x63, 0x64, 0x68, 0x2d, 0x76, 0x31]

  function SessionKey(k: Curve, secret: Key, peer: Key): Key {
    k.hash(ECDH_DOMAIN_TAG + k.shared(secret, peer))
  }

  function SessionCodec(k: Curve, secret: Key, peer: Key): Codec {
    WithChaCha20Key(Plaintext(), SessionKey(k, secret, peer))
  }

  /** `parse_peer_public`: exactly 32 bytes. */
  function ParsePeerPublic(bytes: seq<u8>): (r: Result<Key, ProtocolError>)
    ensures r.Ok? <==> |bytes| == 32
    ensures r.Ok? ==> r.value == bytes
  {
    if |bytes| == 32 then Ok(bytes) else Err(InvalidEcdhPublicKey(32, |bytes|))
  }

  // ----- State -----

  /**
   * A websocket message: a binary one, or any other kind. A frame keeps the packet it was encoded
   * from as history; no step looks at it.
   */
  datatype Message = Raw(bytes: seq<u8>) | Frame(bytes: seq<u8>, made: PacketBody) | NotBinary

  datatype ClientPhase =
    | Dialled
    | AwaitingKey
    | Agreed(codec: Codec)
    | AwaitingVerdict(codec: Codec)
    | Live(codec: Codec)
    | ClientFailed

  datatype ServerPhase =
    | Upgraded
    | ServerAgreed(codec: Codec)
    | InTable(codec: Codec)
    | ServerFailed

  /** How the auth handler ends. */
  datatype Outcome = Approved(timeout: Option<u64>) | Denied(error: ErrorPayload) | Panicked

  datatype Asked = Asked(credential: string, outcome: Outcome)

  /**
   * `up` and `down` hold every message sent in that direction, in order; the cursors say how many the
   * other end has read. `asked` records the calls of the auth handler.
   */
  datatype State = State(
    client: ClientPhase, server: ServerPhase,
    up: seq<Message>, upRead: nat, down: seq<Message>, downRead: nat, asked: seq<Asked>)

  /** With an open network, anybody may put messages into the channels. */
  datatype Config = Config(
    lib: Library, curve: Curve,
    clientEcdh: bool, clientSecret: Key, clientCodec: Codec, credential: Option<string>,
    serverEcdh: bool, serverSecret: Key, serverCodec: Codec, maxFrameBytes: nat, serverMode: EncryptionKind,
    authRequired: bool, openNetwork: bool)

  const INIT := State(Dialled, Upgraded, [], 0, [], 0, [])

  // ----- Steps -----

  datatype Step =
    | ClientBegin
    | ClientReadKey
    | ClientSubmit(nonce: Option<Nonce>)
    | ClientReadVerdict
    | ClientPost(body: PacketBody, nonce: Option<Nonce>)
    | ClientFail
    | ServerKey
    | ServerEnter
    | ServerAuth(outcome: Outcome, nonce: Option<Nonce>)
    | ServerPost(body: PacketBody, nonce: Option<Nonce>)
    | ServerFail
    | ForeignUp(m: Message)
    | ForeignDown(m: Message)

  predicate Enabled(cfg: Config, s: State, step: Step) {
    match step
    case ClientBegin => s.client == Dialled
    case ClientReadKey => s.client == AwaitingKey && s.downRead < |s.down|
    case ClientSubmit(_) => s.client.Agreed?
    case ClientReadVerdict => s.client.AwaitingVerdict? && s.downRead < |s.down|
    case ClientPost(body, _) => s.client.Live? && body.MessageType() != Auth
    case ClientFail => !s.client.Live?
    case ServerKey => s.server == Upgraded && (cfg.serverEcdh ==> s.upRead < |s.up|)
    case ServerEnter => s.server.ServerAgreed? && !cfg.authRequired
    case ServerAuth(_, _) => s.server.ServerAgreed? && cfg.authRequired && s.upRead < |s.up|
    case ServerPost(body, _) => s.server.InTable? && body.MessageType() != Auth
    case ServerFail => !s.server.InTable?
    case ForeignUp(m) => cfg.openNetwork && !m.Frame?
    case ForeignDown(m) => cfg.openNetwork && !m.Frame?
  }

  function SendUp(s: State, l: Library, c: Codec, nonce: Option<Nonce>, p: PacketEnvelope): Result<State, ProtocolError> {
    var frame :- Encode(l, c, nonce, p);
    Ok(s.(up := s.up + [Frame(frame, p.body)]))
  }

  function SendDown(s: State, l: Library, c: Codec, nonce: Option<Nonce>, p: PacketEnvelope): Result<State, ProtocolError> {
    var frame :- Encode(l, c, nonce, p);
    Ok(s.(down := s.down + [Frame(frame, p.body)]))
  }

  /** The packet in a message, if it is a frame of this codec. */
  function ReadPacket(l: Library, c: Codec, m: Message): Option<PacketBody> {
    if m.NotBinary? then None
    else match Decode(l, c, m.bytes)
      case Ok(env) => Some(env.body)
      case Err(_) => None
  }

  /** The codec of the server's reader and, with key agreement, of its writer. */
  function ServerCodec(cfg: Config, base: Codec): Codec {
    WithMaxFrameBytes(base, cfg.maxFrameBytes)
  }

  function KeyStep(cfg: Config, s: State): State
    requires Enabled(cfg, s, ServerKey)
  {
    if !cfg.serverEcdh then s.(server := ServerAgreed(ServerCodec(cfg, cfg.serverCodec)))
    else
      var m := s.up[s.upRead];
      var s1 := s.(upRead := s.upRead + 1);
      if m.NotBinary? || ParsePeerPublic(m.bytes).Err? then s1.(server := ServerFailed)
      else
        s1.(down := s.down + [Raw(cfg.curve.public(cfg.serverSecret))],
            server := ServerAgreed(ServerCodec(cfg, SessionCodec(cfg.curve, cfg.serverSecret, m.bytes))))
  }

  /** The first frame after the keys must be an auth request; the handler decides. */
  function AuthStep(cfg: Config, s: State, outcome: Outcome, nonce: Option<Nonce>): State
    requires Enabled(cfg, s, ServerAuth(outcome, nonce))
  {
    var codec := s.server.codec;
    var s1 := s.(upRead := s.upRead + 1);
    var body := ReadPacket(cfg.lib, codec, s.up[s.upRead]);
    if body.None? || !body.value.AuthRequest? then s1.(server := ServerFailed)
    else
      var s2 := s1.(asked := s.asked + [Asked(body.value.credential, outcome)]);
      match outcome
      case Approved(timeout) =>
        (match SendDown(s2, cfg.lib, codec, nonce, Envelope(AuthResponse(true, timeout, None), codec.wire))
         case Ok(s3) => s3.(server := InTable(codec))
         case Err(_) => s2.(server := ServerFailed))
      case Denied(error) =>
        (match SendDown(s2, cfg.lib, codec, nonce, Envelope(AuthResponse(false, None, Some(error)), codec.wire))
         case Ok(s3) => s3.(server := ServerFailed)
         case Err(_) => s2.(server := ServerFailed))
      case Panicked => s2.(server := ServerFailed)
  }

  /** With a credential the client submits it and waits; without one it is live. */
  function SubmitStep(cfg: Config, s: State, nonce: Option<Nonce>): State
    requires s.client.Agreed?
  {
    var codec := s.client.codec;
    if cfg.credential.None? then s.(client := Live(codec))
    else
      match SendUp(s, cfg.lib, codec, nonce, Envelope(AuthRequest(cfg.credential.value), Plain))
      case Ok(s1) => s1.(client := AwaitingVerdict(codec))
      case Err(_) => s.(client := ClientFailed)
  }

  function ReadKeyStep(cfg: Config, s: State): State
    requires Enabled(cfg, s, ClientReadKey)
  {
    var m := s.down[s.downRead];
    var s1 := s.(downRead := s.downRead + 1);
    if m.NotBinary? || ParsePeerPublic(m.bytes).Err? then s1.(client := ClientFailed)
    else s1.(client := Agreed(SessionCodec(cfg.curve, cfg.clientSecret, m.bytes)))
  }

  function VerdictStep(cfg: Config, s: State): State
    requires Enabled(cfg, s, ClientReadVerdict)
  {
    var codec := s.client.codec;
    var body := ReadPacket(cfg.lib, codec, s.down[s.downRead]);
    var s1 := s.(downRead := s.downRead + 1);
    if body.Some? && body.value.AuthResponse? && body.value.ok then s1.(client := Live(codec))
    else s1.(client := ClientFailed)
  }

  /** Ordinary traffic of a live client; what cannot be encoded is dropped. */
  function PostUp(cfg: Config, s: State, body: PacketBody, nonce: Option<Nonce>): State
    requires s.client.Live?
  {
    var r := SendUp(s, cfg.lib, s.client.codec, nonce, Envelope(body, s.client.codec.wire));
    if r.Ok? then r.value else s
  }

  function PostDown(cfg: Config, s: State, body: PacketBody, nonce: Option<Nonce>): State
    requires s.server.InTable?
  {
    var r := SendDown(s, cfg.lib, OutCodec(cfg, s.server.codec), nonce, Envelope(body, cfg.serverMode));
    if r.Ok? then r.value else s
  }

  function Next(cfg: Config, s: State, step: Step): State
    requires Enabled(cfg, s, step)
  {
    match step
    case ClientBegin =>
      if cfg.clientEcdh then
        s.(client := AwaitingKey, up := s.up + [Raw(cfg.curve.public(cfg.clientSecret))])
      else s.(client := Agreed(cfg.clientCodec))
    case ClientReadKey => ReadKeyStep(cfg, s)
    case ClientSubmit(nonce) => SubmitStep(cfg, s, nonce)
    case ClientReadVerdict => VerdictStep(cfg, s)
    case ClientPost(body, nonce) => PostUp(cfg, s, body, nonce)
    case ClientFail => s.(client := ClientFailed)
    case ServerKey => KeyStep(cfg, s)
    case ServerEnter => s.(server := InTable(s.server.codec))
    case ServerAuth(outcome, nonce) => AuthStep(cfg, s, outcome, nonce)
    case ServerPost(body, nonce) => PostDown(cfg, s, body, nonce)
    case ServerFail => s.(server := ServerFailed)
    case ForeignUp(m) => s.(up := s.up + [m])
    case ForeignDown(m) => s.(down := s.down + [m])
  }

  /** What frames to this client are encoded with: its session codec, or the server's shared one. */
  function OutCodec(cfg: Config, session: Codec): Codec {
    if cfg.serverEcdh then session else cfg.serverCodec
  }

  function Run(cfg: Config, steps: seq<Step>): State {
    if steps == [] then INIT
    else
      var s := Run(cfg, steps[..|steps| - 1]);
      if Enabled(cfg, s, steps[|steps| - 1]) then Next(cfg, s, steps[|steps| - 1]) else s
  }

  // ----- No entry without approval, whatever is on the network -----

  function KeyMessages(ecdh: bool): nat {
    if ecdh then 1 else 0
  }

  /** The first frame after the keys holds this credential, and the handler approved it. */
  ghost predicate Admitted(cfg: Config, s: State, codec: Codec) {
    var n := KeyMessages(cfg.serverEcdh);
    && s.upRead == n + 1 && s.upRead <= |s.up| && |s.asked| == 1 && s.asked[0].outcome.Approved?
    && ReadPacket(cfg.lib, codec, s.up[n]) == Some(AuthRequest(s.asked[0].credential))
  }

  /** The server's codec comes from its own settings or from the first message it read. */
  predicate Derived(cfg: Config, up: seq<Message>, codec: Codec) {
    if cfg.serverEcdh then
      && |up| > 0 && !up[0].NotBinary? && |up[0].bytes| == 32
      && codec == ServerCodec(cfg, SessionCodec(cfg.curve, cfg.serverSecret, up[0].bytes))
    else codec == ServerCodec(cfg, cfg.serverCodec)
  }

  ghost predicate ServerInv(cfg: Config, s: State) {
    && s.upRead <= |s.up|
    && (s.server.ServerAgreed? || s.server.InTable? ==> Derived(cfg, s.up, s.server.codec))
    && (s.server == Upgraded ==> s.upRead == 0 && s.asked == [])
    && (s.server.ServerAgreed? ==> s.upRead == KeyMessages(cfg.serverEcdh) && s.asked == [])
    && (s.server.InTable? && cfg.authRequired ==> Admitted(cfg, s, s.server.codec))
    && (s.server.InTable? && !cfg.authRequired ==> s.asked == [])
  }

  /** Messages further back in the channel do not matter to what was admitted. */
  lemma UpGrows(cfg: Config, s: State, s': State)
    requires ServerInv(cfg, s) && s.up <= s'.up
    requires s'.upRead == s.upRead && s'.server == s.server && s'.asked == s.asked
    ensures ServerInv(cfg, s')
  {
  }

  lemma KeyStepServer(cfg: Config, s: State)
    requires ServerInv(cfg, s) && Enabled(cfg, s, ServerKey)
    ensures ServerInv(cfg, KeyStep(cfg, s))
  {
  }

  lemma AuthStepServer(cfg: Config, s: State, outcome: Outcome, nonce: Option<Nonce>)
    requires ServerInv(cfg, s) && Enabled(cfg, s, ServerAuth(outcome, nonce))
    ensures ServerInv(cfg, AuthStep(cfg, s, outcome, nonce))
  {
  }

  lemma StepServer(cfg: Config, s: State, step: Step)
    requires ServerInv(cfg, s) && Enabled(cfg, s, step)
    ensures ServerInv(cfg, Next(cfg, s, step))
  {
    match step
    case ServerKey => KeyStepServer(cfg, s);
    case ServerAuth(outcome, nonce) => AuthStepServer(cfg, s, outcome, nonce);
    case ServerEnter =>
    case ServerFail =>
    case _ => UpGrows(cfg, s, Next(cfg, s, step));
  }

  /**
   * A connection enters the client table of a server with an auth handler only after the handler
   * approved the credential of the first frame after the keys, whatever arrives on the network.
   */
  lemma {:induction false} NoEntryWithoutApproval(cfg: Config, steps: seq<Step>)
    ensures ServerInv(cfg, Run(cfg, steps))
    ensures var s := Run(cfg, steps);
            s.server.InTable? ==>
              && Derived(cfg, s.up, s.server.codec)
              && (cfg.authRequired ==> Admitted(cfg, s, s.server.codec))
  {
    if steps == [] {
    } else {
      var s, step := Run(cfg, steps[..|steps| - 1]), steps[|steps| - 1];
      NoEntryWithoutApproval(cfg, steps[..|steps| - 1]);
      if Enabled(cfg, s, step) {
        StepServer(cfg, s, step);
      }
    }
  }

  // ----- A client and a server by themselves -----

  /** Both agree on keys, or hold the same ones from the start. */
  predicate SameKeyMode(cfg: Config) {
    cfg.clientEcdh == cfg.serverEcdh && (!cfg.clientEcdh ==> SameKeys(cfg.clientCodec, cfg.serverCodec))
  }

  ghost predicate Undisturbed(cfg: Config) {
    Lawful(cfg.lib) && Commutes(cfg.curve) && SameKeyMode(cfg) && !cfg.openNetwork
  }

  function ClientEnd(cfg: Config): Codec {
    if cfg.clientEcdh then SessionCodec(cfg.curve, cfg.clientSecret, cfg.curve.public(cfg.serverSecret))
    else cfg.clientCodec
  }

  function ServerEnd(cfg: Config): Codec {
    ServerCodec(cfg, if cfg.serverEcdh
                     then SessionCodec(cfg.curve, cfg.serverSecret, cfg.curve.public(cfg.clientSecret))
                     else cfg.serverCodec)
  }

  lemma EndsAgree(cfg: Config)
    requires Commutes(cfg.curve) && SameKeyMode(cfg)
    ensures SameKeys(ClientEnd(cfg), ServerEnd(cfg)) && SameKeys(ServerEnd(cfg), ClientEnd(cfg))
    ensures SameKeys(OutCodec(cfg, ServerEnd(cfg)), ClientEnd(cfg))
  {
    assert cfg.curve.shared(cfg.clientSecret, cfg.curve.public(cfg.serverSecret))
        == cfg.curve.shared(cfg.serverSecret, cfg.curve.public(cfg.clientSecret));
  }

  /** The frame was encoded from the packet it is labelled with, under the keys of this connection. */
  ghost predicate Truthful(cfg: Config, m: Message) {
    m.Frame? ==>
      exists c, nonce, mode :: SameKeys(c, ClientEnd(cfg)) && Encode(cfg.lib, c, nonce, Envelope(m.made, mode)) == Ok(m.bytes)
  }

  ghost predicate AllTruthful(cfg: Config, ms: seq<Message>) {
    forall m :: m in ms ==> Truthful(cfg, m)
  }

  /** Reading a frame with the keys of the connection gives the packet it was made from. */
  lemma FrameReads(cfg: Config, d: Codec, m: Message)
    requires Lawful(cfg.lib) && SameKeys(d, ClientEnd(cfg)) && m.Frame? && Truthful(cfg, m)
    ensures var r := ReadPacket(cfg.lib, d, m);
            r.Some? ==>
              && r.value.MessageType() == m.made.MessageType()
              && (m.made.AuthRequest? ==> r.value == m.made)
              && (m.made.AuthResponse? ==> r.value.AuthResponse? && r.value.ok == m.made.ok)
  {
    if ReadPacket(cfg.lib, d, m).Some? {
      var c, nonce, mode :| SameKeys(c, ClientEnd(cfg)) && Encode(cfg.lib, c, nonce, Envelope(m.made, mode)) == Ok(m.bytes);
      CrossDecodeShape(cfg.lib, c, d, nonce, Envelope(m.made, mode), m.bytes);
    }
  }

  predicate Approves(cfg: Config, asked: seq<Asked>) {
    cfg.authRequired && |asked| == 1 && asked[0].outcome.Approved? && cfg.credential == Some(asked[0].credential)
  }

  /** The first message after the keys: the client's credential, or ordinary traffic. */
  predicate FirstUp(cfg: Config, m: Message) {
    m.Frame? && if cfg.credential.Some? then m.made == AuthRequest(cfg.credential.value) else m.made.MessageType() != Auth
  }

  /** The first message back: the verdict, which is positive only if the handler approved, or ordinary traffic. */
  predicate FirstDown(cfg: Config, asked: seq<Asked>, m: Message) {
    m.Frame? && if cfg.authRequired then m.made.AuthResponse? && (m.made.ok ==> Approves(cfg, asked))
                else m.made.MessageType() != Auth
  }

  predicate ChannelsOk(cfg: Config, s: State) {
    var n := KeyMessages(cfg.serverEcdh);
    && s.upRead <= |s.up| && s.downRead <= |s.down|
    && (n == 1 && |s.up| > 0 ==> s.up[0] == Raw(cfg.curve.public(cfg.clientSecret)))
    && (n == 1 && |s.down| > 0 ==> s.down[0] == Raw(cfg.curve.public(cfg.serverSecret)))
    && (|s.up| > n ==> FirstUp(cfg, s.up[n]))
    && (|s.down| > n ==> FirstDown(cfg, s.asked, s.down[n]))
    && (s.asked != [] ==> |s.asked| == 1 && cfg.credential == Some(s.asked[0].credential))
  }

  predicate ClientOk(cfg: Config, s: State) {
    var n := KeyMessages(cfg.serverEcdh);
    match s.client
    case Dialled => s.up == [] && s.downRead == 0
    case AwaitingKey => n == 1 && |s.up| == 1 && s.downRead == 0
    case Agreed(c) => c == ClientEnd(cfg) && |s.up| == n && s.downRead == n
    case AwaitingVerdict(c) => c == ClientEnd(cfg) && cfg.credential.Some? && |s.up| == n + 1 && s.downRead == n
    case Live(c) => c == ClientEnd(cfg) && |s.up| >= n && (cfg.credential.Some? ==> |s.up| > n && Approves(cfg, s.asked))
    case ClientFailed => true
  }

  predicate ServerOk(cfg: Config, s: State) {
    var n := KeyMessages(cfg.serverEcdh);
    match s.server
    case Upgraded => s.down == [] && s.upRead == 0 && s.asked == []
    case ServerAgreed(c) => c == ServerEnd(cfg) && |s.down| == n && s.upRead == n && s.asked == []
    case InTable(c) => c == ServerEnd(cfg) && |s.down| >= n && (cfg.authRequired ==> |s.down| > n)
    case ServerFailed => true
  }

  ghost predicate PairInv(cfg: Config, s: State) {
    && ChannelsOk(cfg, s) && ClientOk(cfg, s) && ServerOk(cfg, s)
    && AllTruthful(cfg, s.up) && AllTruthful(cfg, s.down)
  }

  lemma ClientBeginKeeps(cfg: Config, s: State)
    requires Undisturbed(cfg) && PairInv(cfg, s) && s.client == Dialled
    ensures PairInv(cfg, Next(cfg, s, ClientBegin))
  {
  }

  lemma ReadKeyKeeps(cfg: Config, s: State)
    requires Undisturbed(cfg) && PairInv(cfg, s) && Enabled(cfg, s, ClientReadKey)
    ensures PairInv(cfg, ReadKeyStep(cfg, s))
  {
  }

  /** The client sends one frame; if it is the first after the keys, it is what that must be. */
  lemma SentUp(cfg: Config, s: State, m: Message, s': State)
    requires PairInv(cfg, s) && |s.up| >= KeyMessages(cfg.serverEcdh) && Truthful(cfg, m)
    requires |s.up| == KeyMessages(cfg.serverEcdh) ==> FirstUp(cfg, m)
    requires s' == s.(up := s.up + [m], client := s'.client) && ClientOk(cfg, s')
    ensures PairInv(cfg, s')
  {
  }

  lemma MadeHere(cfg: Config, c: Codec, nonce: Option<Nonce>, mode: EncryptionKind, body: PacketBody, frame: seq<u8>)
    requires SameKeys(c, ClientEnd(cfg)) && Encode(cfg.lib, c, nonce, Envelope(body, mode)) == Ok(frame)
    ensures Truthful(cfg, Frame(frame, body))
  {
  }

  lemma SubmitKeeps(cfg: Config, s: State, nonce: Option<Nonce>)
    requires PairInv(cfg, s) && s.client.Agreed?
    ensures PairInv(cfg, SubmitStep(cfg, s, nonce))
  {
    if cfg.credential.Some? {
      var body := AuthRequest(cfg.credential.value);
      var frame := Encode(cfg.lib, s.client.codec, nonce, Envelope(body, Plain));
      if frame.Ok? {
        MadeHere(cfg, s.client.codec, nonce, Plain, body, frame.value);
        SentUp(cfg, s, Frame(frame.value, body), SubmitStep(cfg, s, nonce));
      }
    }
  }

  lemma ClientPostKeeps(cfg: Config, s: State, body: PacketBody, nonce: Option<Nonce>)
    requires PairInv(cfg, s) && s.client.Live? && body.MessageType() != Auth
    ensures PairInv(cfg, PostUp(cfg, s, body, nonce))
  {
    var mode := s.client.codec.wire;
    var frame := Encode(cfg.lib, s.client.codec, nonce, Envelope(body, mode));
    if frame.Ok? {
      MadeHere(cfg, s.client.codec, nonce, mode, body, frame.value);
      SentUp(cfg, s, Frame(frame.value, body), s.(up := s.up + [Frame(frame.value, body)]));
    }
  }

  /** A positive verdict was sent by a server whose handler approved this client's credential. */
  lemma VerdictKeeps(cfg: Config, s: State)
    requires Undisturbed(cfg) && PairInv(cfg, s) && Enabled(cfg, s, ClientReadVerdict)
    ensures PairInv(cfg, VerdictStep(cfg, s))
  {
    var m := s.down[s.downRead];
    assert m in s.down;
    FrameReads(cfg, ClientEnd(cfg), m);
  }

  lemma KeyKeeps(cfg: Config, s: State)
    requires Undisturbed(cfg) && PairInv(cfg, s) && Enabled(cfg, s, ServerKey)
    ensures PairInv(cfg, KeyStep(cfg, s))
  {
  }

  /** The server sends one frame; if it is the first after the keys, it is what that must be. */
  lemma SentDown(cfg: Config, s: State, m: Message, s': State)
    requires PairInv(cfg, s) && s.server.InTable? && Truthful(cfg, m)
    requires |s.down| == KeyMessages(cfg.serverEcdh) ==> FirstDown(cfg, s.asked, m)
    requires s' == s.(down := s.down + [m])
    ensures PairInv(cfg, s')
  {
  }

  lemma ServerPostKeeps(cfg: Config, s: State, body: PacketBody, nonce: Option<Nonce>)
    requires Undisturbed(cfg) && PairInv(cfg, s) && s.server.InTable? && body.MessageType() != Auth
    ensures PairInv(cfg, PostDown(cfg, s, body, nonce))
  {
    var codec := OutCodec(cfg, s.server.codec);
    var frame := Encode(cfg.lib, codec, nonce, Envelope(body, cfg.serverMode));
    if frame.Ok? {
      EndsAgree(cfg);
      MadeHere(cfg, codec, nonce, cfg.serverMode, body, frame.value);
      SentDown(cfg, s, Frame(frame.value, body), s.(down := s.down + [Frame(frame.value, body)]));
    }
  }

  /** The handler was asked about the client's credential; `reply` is what the server sent back, if anything. */
  lemma AnsweredKeeps(cfg: Config, s: State, asked: Asked, reply: seq<Message>, s': State)
    requires PairInv(cfg, s) && cfg.authRequired && s.server == ServerAgreed(ServerEnd(cfg)) && s.upRead < |s.up|
    requires cfg.credential == Some(asked.credential)
    requires |reply| <= 1 && (|reply| == 1 ==> FirstDown(cfg, [asked], reply[0]) && Truthful(cfg, reply[0]))
    requires s' == s.(upRead := s.upRead + 1, asked := [asked], server := s'.server, down := s.down + reply)
    requires s'.server == ServerFailed || (|reply| == 1 && s'.server == InTable(ServerEnd(cfg)))
    ensures PairInv(cfg, s')
  {
    if reply == [] {
      assert s'.down == s.down;
    }
  }

  /** What the server sends about a credential, if it can be encoded. */
  function Reply(cfg: Config, body: PacketBody, nonce: Option<Nonce>): seq<Message> {
    match Encode(cfg.lib, ServerEnd(cfg), nonce, Envelope(body, ServerEnd(cfg).wire))
    case Ok(frame) => [Frame(frame, body)]
    case Err(_) => []
  }

  lemma ReplyIsVerdict(cfg: Config, asked: Asked, body: PacketBody, nonce: Option<Nonce>)
    requires Undisturbed(cfg) && cfg.authRequired && cfg.credential == Some(asked.credential)
    requires body.AuthResponse? && (body.ok ==> asked.outcome.Approved?)
    ensures var reply := Reply(cfg, body, nonce);
            |reply| <= 1 && (|reply| == 1 ==> FirstDown(cfg, [asked], reply[0]) && Truthful(cfg, reply[0]))
  {
    EndsAgree(cfg);
    var frame := Encode(cfg.lib, ServerEnd(cfg), nonce, Envelope(body, ServerEnd(cfg).wire));
    if frame.Ok? {
      MadeHere(cfg, ServerEnd(cfg), nonce, ServerEnd(cfg).wire, body, frame.value);
    }
  }

  /** The credential the handler is asked about is the client's own. */
  lemma AskedCredential(cfg: Config, m: Message)
    requires Undisturbed(cfg) && FirstUp(cfg, m) && Truthful(cfg, m)
    ensures var r := ReadPacket(cfg.lib, ServerEnd(cfg), m);
            r.Some? && r.value.AuthRequest? ==> cfg.credential == Some(r.value.credential)
  {
    EndsAgree(cfg);
    FrameReads(cfg, ServerEnd(cfg), m);
  }

  /** The state after the handler answered, in terms of the reply alone. */
  lemma AuthShape(cfg: Config, s: State, outcome: Outcome, nonce: Option<Nonce>, asked: Asked)
    requires PairInv(cfg, s) && Enabled(cfg, s, ServerAuth(outcome, nonce))
    requires asked.outcome == outcome
    requires ReadPacket(cfg.lib, ServerEnd(cfg), s.up[s.upRead]) == Some(AuthRequest(asked.credential))
    ensures var s' := AuthStep(cfg, s, outcome, nonce);
            var reply := match outcome
                         case Approved(timeout) => Reply(cfg, AuthResponse(true, timeout, None), nonce)
                         case Denied(error) => Reply(cfg, AuthResponse(false, None, Some(error)), nonce)
                         case Panicked => [];
            && s' == s.(upRead := s.upRead + 1, asked := [asked], server := s'.server, down := s.down + reply)
            && (s'.server == ServerFailed || (|reply| == 1 && s'.server == InTable(ServerEnd(cfg))))
  {
    assert s.asked + [asked] == [asked] && s.down + [] == s.down;
  }

  lemma AuthKeeps(cfg: Config, s: State, outcome: Outcome, nonce: Option<Nonce>)
    requires Undisturbed(cfg) && PairInv(cfg, s) && Enabled(cfg, s, ServerAuth(outcome, nonce))
    ensures PairInv(cfg, AuthStep(cfg, s, outcome, nonce))
  {
    var m, s' := s.up[s.upRead], AuthStep(cfg, s, outcome, nonce);
    assert m in s.up;
    AskedCredential(cfg, m);
    var r := ReadPacket(cfg.lib, ServerEnd(cfg), m);
    if r.Some? && r.value.AuthRequest? {
      var asked := Asked(r.value.credential, outcome);
      AuthShape(cfg, s, outcome, nonce, asked);
      match outcome
      case Approved(timeout) =>
        ReplyIsVerdict(cfg, asked, AuthResponse(true, timeout, None), nonce);
        AnsweredKeeps(cfg, s, asked, Reply(cfg, AuthResponse(true, timeout, None), nonce), s');
      case Denied(error) =>
        ReplyIsVerdict(cfg, asked, AuthResponse(false, None, Some(error)), nonce);
        AnsweredKeeps(cfg, s, asked, Reply(cfg, AuthResponse(false, None, Some(error)), nonce), s');
      case Panicked => AnsweredKeeps(cfg, s, asked, [], s');
    }
  }

  lemma EnterKeeps(cfg: Config, s: State)
    requires PairInv(cfg, s) && s.server.ServerAgreed? && !cfg.authRequired
    ensures PairInv(cfg, s.(server := InTable(s.server.codec)))
  {
  }

  lemma FailKeeps(cfg: Config, s: State, s': State)
    requires PairInv(cfg, s) && (s' == s.(client := ClientFailed) || s' == s.(server := ServerFailed))
    ensures PairInv(cfg, s')
  {
  }

  lemma StepKeeps(cfg: Config, s: State, step: Step)
    requires Undisturbed(cfg) && PairInv(cfg, s) && Enabled(cfg, s, step)
    ensures PairInv(cfg, Next(cfg, s, step))
  {
    match step
    case ClientBegin => ClientBeginKeeps(cfg, s);
    case ClientReadKey => ReadKeyKeeps(cfg, s);
    case ClientSubmit(nonce) => SubmitKeeps(cfg, s, nonce);
    case ClientReadVerdict => VerdictKeeps(cfg, s);
    case ClientPost(body, nonce) => ClientPostKeeps(cfg, s, body, nonce);
    case ServerKey => KeyKeeps(cfg, s);
    case ServerAuth(outcome, nonce) => AuthKeeps(cfg, s, outcome, nonce);
    case ServerPost(body, nonce) => ServerPostKeeps(cfg, s, body, nonce);
    case ServerEnter => EnterKeeps(cfg, s);
    case ClientFail => FailKeeps(cfg, s, s.(client := ClientFailed));
    case ServerFail => FailKeeps(cfg, s, s.(server := ServerFailed));
  }

  lemma {:induction false} RunInv(cfg: Config, steps: seq<Step>)
    requires Undisturbed(cfg)
    ensures PairInv(cfg, Run(cfg, steps))
  {
    if steps == [] {
    } else {
      var s, step := Run(cfg, steps[..|steps| - 1]), steps[|steps| - 1];
      RunInv(cfg, steps[..|steps| - 1]);
      if Enabled(cfg, s, step) {
        StepKeeps(cfg, s, step);
      }
    }
  }

  /** Everything one end encodes and the wire can carry, the other end decodes to the same packet. */
  ghost predicate Understands(l: Library, from: Codec, to: Codec) {
    forall nonce, p, frame :: Encode(l, from, nonce, p) == Ok(frame) ==>
      (Decode(l, to, frame) == Ok(NormalEnvelope(to.wire, p))
       <==> && p.messageType == p.body.MessageType() && ListFits(p.body.Attachments())
            && |frame| <= MAX_WIRE_FRAME && |frame| <= to.maxFrameBytes)
  }

  lemma SameKeysUnderstand(l: Library, from: Codec, to: Codec)
    requires Lawful(l) && SameKeys(from, to)
    ensures Understands(l, from, to)
  {
    forall nonce, p, frame | Encode(l, from, nonce, p) == Ok(frame)
      ensures Decode(l, to, frame) == Ok(NormalEnvelope(to.wire, p))
              <==> && p.messageType == p.body.MessageType() && ListFits(p.body.Attachments())
                   && |frame| <= MAX_WIRE_FRAME && |frame| <= to.maxFrameBytes
    {
      CrossDecodeIff(l, from, to, nonce, p, frame);
    }
  }

  lemma EndsUnderstand(cfg: Config)
    requires Undisturbed(cfg)
    ensures Understands(cfg.lib, ClientEnd(cfg), ServerEnd(cfg))
    ensures Understands(cfg.lib, OutCodec(cfg, ServerEnd(cfg)), ClientEnd(cfg))
  {
    EndsAgree(cfg);
    SameKeysUnderstand(cfg.lib, ClientEnd(cfg), ServerEnd(cfg));
    SameKeysUnderstand(cfg.lib, OutCodec(cfg, ServerEnd(cfg)), ClientEnd(cfg));
  }

  lemma AdmittedMeansApproved(cfg: Config, s: State)
    requires ChannelsOk(cfg, s) && ServerInv(cfg, s) && s.server.InTable? && cfg.authRequired
    ensures Approves(cfg, s.asked)
  {
  }

  lemma EndsHoldTheirCodecs(cfg: Config, steps: seq<Step>)
    requires Undisturbed(cfg)
    ensures var s := Run(cfg, steps);
            && (s.client.Live? ==> s.client.codec == ClientEnd(cfg))
            && (s.server.InTable? ==> s.server.codec == ServerEnd(cfg))
  {
    RunInv(cfg, steps);
  }

  /** For a client and a server in the same key mode: once both are up, each decodes what the other sends. */
  lemma EndsDecodeEachOther(cfg: Config, steps: seq<Step>)
    requires Undisturbed(cfg) && Run(cfg, steps).client.Live? && Run(cfg, steps).server.InTable?
    ensures var client, server := Run(cfg, steps).client.codec, Run(cfg, steps).server.codec;
            Understands(cfg.lib, client, server) && Understands(cfg.lib, OutCodec(cfg, server), client)
  {
    EndsHoldTheirCodecs(cfg, steps);
    EndsUnderstand(cfg);
  }

  /**
   * For a client and a server in the same key mode: a client with a credential is live only if the
   * server has an auth handler and that handler was called once, with this client's credential, and
   * approved it (so it never goes live against a server without one); and a server with an auth
   * handler serves the client only under the same condition.
   */
  lemma LiveMeansApproved(cfg: Config, steps: seq<Step>)
    requires Undisturbed(cfg)
    ensures var s := Run(cfg, steps);
            && (s.client.Live? && cfg.credential.Some? ==> Approves(cfg, s.asked))
            && (s.server.InTable? && cfg.authRequired ==> Approves(cfg, s.asked))
  {
    var s := Run(cfg, steps);
    RunInv(cfg, steps);
    if s.server.InTable? && cfg.authRequired {
      NoEntryWithoutApproval(cfg, steps);
      AdmittedMeansApproved(cfg, s);
    }
  }

  // ----- What decides -----

  /**
   * What both ends derive: a ChaCha20 codec whose key is the hash of the text "wscall-ecdh-v1" followed by
   * the shared secret, and whose limit is 100 MiB.
   */
  lemma SessionCodecIs(k: Curve, secret: Key, peer: Key, tag: seq<u8>)
    requires |tag| == |"wscall-ecdh-v1"| && forall i :: 0 <= i < |tag| ==> tag[i] == "wscall-ecdh-v1"[i] as int
    ensures SessionCodec(k, secret, peer) == Codec(None, Some(k.hash(tag + k.shared(secret, peer))), ChaCha20, 104_857_600)
  {
    assert tag == ECDH_DOMAIN_TAG;
  }

  /**
   * The limits: the server reads up to its own limit in every mode; what it sends is limited by the same in
   * key agreement, and otherwise by the shared codec, as is the client.
   */
  lemma FrameLimits(cfg: Config)
    ensures ServerEnd(cfg).maxFrameBytes == cfg.maxFrameBytes
    ensures OutCodec(cfg, ServerEnd(cfg)).maxFrameBytes
            == if cfg.serverEcdh then cfg.maxFrameBytes else cfg.serverCodec.maxFrameBytes
    ensures ClientEnd(cfg).maxFrameBytes == if cfg.clientEcdh then 104_857_600 else cfg.clientCodec.maxFrameBytes
  {
  }

  /** The server's key step succeeds exactly for a binary message of 32 bytes, and answers with its own key. */
  lemma ServerKeyIff(cfg: Config, s: State)
    requires cfg.serverEcdh && Enabled(cfg, s, ServerKey)
    ensures var m, s' := s.up[s.upRead], Next(cfg, s, ServerKey);
            && (s'.server.ServerAgreed? <==> !m.NotBinary? && |m.bytes| == 32)
            && (!s'.server.ServerAgreed? ==> s'.server == ServerFailed && s'.down == s.down)
            && (s'.server.ServerAgreed? ==> s'.down == s.down + [Raw(cfg.curve.public(cfg.serverSecret))])
  {
  }

  /**
   * The server's decision: a first frame that is no auth request fails the connection and asks nobody.
   * Otherwise the handler is asked about its credential; approval puts the connection in the table if the
   * response can be encoded, and that response is sent; a denial is sent as such and fails the connection.
   */
  lemma AuthDecides(cfg: Config, s: State, outcome: Outcome, nonce: Option<Nonce>)
    requires Enabled(cfg, s, ServerAuth(outcome, nonce))
    ensures var s', codec := Next(cfg, s, ServerAuth(outcome, nonce)), s.server.codec;
            var body := ReadPacket(cfg.lib, codec, s.up[s.upRead]);
            if body.None? || !body.value.AuthRequest? then s'.server == ServerFailed && s'.asked == s.asked && s'.down == s.down
            else
              && s'.asked == s.asked + [Asked(body.value.credential, outcome)]
              && match outcome
                 case Approved(timeout) =>
                   var response := AuthResponse(true, timeout, None);
                   var frame := Encode(cfg.lib, codec, nonce, Envelope(response, codec.wire));
                   if frame.Ok? then s'.server == InTable(codec) && s'.down == s.down + [Frame(frame.value, response)]
                   else s'.server == ServerFailed && s'.down == s.down
                 case Denied(error) =>
                   var response := AuthResponse(false, None, Some(error));
                   var frame := Encode(cfg.lib, codec, nonce, Envelope(response, codec.wire));
                   s'.server == ServerFailed
                   && s'.down == s.down + if frame.Ok? then [Frame(frame.value, response)] else []
                 case Panicked => s'.server == ServerFailed && s'.down == s.down
  {
    assert s.down + [] == s.down;
  }

  /** The client is live exactly after a positive verdict, and fails after anything else. */
  lemma VerdictDecides(cfg: Config, s: State)
    requires Enabled(cfg, s, ClientReadVerdict)
    ensures var s' := Next(cfg, s, ClientReadVerdict);
            var body := ReadPacket(cfg.lib, s.client.codec, s.down[s.downRead]);
            && (s'.client == Live(s.client.codec) <==> body.Some? && body.value.AuthResponse? && body.value.ok)
            && (!s'.client.Live? ==> s'.client == ClientFailed)
  {
  }

  /** An approval that fits the limits of the client's codec is read as one. */
  lemma ApprovalMakesLive(cfg: Config, s: State, timeout: Option<u64>, nonce: Option<Nonce>, frame: seq<u8>)
    requires Undisturbed(cfg) && s.client == AwaitingVerdict(ClientEnd(cfg)) && s.downRead < |s.down|
    requires Encode(cfg.lib, ServerEnd(cfg), nonce, Envelope(AuthResponse(true, timeout, None), ServerEnd(cfg).wire)) == Ok(frame)
    requires s.down[s.downRead] == Frame(frame, AuthResponse(true, timeout, None))
    requires |frame| <= MAX_WIRE_FRAME && |frame| <= ClientEnd(cfg).maxFrameBytes
    ensures Next(cfg, s, ClientReadVerdict).client == Live(ClientEnd(cfg))
  {
    EndsAgree(cfg);
    CrossDecodeIff(cfg.lib, ServerEnd(cfg), ClientEnd(cfg), nonce,
                   Envelope(AuthResponse(true, timeout, None), ServerEnd(cfg).wire), frame);
    VerdictDecides(cfg, s);
  }

  // ----- A handshake that completes -----

  function KeyExchange(cfg: Config): seq<Step> {
    [ClientBegin, ServerKey] + if cfg.clientEcdh then [ClientReadKey] else []
  }

  /** Both ends hold their codecs and have read everything there is. */
  function KeysAgreed(cfg: Config): State {
    if cfg.clientEcdh then
      State(Agreed(ClientEnd(cfg)), ServerAgreed(ServerEnd(cfg)),
            [Raw(cfg.curve.public(cfg.clientSecret))], 1, [Raw(cfg.curve.public(cfg.serverSecret))], 1, [])
    else State(Agreed(ClientEnd(cfg)), ServerAgreed(ServerEnd(cfg)), [], 0, [], 0, [])
  }

  lemma RunThen(cfg: Config, steps: seq<Step>, step: Step)
    requires Enabled(cfg, Run(cfg, steps), step)
    ensures Run(cfg, steps + [step]) == Next(cfg, Run(cfg, steps), step)
  {
    assert (steps + [step])[..|steps|] == steps;
  }

  lemma KeysAreExchanged(cfg: Config)
    requires SameKeyMode(cfg)
    ensures Run(cfg, KeyExchange(cfg)) == KeysAgreed(cfg)
  {
    RunThen(cfg, [], ClientBegin);
    assert [] + [ClientBegin] == [ClientBegin];
    RunThen(cfg, [ClientBegin], ServerKey);
    assert [ClientBegin] + [ServerKey] == [ClientBegin, ServerKey];
    if cfg.clientEcdh {
      RunThen(cfg, [ClientBegin, ServerKey], ClientReadKey);
    } else {
      assert KeyExchange(cfg) == [ClientBegin, ServerKey];
    }
  }

  /** Without a credential and without an auth handler, both ends are up after the keys. */
  lemma OpenHandshakeCompletes(cfg: Config)
    requires SameKeyMode(cfg) && cfg.credential.None? && !cfg.authRequired
    ensures var s := Run(cfg, KeyExchange(cfg) + [ClientSubmit(None)] + [ServerEnter]);
            s.client == Live(ClientEnd(cfg)) && s.server == InTable(ServerEnd(cfg)) && s.asked == []
  {
    KeysAreExchanged(cfg);
    RunThen(cfg, KeyExchange(cfg), ClientSubmit(None));
    RunThen(cfg, KeyExchange(cfg) + [ClientSubmit(None)], ServerEnter);
  }

  /** The frame encodes at one end and is short enough for the other. */
  ghost predicate Passes(cfg: Config, from: Codec, to: Codec, nonce: Option<Nonce>, p: PacketEnvelope, frame: seq<u8>) {
    Encode(cfg.lib, from, nonce, p) == Ok(frame) && |frame| <= MAX_WIRE_FRAME && |frame| <= to.maxFrameBytes
  }

  lemma SubmittedState(cfg: Config, s: State, credential: string, nonce: Option<Nonce>, ask: seq<u8>)
    requires s == KeysAgreed(cfg) && cfg.credential == Some(credential)
    requires Encode(cfg.lib, ClientEnd(cfg), nonce, Envelope(AuthRequest(credential), Plain)) == Ok(ask)
    ensures Next(cfg, s, ClientSubmit(nonce))
            == s.(client := AwaitingVerdict(ClientEnd(cfg)), up := s.up + [Frame(ask, AuthRequest(credential))])
  {
  }

  lemma AskIsRead(cfg: Config, credential: string, nonce: Option<Nonce>, ask: seq<u8>)
    requires Undisturbed(cfg)
    requires Passes(cfg, ClientEnd(cfg), ServerEnd(cfg), nonce, Envelope(AuthRequest(credential), Plain), ask)
    ensures ReadPacket(cfg.lib, ServerEnd(cfg), Frame(ask, AuthRequest(credential))) == Some(AuthRequest(credential))
  {
    EndsAgree(cfg);
    CrossDecodeIff(cfg.lib, ClientEnd(cfg), ServerEnd(cfg), nonce, Envelope(AuthRequest(credential), Plain), ask);
  }

  function Authenticating(cfg: Config, n1: Option<Nonce>, timeout: Option<u64>, n2: Option<Nonce>): seq<Step> {
    KeyExchange(cfg) + [ClientSubmit(n1)] + [ServerAuth(Approved(timeout), n2)] + [ClientReadVerdict]
  }

  /**
   * With a credential that the auth handler approves, both ends are up, and the handler was asked once,
   * about that credential. `ask` and `verdict` are the two frames.
   */
  lemma ApprovedHandshakeCompletes(
    cfg: Config, credential: string, timeout: Option<u64>, n1: Option<Nonce>, ask: seq<u8>, n2: Option<Nonce>, verdict: seq<u8>)
    requires Undisturbed(cfg) && cfg.credential == Some(credential) && cfg.authRequired
    requires Passes(cfg, ClientEnd(cfg), ServerEnd(cfg), n1, Envelope(AuthRequest(credential), Plain), ask)
    requires Passes(cfg, ServerEnd(cfg), ClientEnd(cfg), n2,
                    Envelope(AuthResponse(true, timeout, None), ServerEnd(cfg).wire), verdict)
    ensures var s := Run(cfg, Authenticating(cfg, n1, timeout, n2));
            && s.client == Live(ClientEnd(cfg)) && s.server == InTable(ServerEnd(cfg))
            && s.asked == [Asked(credential, Approved(timeout))]
  {
    var keys, s0 := KeyExchange(cfg), KeysAgreed(cfg);
    KeysAreExchanged(cfg);
    SubmittedState(cfg, s0, credential, n1, ask);
    RunThen(cfg, keys, ClientSubmit(n1));
    var s1 := s0.(client := AwaitingVerdict(ClientEnd(cfg)), up := s0.up + [Frame(ask, AuthRequest(credential))]);
    AskIsRead(cfg, credential, n1, ask);
    ApprovedState(cfg, s1, credential, timeout, n2, ask, verdict);
    RunThen(cfg, keys + [ClientSubmit(n1)], ServerAuth(Approved(timeout), n2));
    var s2 := s1.(upRead := s1.upRead + 1, server := InTable(ServerEnd(cfg)),
                  down := s1.down + [Frame(verdict, AuthResponse(true, timeout, None))],
                  asked := [Asked(credential, Approved(timeout))]);
    ApprovalMakesLive(cfg, s2, timeout, n2, verdict);
    RunThen(cfg, keys + [ClientSubmit(n1)] + [ServerAuth(Approved(timeout), n2)], ClientReadVerdict);
    VerdictLeavesServer(cfg, s2);
  }

  lemma ApprovedState(
    cfg: Config, s: State, credential: string, timeout: Option<u64>, nonce: Option<Nonce>, ask: seq<u8>, verdict: seq<u8>)
    requires s.server == ServerAgreed(ServerEnd(cfg)) && cfg.authRequired && s.upRead < |s.up| && s.asked == []
    requires s.up[s.upRead] == Frame(ask, AuthRequest(credential))
    requires ReadPacket(cfg.lib, ServerEnd(cfg), Frame(ask, AuthRequest(credential))) == Some(AuthRequest(credential))
    requires Encode(cfg.lib, ServerEnd(cfg), nonce, Envelope(AuthResponse(true, timeout, None), ServerEnd(cfg).wire))
             == Ok(verdict)
    ensures Next(cfg, s, ServerAuth(Approved(timeout), nonce))
            == s.(upRead := s.upRead + 1, server := InTable(ServerEnd(cfg)),
                  down := s.down + [Frame(verdict, AuthResponse(true, timeout, None))],
                  asked := [Asked(credential, Approved(timeout))])
  {
    AuthDecides(cfg, s, Approved(timeout), nonce);
    AuthLeavesRest(cfg, s, Approved(timeout), nonce);
  }

  lemma AuthLeavesRest(cfg: Config, s: State, outcome: Outcome, nonce: Option<Nonce>)
    requires Enabled(cfg, s, ServerAuth(outcome, nonce))
    ensures var s' := Next(cfg, s, ServerAuth(outcome, nonce));
            s'.client == s.client && s'.up == s.up && s'.upRead == s.upRead + 1 && s'.downRead == s.downRead
  {
  }

  lemma VerdictLeavesServer(cfg: Config, s: State)
    requires Enabled(cfg, s, ClientReadVerdict)
    ensures Next(cfg, s, ClientReadVerdict).server == s.server && Next(cfg, s, ClientReadVerdict).asked == s.asked
  {
  }

  lemma CarriedOver(
    cfg: Config, from: Codec, to: Codec, nonce: Option<Nonce>, mode: EncryptionKind, body: PacketBody, frame: seq<u8>)
    requires Lawful(cfg.lib) && SameKeys(from, to) && Passes(cfg, from, to, nonce, Envelope(body, mode), frame)
    requires ListFits(body.Attachments())
    ensures ReadPacket(cfg.lib, to, Frame(frame, body)) == Some(Normal(body))
  {
    CrossDecodeIff(cfg.lib, from, to, nonce, Envelope(body, mode), frame);
  }

  /** What a live client posts is read by the server as the packet it posted, if its frame fits both ends. */
  lemma ClientPostIsRead(cfg: Config, s: State, body: PacketBody, nonce: Option<Nonce>, frame: seq<u8>)
    requires Undisturbed(cfg) && Enabled(cfg, s, ClientPost(body, nonce)) && s.client == Live(ClientEnd(cfg))
    requires ListFits(body.Attachments())
    requires Passes(cfg, ClientEnd(cfg), ServerEnd(cfg), nonce, Envelope(body, ClientEnd(cfg).wire), frame)
    ensures var s' := Next(cfg, s, ClientPost(body, nonce));
            && |s'.up| == |s.up| + 1 && s.up <= s'.up
            && ReadPacket(cfg.lib, ServerEnd(cfg), s'.up[|s.up|]) == Some(Normal(body))
  {
    EndsAgree(cfg);
    CarriedOver(cfg, ClientEnd(cfg), ServerEnd(cfg), nonce, ClientEnd(cfg).wire, body, frame);
  }

  /** The same for what the server posts to a connection in its table. */
  lemma ServerPostIsRead(cfg: Config, s: State, body: PacketBody, nonce: Option<Nonce>, frame: seq<u8>)
    requires Undisturbed(cfg) && Enabled(cfg, s, ServerPost(body, nonce)) && s.server == InTable(ServerEnd(cfg))
    requires ListFits(body.Attachments())
    requires Passes(cfg, OutCodec(cfg, ServerEnd(cfg)), ClientEnd(cfg), nonce, Envelope(body, cfg.serverMode), frame)
    ensures var s' := Next(cfg, s, ServerPost(body, nonce));
            && |s'.down| == |s.down| + 1 && s.down <= s'.down
            && ReadPacket(cfg.lib, ClientEnd(cfg), s'.down[|s.down|]) == Some(Normal(body))
  {
    EndsAgree(cfg);
    CarriedOver(cfg, OutCodec(cfg, ServerEnd(cfg)), ClientEnd(cfg), nonce, cfg.serverMode, body, frame);
  }
}
