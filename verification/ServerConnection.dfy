/**
 * A live connection on the server: the reader loop of `serve_connection` with its header
 * fast-reject, rate verdicts and in-flight permits, the handler tasks it spawns, `queue_for`, the
 * writer and teardown, as an interleaved step system.
 */
module ServerConnection {
  import opened Wrappers
  import opened Bytes
  import opened Json
  import opened Packet
  import opened FrameCodec
  import opened CodecLaws
  import opened ServerHandlers
  import R = RateLimiter

  // ----- Header fast-reject -----

  /** The reader's header checks: the error packet it sends instead of decoding, if any. */
  function FastReject(maxFrameBytes: nat, bytes: seq<u8>): Option<PacketBody> {
    if |bytes| < 5 then Some(FrameError("frame_too_short", "frame must be at least 5 bytes"))
    else if FromBe32(bytes) > maxFrameBytes || FromBe32(bytes) != |bytes| - 4 then
      Some(FrameError("frame_too_large", "declared frame_len is invalid"))
    else if |bytes| > maxFrameBytes then Some(FrameError("frame_too_large", "frame size exceeds limit"))
    else None
  }

  /** The reader decodes a message exactly when `decode`'s own header checks pass under the same limit. */
  lemma FastRejectAgreesWithDecode(l: Library, c: Codec, bytes: seq<u8>)
    ensures FastReject(c.maxFrameBytes, bytes).None? <==> CheckHeader(c.maxFrameBytes, bytes).Ok?
    ensures FastReject(c.maxFrameBytes, bytes).None? && Decode(l, c, bytes).Err? ==>
              !Decode(l, c, bytes).error.FrameLengthMismatch? && !Decode(l, c, bytes).error.FrameTooLarge?
  {
  }

  // ----- State -----

  /** The reader task: reading, blocked on a permit for an admitted packet, or out of its loop. */
  datatype Reader = Reading | NeedsPermit(packet: PacketBody) | Stopped

  /** A packet that a handler task has dealt with, and what became of it. */
  datatype Handling = Handling(request: PacketBody, fate: Fate)

  /** A packet handed to `queue_for`, with what the random source would give if it is encoded there. */
  datatype Offer = Offer(packet: PacketBody, nonce: Option<Nonce>)

  /** An entry of the outbound queue: pre-encoded, or left to the writer to encode. */
  datatype Queued = Queued(packet: PacketBody, frame: Option<seq<u8>>)

  /**
   * `active` and `ended` are the running handler tasks, before and after their handler ended; each
   * holds a permit. The last seven fields record what happened; `verdicts` are those on the decoded packets.
   */
  datatype Conn = Conn(
    id: string,
    inTable: bool,
    sinkOpen: bool,
    reader: Reader,
    free: nat,
    active: seq<PacketBody>,
    ended: seq<PacketBody>,
    outbox: seq<Queued>,
    offered: seq<Offer>,
    sent: seq<Queued>,
    decoded: seq<PacketBody>,
    verdicts: seq<R.Verdict>,
    refused: seq<PacketBody>,
    replied: seq<PacketBody>,
    handled: seq<Handling>)

  /**
   * The codec the reader decodes with, the server's handlers and its in-flight cap. With key agreement
   * (`ecdh`) the writer encodes with the session codec; otherwise `queue_for` encodes with the shared
   * one. `outCodec` is that codec and `mode` the mark its packets carry.
   */
  datatype Config = Config(
    lib: Library, codec: Codec, server: Server, maxInFlight: nat,
    ecdh: bool, outCodec: Codec, mode: EncryptionKind)

  function NewConn(cfg: Config, id: string): Conn {
    Conn(id, true, true, Reading, cfg.maxInFlight, [], [], [], [], [], [], [], [], [], [])
  }

  predicate IsData(b: PacketBody) {
    b.ApiRequest? || b.EventEmit?
  }

  // ----- The outbound queue -----

  function OutFrame(cfg: Config, b: PacketBody, nonce: Option<Nonce>): Result<seq<u8>, ProtocolError> {
    Encode(cfg.lib, cfg.outCodec, nonce, Envelope(b, cfg.mode))
  }

  /** `queue_for` can queue this packet: there is nothing to encode yet, or encoding it succeeds. */
  predicate Queueable(cfg: Config, o: Offer) {
    cfg.ecdh || OutFrame(cfg, o.packet, o.nonce).Ok?
  }

  function Entry(cfg: Config, o: Offer): Queued
    requires Queueable(cfg, o)
  {
    Queued(o.packet, if cfg.ecdh then None else Some(OutFrame(cfg, o.packet, o.nonce).value))
  }

  predicate Live(c: Conn) {
    c.inTable && c.sinkOpen
  }

  /** `queue_for`: fails once the connection left the table or its writer is gone, or if encoding fails. */
  function QueueFor(cfg: Config, c: Conn, b: PacketBody, nonce: Option<Nonce>): Conn {
    var o := Offer(b, nonce);
    c.(offered := c.offered + [o],
       outbox := c.outbox + if Live(c) && Queueable(cfg, o) then [Entry(cfg, o)] else [])
  }

  /** The bytes the writer puts on the wire for an entry, if it can encode it. */
  function WireFrame(cfg: Config, q: Queued, nonce: Option<Nonce>): Option<seq<u8>> {
    if q.frame.Some? then q.frame
    else match OutFrame(cfg, q.packet, nonce)
      case Ok(frame) => Some(frame)
      case Err(_) => None
  }

  /** The writer takes the entry at the head of the queue; it ends if it cannot encode it. */
  function Taken(cfg: Config, c: Conn, nonce: Option<Nonce>): Conn
    requires c.outbox != []
  {
    c.(outbox := c.outbox[1..], sent := c.sent + [c.outbox[0]],
       sinkOpen := c.sinkOpen && WireFrame(cfg, c.outbox[0], nonce).Some?)
  }

  // ----- Replies -----

  /** The reply to a rate-limited or banned packet. */
  function Refusal(b: PacketBody): PacketBody
    requires IsData(b)
  {
    if b.ApiRequest? then ServiceBusy(b.requestId) else SilentAck(b.eventId)
  }

  /** What `run_api_request` or `run_event` answers, by what became of the packet. */
  function ReplyTo(s: Server, conn: string, b: PacketBody, f: Fate): PacketBody
    requires IsData(b)
  {
    if b.ApiRequest? then ApiReply(s, conn, b, f) else EventReply(s, conn, b, f)
  }

  function RemoveAt<T>(s: seq<T>, i: nat): seq<T>
    requires i < |s|
  {
    s[..i] + s[i + 1..]
  }

  /** A packet is refused: it counts as decoded, refused and replied to. */
  function Declined(c: Conn, b: PacketBody, verdict: R.Verdict): Conn
    requires IsData(b)
  {
    c.(decoded := c.decoded + [b], verdicts := c.verdicts + [verdict],
       refused := c.refused + [b], replied := c.replied + [Refusal(b)])
  }

  /** A packet is admitted and waits for a permit. */
  function Admitted(c: Conn, b: PacketBody): Conn {
    c.(decoded := c.decoded + [b], verdicts := c.verdicts + [R.Allowed], reader := NeedsPermit(b))
  }

  /** A permit is free: a handler task starts and the reader goes on. */
  function Started(c: Conn): Conn
    requires c.reader.NeedsPermit? && c.free > 0
  {
    c.(reader := Reading, free := c.free - 1, active := c.active + [c.reader.packet])
  }

  /** The handler of a task ended, one way or another. */
  function Handled(cfg: Config, c: Conn, i: nat, fate: Fate): Conn
    requires i < |c.active| && IsData(c.active[i])
  {
    c.(active := RemoveAt(c.active, i),
       ended := c.ended + [ReplyTo(cfg.server, c.id, c.active[i], fate)],
       handled := c.handled + [Handling(c.active[i], fate)])
  }

  /** A handler task hands in its reply and gives its permit back. */
  function Finished(c: Conn, i: nat): Conn
    requires i < |c.ended|
  {
    c.(ended := RemoveAt(c.ended, i), replied := c.replied + [c.ended[i]], free := c.free + 1)
  }

  // ----- Steps -----

  datatype Step =
    | Message(bytes: seq<u8>, verdict: R.Verdict, nonce: Option<Nonce>)
    | Acquire
    | Execute(i: nat, fate: Fate)
    | Submit(i: nat, nonce: Option<Nonce>)
    | Push(event: PacketBody, nonce: Option<Nonce>)
    | Write(nonce: Option<Nonce>)
    | Stop
    | LeaveTable
    | CloseSink

  predicate Enabled(c: Conn, step: Step) {
    match step
    case Message(_, _, _) => c.reader == Reading
    case Acquire => c.reader.NeedsPermit? && c.free > 0
    case Execute(i, fate) =>
      i < |c.active| && IsData(c.active[i]) && (c.active[i].EventEmit? ==> !fate.Filtered?)
    case Submit(i, _) => i < |c.ended|
    case Push(event, _) => event.EventEmit?
    case Write(_) => c.sinkOpen && c.outbox != []
    case Stop => c.reader == Reading
    case LeaveTable => c.reader == Stopped
    case CloseSink => true
  }

  /** A packet that passed fast-reject and decoding. */
  function Accept(cfg: Config, c: Conn, b: PacketBody, verdict: R.Verdict, nonce: Option<Nonce>): Conn {
    if !IsData(b) then c
    else if verdict == R.Allowed then Admitted(c, b)
    else QueueFor(cfg, Declined(c, b, verdict), Refusal(b), nonce)
  }

  function OnMessage(cfg: Config, c: Conn, bytes: seq<u8>, verdict: R.Verdict, nonce: Option<Nonce>): Conn {
    var rejected := FastReject(cfg.codec.maxFrameBytes, bytes);
    if rejected.Some? then QueueFor(cfg, c, rejected.value, nonce)
    else match Decode(cfg.lib, cfg.codec, bytes)
      case Err(_) => c.(reader := Stopped)
      case Ok(env) => Accept(cfg, c, env.body, verdict, nonce)
  }

  function Next(cfg: Config, c: Conn, step: Step): Conn
    requires Enabled(c, step)
  {
    match step
    case Message(bytes, verdict, nonce) => OnMessage(cfg, c, bytes, verdict, nonce)
    case Acquire => Started(c)
    case Execute(i, fate) => Handled(cfg, c, i, fate)
    case Submit(i, nonce) => QueueFor(cfg, Finished(c, i), c.ended[i], nonce)
    case Push(event, nonce) => QueueFor(cfg, c, event, nonce)
    case Write(nonce) => Taken(cfg, c, nonce)
    case Stop => c.(reader := Stopped)
    case LeaveTable => c.(inTable := false)
    case CloseSink => c.(sinkOpen := false)
  }

  // ----- Keys: which request a packet belongs to -----

  datatype Key = RequestKey(id: u64) | EventKey(id: u64) | NoKey

  function KeyOf(b: PacketBody): Key {
    match b
    case ApiRequest(id, _, _, _, _) => RequestKey(id)
    case ApiResponse(id, _, _, _, _, _) => RequestKey(id)
    case EventEmit(id, _, _, _, _, _) => EventKey(id)
    case EventAck(id, _, _, _) => EventKey(id)
    case _ => NoKey
  }

  function Keys(ps: seq<PacketBody>): multiset<Key> {
    if ps == [] then multiset{} else Keys(ps[..|ps| - 1]) + multiset{KeyOf(ps[|ps| - 1])}
  }

  function HandledKeys(hs: seq<Handling>): multiset<Key> {
    if hs == [] then multiset{} else HandledKeys(hs[..|hs| - 1]) + multiset{KeyOf(hs[|hs| - 1].request)}
  }

  /** The keys of the packets that a route or event handler ran for. */
  function ExecKeys(hs: seq<Handling>): multiset<Key> {
    if hs == [] then multiset{}
    else
      var last := hs[|hs| - 1];
      ExecKeys(hs[..|hs| - 1]) + if last.fate.Executed? then multiset{KeyOf(last.request)} else multiset{}
  }

  function WaitingKeys(r: Reader): multiset<Key> {
    if r.NeedsPermit? then multiset{KeyOf(r.packet)} else multiset{}
  }

  lemma KeysAppend(ps: seq<PacketBody>, b: PacketBody)
    ensures Keys(ps + [b]) == Keys(ps) + multiset{KeyOf(b)}
  {
    assert (ps + [b])[..|ps|] == ps;
  }

  lemma HandledKeysAppend(hs: seq<Handling>, h: Handling)
    ensures HandledKeys(hs + [h]) == HandledKeys(hs) + multiset{KeyOf(h.request)}
  {
    assert (hs + [h])[..|hs|] == hs;
  }

  /** Handler runs are part of what was handled. */
  lemma {:induction false} RunsAreHandled(hs: seq<Handling>, key: Key)
    ensures ExecKeys(hs)[key] <= HandledKeys(hs)[key]
  {
    if hs == [] {
    } else {
      RunsAreHandled(hs[..|hs| - 1], key);
    }
  }

  lemma {:induction false} KeysRemoveAt(ps: seq<PacketBody>, i: nat)
    requires i < |ps|
    ensures Keys(ps) == Keys(RemoveAt(ps, i)) + multiset{KeyOf(ps[i])}
  {
    var init, last := ps[..|ps| - 1], ps[|ps| - 1];
    if i == |ps| - 1 {
      assert RemoveAt(ps, i) == init;
    } else {
      KeysRemoveAt(init, i);
      assert RemoveAt(ps, i) == RemoveAt(init, i) + [last];
      KeysAppend(RemoveAt(init, i), last);
      Swap(Keys(RemoveAt(init, i)), KeyOf(ps[i]), KeyOf(last));
    }
  }

  lemma Swap(a: multiset<Key>, j: Key, k: Key)
    ensures (a + multiset{j}) + multiset{k} == (a + multiset{k}) + multiset{j}
  {
  }

  // ----- Verdicts -----

  /** The decoded packets with verdict Allowed, and those without, in order. */
  function Sorted(decoded: seq<PacketBody>, verdicts: seq<R.Verdict>, allowed: bool): seq<PacketBody>
    requires |decoded| == |verdicts|
  {
    if decoded == [] then []
    else
      var n := |decoded| - 1;
      Sorted(decoded[..n], verdicts[..n], allowed)
      + if (verdicts[n] == R.Allowed) == allowed then [decoded[n]] else []
  }

  lemma SortedAppend(decoded: seq<PacketBody>, verdicts: seq<R.Verdict>, b: PacketBody, v: R.Verdict, allowed: bool)
    requires |decoded| == |verdicts|
    ensures Sorted(decoded + [b], verdicts + [v], allowed)
            == Sorted(decoded, verdicts, allowed) + if (v == R.Allowed) == allowed then [b] else []
  {
    assert (decoded + [b])[..|decoded|] == decoded && (verdicts + [v])[..|verdicts|] == verdicts;
  }

  /** Every decoded packet was allowed or not. */
  lemma {:induction false} SortedKeys(decoded: seq<PacketBody>, verdicts: seq<R.Verdict>)
    requires |decoded| == |verdicts|
    ensures Accounted(decoded, verdicts)
  {
    if decoded == [] {
    } else {
      var n := |decoded| - 1;
      SortedKeys(decoded[..n], verdicts[..n]);
      assert decoded == decoded[..n] + [decoded[n]] && verdicts == verdicts[..n] + [verdicts[n]];
      SortedKeysStep(decoded[..n], verdicts[..n], decoded[n], verdicts[n]);
    }
  }

  ghost predicate Accounted(decoded: seq<PacketBody>, verdicts: seq<R.Verdict>)
    requires |decoded| == |verdicts|
  {
    Keys(decoded) == Keys(Sorted(decoded, verdicts, true)) + Keys(Sorted(decoded, verdicts, false))
  }

  lemma SortedKeysStep(decoded: seq<PacketBody>, verdicts: seq<R.Verdict>, b: PacketBody, v: R.Verdict)
    requires |decoded| == |verdicts| && Accounted(decoded, verdicts)
    ensures Accounted(decoded + [b], verdicts + [v])
  {
    var yes, no := Sorted(decoded, verdicts, true), Sorted(decoded, verdicts, false);
    KeysAppend(decoded, b);
    SortedAppend(decoded, verdicts, b, v, true);
    SortedAppend(decoded, verdicts, b, v, false);
    assert yes + [] == yes && no + [] == no;
    OneMoreKey(Keys(decoded), yes, no, b);
  }

  lemma OneMoreKey(d: multiset<Key>, yes: seq<PacketBody>, no: seq<PacketBody>, b: PacketBody)
    requires d == Keys(yes) + Keys(no)
    ensures d + multiset{KeyOf(b)} == Keys(yes + [b]) + Keys(no)
    ensures d + multiset{KeyOf(b)} == Keys(yes) + Keys(no + [b])
  {
    KeysAppend(yes, b);
    KeysAppend(no, b);
    AddEither(d, Keys(yes), Keys(no), KeyOf(b));
  }

  lemma AddEither(d: multiset<Key>, x: multiset<Key>, y: multiset<Key>, k: Key)
    requires d == x + y
    ensures d + multiset{k} == (x + multiset{k}) + y && d + multiset{k} == x + (y + multiset{k})
  {
  }

  // ----- Invariant -----

  ghost predicate WasRefused(refused: seq<PacketBody>, key: Key) {
    exists p :: p in refused && KeyOf(p) == key
  }

  /** The reply was made for a packet by what a handler task made of it, or by its refusal. */
  ghost predicate MadeFor(cfg: Config, id: string, handled: seq<Handling>, refused: seq<PacketBody>, b: PacketBody) {
    || (exists h :: h in handled && IsData(h.request) && (h.request.EventEmit? ==> !h.fate.Filtered?)
                    && b == ReplyTo(cfg.server, id, h.request, h.fate))
    || (exists p :: p in refused && IsData(p) && b == Refusal(p))
  }

  ghost predicate AllMade(
    cfg: Config, id: string, handled: seq<Handling>, refused: seq<PacketBody>, ps: seq<PacketBody>)
  {
    forall b :: b in ps ==> MadeFor(cfg, id, handled, refused, b)
  }

  /** A reply to a frame that was not decoded: it belongs to no request. */
  predicate IsFrameError(b: PacketBody) {
    b.ApiResponse? && b.requestId == 0 && !b.ok && b.status == 413
  }

  /** What is queued was handed in as a reply, is a pushed event, or answers a frame that was not decoded. */
  ghost predicate QueuedFrom(replied: seq<PacketBody>, b: PacketBody) {
    b in replied || b.EventEmit? || IsFrameError(b)
  }

  predicate IsReply(b: PacketBody) {
    b.ApiResponse? || b.EventAck?
  }

  /** Permits: free ones plus running handler tasks make up the cap. */
  predicate PermitsInv(cfg: Config, c: Conn) {
    c.free + |c.active| + |c.ended| == cfg.maxInFlight
  }

  /** Every decoded packet has been replied to, or is waiting for a permit, or is running: exactly once. */
  ghost predicate RepliesInv(c: Conn) {
    Keys(c.decoded) == Keys(c.replied) + Keys(c.active) + Keys(c.ended) + WaitingKeys(c.reader)
  }

  /** Every decoded packet was refused, or was admitted and has been handled, waits, or is running: exactly once. */
  ghost predicate HandledInv(c: Conn) {
    HandledKeys(c.handled) + Keys(c.active) + WaitingKeys(c.reader) + Keys(c.refused) == Keys(c.decoded)
  }

  /** Refused are exactly the packets whose verdict was not Allowed. */
  predicate VerdictsInv(c: Conn) {
    |c.verdicts| == |c.decoded| && c.refused == Sorted(c.decoded, c.verdicts, false)
  }

  /** What waits or runs, was refused, or had a handler run for it, is a data packet decoded here. */
  ghost predicate OriginInv(c: Conn) {
    && (forall b :: b in c.decoded ==> IsData(b))
    && (c.reader.NeedsPermit? ==> c.reader.packet in c.decoded)
    && (forall b :: b in c.active ==> b in c.decoded)
    && (forall b :: b in c.refused ==> b in c.decoded)
    && (forall h :: h in c.handled ==> h.request in c.decoded)
  }

  ghost predicate AnswersInv(cfg: Config, c: Conn) {
    && AllMade(cfg, c.id, c.handled, c.refused, c.ended)
    && AllMade(cfg, c.id, c.handled, c.refused, c.replied)
    && (forall b :: b in c.ended || b in c.replied ==> IsReply(b))
  }

  /** An entry is encoded exactly when the keys are shared, and then from its own packet. */
  ghost predicate EntryOk(cfg: Config, q: Queued) {
    if cfg.ecdh then q.frame.None?
    else q.frame.Some? && exists nonce :: OutFrame(cfg, q.packet, nonce) == Ok(q.frame.value)
  }

  ghost predicate QueueInv(cfg: Config, c: Conn) {
    forall q :: q in c.outbox ==> EntryOk(cfg, q) && QueuedFrom(c.replied, q.packet)
  }

  ghost predicate Inv(cfg: Config, c: Conn) {
    && PermitsInv(cfg, c) && RepliesInv(c) && HandledInv(c) && VerdictsInv(c)
    && OriginInv(c) && AnswersInv(cfg, c) && QueueInv(cfg, c)
  }

  lemma NewConnInv(cfg: Config, id: string)
    ensures Inv(cfg, NewConn(cfg, id))
  {
  }

  // ----- Each step keeps the invariant -----

  lemma MadeAppend(
    cfg: Config, id: string, handled: seq<Handling>, refused: seq<PacketBody>, ps: seq<PacketBody>, b: PacketBody)
    requires AllMade(cfg, id, handled, refused, ps) && MadeFor(cfg, id, handled, refused, b)
    ensures AllMade(cfg, id, handled, refused, ps + [b])
  {
  }

  /** Where a reply came from is not changed by what happens later. */
  lemma MadeStays(
    cfg: Config, id: string, handled: seq<Handling>, handled': seq<Handling>,
    refused: seq<PacketBody>, refused': seq<PacketBody>, b: PacketBody)
    requires handled <= handled' && refused <= refused' && MadeFor(cfg, id, handled, refused, b)
    ensures MadeFor(cfg, id, handled', refused', b)
  {
    forall h | h in handled
      ensures h in handled'
    {
    }
    forall p | p in refused
      ensures p in refused'
    {
    }
  }

  lemma AllStay(
    cfg: Config, id: string, handled: seq<Handling>, handled': seq<Handling>,
    refused: seq<PacketBody>, refused': seq<PacketBody>, ps: seq<PacketBody>)
    requires handled <= handled' && refused <= refused' && AllMade(cfg, id, handled, refused, ps)
    ensures AllMade(cfg, id, handled', refused', ps)
  {
    forall b | b in ps
      ensures MadeFor(cfg, id, handled', refused', b)
    {
      MadeStays(cfg, id, handled, handled', refused, refused', b);
    }
  }

  /** What `queue_for` adds to the queue, if anything, is the packet, encoded as the key mode says. */
  lemma QueueAdds(cfg: Config, c: Conn, b: PacketBody, nonce: Option<Nonce>)
    ensures var c' := QueueFor(cfg, c, b, nonce);
            && c' == c.(offered := c'.offered, outbox := c'.outbox)
            && (forall q :: q in c'.outbox && q !in c.outbox ==> q.packet == b && EntryOk(cfg, q))
  {
  }

  /** The invariant reads the queue through its entries alone. */
  lemma QueueIsFramed(cfg: Config, c: Conn, outbox: seq<Queued>, offered: seq<Offer>)
    requires Inv(cfg, c) && forall q :: q in outbox ==> EntryOk(cfg, q) && QueuedFrom(c.replied, q.packet)
    ensures Inv(cfg, c.(outbox := outbox, offered := offered))
  {
  }

  /** A reply that was handed in, a pushed event or a frame error can go to `queue_for` at any time. */
  lemma QueueKeeps(cfg: Config, c: Conn, b: PacketBody, nonce: Option<Nonce>)
    requires Inv(cfg, c) && QueuedFrom(c.replied, b)
    ensures Inv(cfg, QueueFor(cfg, c, b, nonce))
  {
    var c' := QueueFor(cfg, c, b, nonce);
    QueueAdds(cfg, c, b, nonce);
    forall q | q in c'.outbox
      ensures EntryOk(cfg, q) && QueuedFrom(c.replied, q.packet)
    {
      if q in c.outbox {
        assert EntryOk(cfg, q);
      }
    }
    QueueIsFramed(cfg, c, c'.outbox, c'.offered);
  }

  /** More replies never hurt the queue. */
  lemma QueueStays(cfg: Config, c: Conn, replied: seq<PacketBody>)
    requires QueueInv(cfg, c) && c.replied <= replied
    ensures forall q :: q in c.outbox ==> EntryOk(cfg, q) && QueuedFrom(replied, q.packet)
  {
    forall q | q in c.outbox
      ensures EntryOk(cfg, q) && QueuedFrom(replied, q.packet)
    {
      assert QueuedFrom(c.replied, q.packet);
    }
  }

  lemma AddBoth(a: multiset<Key>, r: multiset<Key>, d: multiset<Key>, k: Key)
    requires a + multiset{} + r == d
    ensures a + multiset{k} + r == d + multiset{k}
  {
  }

  lemma AdmitKeepsCounts(c: Conn, b: PacketBody)
    requires RepliesInv(c) && HandledInv(c) && VerdictsInv(c) && c.reader == Reading
    ensures RepliesInv(Admitted(c, b)) && HandledInv(Admitted(c, b)) && VerdictsInv(Admitted(c, b))
  {
    KeysAppend(c.decoded, b);
    AddBoth(HandledKeys(c.handled) + Keys(c.active), Keys(c.refused), Keys(c.decoded), KeyOf(b));
    SortedAppend(c.decoded, c.verdicts, b, R.Allowed, false);
    assert c.refused + [] == c.refused;
  }

  lemma AdmitKeeps(cfg: Config, c: Conn, b: PacketBody)
    requires Inv(cfg, c) && c.reader == Reading && IsData(b)
    ensures Inv(cfg, Admitted(c, b))
  {
    AdmitKeepsCounts(c, b);
    assert OriginInv(Admitted(c, b)) && PermitsInv(cfg, Admitted(c, b));
  }

  lemma GrowFirst(d: multiset<Key>, r: multiset<Key>, a: multiset<Key>, e: multiset<Key>, k: Key)
    requires d == r + a + e + multiset{}
    ensures d + multiset{k} == (r + multiset{k}) + a + e + multiset{}
  {
  }

  lemma GrowLast(a: multiset<Key>, r: multiset<Key>, d: multiset<Key>, k: Key)
    requires a + multiset{} + r == d
    ensures a + multiset{} + (r + multiset{k}) == d + multiset{k}
  {
  }

  lemma DeclineKeepsCounts(c: Conn, b: PacketBody, verdict: R.Verdict)
    requires RepliesInv(c) && HandledInv(c) && VerdictsInv(c) && c.reader == Reading && IsData(b)
    requires verdict != R.Allowed
    ensures var c' := Declined(c, b, verdict); RepliesInv(c') && HandledInv(c') && VerdictsInv(c')
  {
    KeysAppend(c.decoded, b);
    KeysAppend(c.refused, b);
    KeysAppend(c.replied, Refusal(b));
    assert KeyOf(Refusal(b)) == KeyOf(b);
    GrowFirst(Keys(c.decoded), Keys(c.replied), Keys(c.active), Keys(c.ended), KeyOf(b));
    GrowLast(HandledKeys(c.handled) + Keys(c.active), Keys(c.refused), Keys(c.decoded), KeyOf(b));
    SortedAppend(c.decoded, c.verdicts, b, verdict, false);
  }

  lemma RefusalMade(cfg: Config, id: string, handled: seq<Handling>, refused: seq<PacketBody>, b: PacketBody)
    requires IsData(b)
    ensures MadeFor(cfg, id, handled, refused + [b], Refusal(b))
  {
    assert b in refused + [b];
  }

  lemma DeclineKeepsAnswers(cfg: Config, c: Conn, b: PacketBody, verdict: R.Verdict)
    requires AnswersInv(cfg, c) && IsData(b)
    ensures AnswersInv(cfg, Declined(c, b, verdict))
  {
    var c' := Declined(c, b, verdict);
    RefusalMade(cfg, c.id, c.handled, c.refused, b);
    AllStay(cfg, c.id, c.handled, c.handled, c.refused, c'.refused, c.ended);
    AllStay(cfg, c.id, c.handled, c.handled, c.refused, c'.refused, c.replied);
    MadeAppend(cfg, c.id, c.handled, c'.refused, c.replied, Refusal(b));
  }

  lemma DeclineKeeps(cfg: Config, c: Conn, b: PacketBody, verdict: R.Verdict)
    requires Inv(cfg, c) && c.reader == Reading && IsData(b) && verdict != R.Allowed
    ensures Inv(cfg, Declined(c, b, verdict))
  {
    var c' := Declined(c, b, verdict);
    DeclineKeepsCounts(c, b, verdict);
    DeclineKeepsAnswers(cfg, c, b, verdict);
    QueueStays(cfg, c, c'.replied);
    assert OriginInv(c');
  }

  lemma AcceptKeeps(cfg: Config, c: Conn, b: PacketBody, verdict: R.Verdict, nonce: Option<Nonce>)
    requires Inv(cfg, c) && c.reader == Reading
    ensures Inv(cfg, Accept(cfg, c, b, verdict, nonce))
  {
    if IsData(b) {
      if verdict == R.Allowed {
        AdmitKeeps(cfg, c, b);
      } else {
        DeclineKeeps(cfg, c, b, verdict);
        QueueKeeps(cfg, Declined(c, b, verdict), Refusal(b), nonce);
      }
    }
  }

  lemma MoveToActive(d: multiset<Key>, r: multiset<Key>, a: multiset<Key>, e: multiset<Key>, k: Key)
    requires d == r + a + e + multiset{k}
    ensures d == r + (a + multiset{k}) + e + multiset{}
  {
  }

  lemma WaitingToActive(x: multiset<Key>, a: multiset<Key>, r: multiset<Key>, d: multiset<Key>, k: Key)
    requires x + a + multiset{k} + r == d
    ensures x + (a + multiset{k}) + multiset{} + r == d
  {
  }

  lemma StartKeepsCounts(c: Conn)
    requires RepliesInv(c) && HandledInv(c) && c.reader.NeedsPermit? && c.free > 0
    ensures RepliesInv(Started(c)) && HandledInv(Started(c))
  {
    var k := KeyOf(c.reader.packet);
    KeysAppend(c.active, c.reader.packet);
    MoveToActive(Keys(c.decoded), Keys(c.replied), Keys(c.active), Keys(c.ended), k);
    WaitingToActive(HandledKeys(c.handled), Keys(c.active), Keys(c.refused), Keys(c.decoded), k);
  }

  lemma StartKeeps(cfg: Config, c: Conn)
    requires Inv(cfg, c) && c.reader.NeedsPermit? && c.free > 0
    ensures Inv(cfg, Started(c))
  {
    StartKeepsCounts(c);
    assert OriginInv(Started(c)) && PermitsInv(cfg, Started(c));
  }

  /** A reply carries its packet's key, and a positive one the value a handler returned. */
  lemma ReplyMeaning(s: Server, conn: string, b: PacketBody, f: Fate)
    requires IsData(b) && (b.EventEmit? ==> !f.Filtered?)
    ensures var reply := ReplyTo(s, conn, b, f);
            && KeyOf(reply) == KeyOf(b) && IsReply(reply)
            && (reply.ApiResponse? <==> b.ApiRequest?)
            && (reply.ok <==> f.Executed? && f.result.Returned?)
            && (reply.ApiResponse? && reply.ok ==> reply.data == f.result.value)
            && (reply.EventAck? && reply.ok ==> reply.receipt == f.result.value)
            && (!reply.ok ==> reply.error.Some?)
  {
  }

  lemma HandlingMakes(
    cfg: Config, id: string, handled: seq<Handling>, refused: seq<PacketBody>, b: PacketBody, f: Fate)
    requires IsData(b) && (b.EventEmit? ==> !f.Filtered?)
    ensures MadeFor(cfg, id, handled + [Handling(b, f)], refused, ReplyTo(cfg.server, id, b, f))
  {
    assert Handling(b, f) in handled + [Handling(b, f)];
  }

  lemma MoveToEnded(d: multiset<Key>, r: multiset<Key>, a: multiset<Key>, e: multiset<Key>, w: multiset<Key>, k: Key)
    requires d == r + (a + multiset{k}) + e + w
    ensures d == r + a + (e + multiset{k}) + w
  {
  }

  lemma MoveToHandled(x: multiset<Key>, a: multiset<Key>, w: multiset<Key>, r: multiset<Key>, d: multiset<Key>, k: Key)
    requires x + (a + multiset{k}) + w + r == d
    ensures (x + multiset{k}) + a + w + r == d
  {
  }

  lemma HandleKeepsAnswers(cfg: Config, c: Conn, reply: PacketBody, h: Handling, c': Conn)
    requires AnswersInv(cfg, c) && IsReply(reply) && MadeFor(cfg, c.id, c.handled + [h], c.refused, reply)
    requires c'.ended == c.ended + [reply] && c'.handled == c.handled + [h] && c'.refused == c.refused
    requires c'.replied == c.replied && c'.id == c.id
    ensures AnswersInv(cfg, c')
  {
    AllStay(cfg, c.id, c.handled, c'.handled, c.refused, c.refused, c.ended);
    AllStay(cfg, c.id, c.handled, c'.handled, c.refused, c.refused, c.replied);
    MadeAppend(cfg, c.id, c'.handled, c.refused, c.ended, reply);
  }

  lemma HandleKeepsOrigin(c: Conn, i: nat, fate: Fate, c': Conn)
    requires OriginInv(c) && i < |c.active|
    requires c'.active == RemoveAt(c.active, i) && c'.handled == c.handled + [Handling(c.active[i], fate)]
    requires c'.reader == c.reader && c'.decoded == c.decoded && c'.refused == c.refused
    ensures OriginInv(c')
  {
    assert c.active[i] in c.active;
    assert forall b :: b in c'.active ==> b in c.active;
    assert forall h :: h in c'.handled ==> h in c.handled || h.request == c.active[i];
  }

  lemma HandleKeepsCounts(c: Conn, i: nat, fate: Fate, reply: PacketBody, c': Conn)
    requires RepliesInv(c) && HandledInv(c) && i < |c.active| && KeyOf(reply) == KeyOf(c.active[i])
    requires c' == c.(active := RemoveAt(c.active, i), ended := c.ended + [reply],
                      handled := c.handled + [Handling(c.active[i], fate)])
    ensures RepliesInv(c') && HandledInv(c')
  {
    KeysRemoveAt(c.active, i);
    KeysAppend(c.ended, reply);
    HandledKeysAppend(c.handled, Handling(c.active[i], fate));
    MoveToEnded(Keys(c.decoded), Keys(c.replied), Keys(c'.active), Keys(c.ended), WaitingKeys(c.reader),
                KeyOf(reply));
    MoveToHandled(HandledKeys(c.handled), Keys(c'.active), WaitingKeys(c.reader), Keys(c.refused),
                  Keys(c.decoded), KeyOf(reply));
  }

  lemma HandleKeeps(cfg: Config, c: Conn, i: nat, fate: Fate)
    requires Inv(cfg, c) && Enabled(c, Execute(i, fate))
    ensures Inv(cfg, Handled(cfg, c, i, fate))
  {
    var request, c' := c.active[i], Handled(cfg, c, i, fate);
    var reply := ReplyTo(cfg.server, c.id, request, fate);
    ReplyMeaning(cfg.server, c.id, request, fate);
    HandleKeepsCounts(c, i, fate, reply, c');
    HandlingMakes(cfg, c.id, c.handled, c.refused, request, fate);
    HandleKeepsAnswers(cfg, c, reply, Handling(request, fate), c');
    HandleKeepsOrigin(c, i, fate, c');
  }

  lemma MoveToReplied(d: multiset<Key>, r: multiset<Key>, a: multiset<Key>, e: multiset<Key>, w: multiset<Key>, k: Key)
    requires d == r + a + (e + multiset{k}) + w
    ensures d == (r + multiset{k}) + a + e + w
  {
  }

  lemma FinishKeepsReplies(c: Conn, i: nat)
    requires RepliesInv(c) && i < |c.ended|
    ensures RepliesInv(Finished(c, i))
  {
    KeysRemoveAt(c.ended, i);
    KeysAppend(c.replied, c.ended[i]);
    MoveToReplied(Keys(c.decoded), Keys(c.replied), Keys(c.active), Keys(RemoveAt(c.ended, i)),
                  WaitingKeys(c.reader), KeyOf(c.ended[i]));
  }

  lemma FinishKeepsAnswers(cfg: Config, c: Conn, i: nat)
    requires AnswersInv(cfg, c) && i < |c.ended|
    ensures AnswersInv(cfg, Finished(c, i))
  {
    assert c.ended[i] in c.ended;
    assert forall b :: b in RemoveAt(c.ended, i) ==> b in c.ended;
    MadeAppend(cfg, c.id, c.handled, c.refused, c.replied, c.ended[i]);
  }

  lemma FinishKeeps(cfg: Config, c: Conn, i: nat)
    requires Inv(cfg, c) && i < |c.ended|
    ensures Inv(cfg, Finished(c, i)) && c.ended[i] in Finished(c, i).replied
  {
    FinishKeepsReplies(c, i);
    FinishKeepsAnswers(cfg, c, i);
    QueueStays(cfg, c, Finished(c, i).replied);
  }

  lemma SubmitKeeps(cfg: Config, c: Conn, i: nat, nonce: Option<Nonce>)
    requires Inv(cfg, c) && i < |c.ended|
    ensures Inv(cfg, QueueFor(cfg, Finished(c, i), c.ended[i], nonce))
  {
    FinishKeeps(cfg, c, i);
    QueueKeeps(cfg, Finished(c, i), c.ended[i], nonce);
  }

  /** The reader's answers to frames it does not decode have id 0 and status 413. */
  lemma RejectionIsFrameError(max: nat, bytes: seq<u8>)
    ensures var r := FastReject(max, bytes);
            r.Some? ==> IsFrameError(r.value) && r.value.requestId == 0 && !r.value.ok && r.value.status == 413
  {
  }

  lemma WriteKeeps(cfg: Config, c: Conn, nonce: Option<Nonce>)
    requires Inv(cfg, c) && c.outbox != []
    ensures Inv(cfg, Taken(cfg, c, nonce))
  {
    var rest := c.outbox[1..];
    assert forall q :: q in rest ==> q in c.outbox;
    QueueIsFramed(cfg, c, rest, c.offered);
    var c' := Taken(cfg, c, nonce);
    TeardownKeeps(cfg, c.(outbox := rest), c.reader, c.inTable, c'.sinkOpen, c'.sent);
  }

  /** Ending the reader, the table entry or the writer leaves the accounting alone. */
  lemma TeardownKeeps(cfg: Config, c: Conn, r: Reader, inTable: bool, sinkOpen: bool, sent: seq<Queued>)
    requires Inv(cfg, c) && (r == c.reader || (c.reader == Reading && r == Stopped))
    ensures Inv(cfg, c.(reader := r, inTable := inTable, sinkOpen := sinkOpen, sent := sent))
  {
    var c' := c.(reader := r, inTable := inTable, sinkOpen := sinkOpen, sent := sent);
    assert WaitingKeys(r) == WaitingKeys(c.reader);
    assert RepliesInv(c') && HandledInv(c');
  }

  lemma MessageKeeps(cfg: Config, c: Conn, bytes: seq<u8>, verdict: R.Verdict, nonce: Option<Nonce>)
    requires Inv(cfg, c) && c.reader == Reading
    ensures Inv(cfg, OnMessage(cfg, c, bytes, verdict, nonce))
  {
    var rejected, decoded := FastReject(cfg.codec.maxFrameBytes, bytes), Decode(cfg.lib, cfg.codec, bytes);
    if rejected.Some? {
      RejectionIsFrameError(cfg.codec.maxFrameBytes, bytes);
      QueueKeeps(cfg, c, rejected.value, nonce);
    } else if decoded.Ok? {
      AcceptKeeps(cfg, c, decoded.value.body, verdict, nonce);
    } else {
      TeardownKeeps(cfg, c, Stopped, c.inTable, c.sinkOpen, c.sent);
    }
  }

  lemma StepKeeps(cfg: Config, c: Conn, step: Step)
    requires Inv(cfg, c) && Enabled(c, step)
    ensures Inv(cfg, Next(cfg, c, step))
  {
    match step
    case Message(bytes, verdict, nonce) => MessageKeeps(cfg, c, bytes, verdict, nonce);
    case Acquire => StartKeeps(cfg, c);
    case Execute(i, fate) => HandleKeeps(cfg, c, i, fate);
    case Submit(i, nonce) => SubmitKeeps(cfg, c, i, nonce);
    case Push(event, nonce) => QueueKeeps(cfg, c, event, nonce);
    case Write(nonce) => WriteKeeps(cfg, c, nonce);
    case Stop => TeardownKeeps(cfg, c, Stopped, c.inTable, c.sinkOpen, c.sent);
    case LeaveTable => TeardownKeeps(cfg, c, c.reader, false, c.sinkOpen, c.sent);
    case CloseSink => TeardownKeeps(cfg, c, c.reader, c.inTable, false, c.sent);
  }

  // ----- What becomes of a packet handed to `queue_for` -----

  /** The packets of the offers that can be queued, in order. */
  function Passing(cfg: Config, offers: seq<Offer>): seq<PacketBody> {
    if offers == [] then []
    else
      var last := offers[|offers| - 1];
      Passing(cfg, offers[..|offers| - 1]) + if Queueable(cfg, last) then [last.packet] else []
  }

  function QueuedPackets(qs: seq<Queued>): seq<PacketBody> {
    if qs == [] then [] else QueuedPackets(qs[..|qs| - 1]) + [qs[|qs| - 1].packet]
  }

  function OfferedPackets(offers: seq<Offer>): multiset<PacketBody> {
    if offers == [] then multiset{} else OfferedPackets(offers[..|offers| - 1]) + multiset{offers[|offers| - 1].packet}
  }

  /**
   * Every reply was handed to `queue_for`. While the connection is in the table and its writer runs, what
   * the writer took and what is still queued are exactly the offers that could be queued, in order.
   */
  ghost predicate Delivered(cfg: Config, c: Conn) {
    && multiset(c.replied) <= OfferedPackets(c.offered)
    && (Live(c) ==> QueuedPackets(c.sent + c.outbox) == Passing(cfg, c.offered))
  }

  lemma QueuedAppend(qs: seq<Queued>, more: seq<Queued>)
    requires |more| <= 1
    ensures QueuedPackets(qs + more) == QueuedPackets(qs) + if more == [] then [] else [more[0].packet]
  {
    if more == [] {
      assert qs + more == qs;
    } else {
      assert (qs + more)[..|qs|] == qs;
    }
  }

  lemma OfferDelivers(cfg: Config, c: Conn, b: PacketBody, nonce: Option<Nonce>, c': Conn)
    requires Delivered(cfg, c) && Live(c') == Live(c) && c'.sent == c.sent
    requires c'.offered == QueueFor(cfg, c, b, nonce).offered && c'.outbox == QueueFor(cfg, c, b, nonce).outbox
    requires c'.replied == c.replied || c'.replied == c.replied + [b]
    ensures Delivered(cfg, c')
  {
    var o := Offer(b, nonce);
    OffersAppend(cfg, c.offered, o);
    if Live(c) {
      QueueGrows(Passing(cfg, c.offered), c.sent, c.outbox, b, if Queueable(cfg, o) then [Entry(cfg, o)] else []);
    }
  }

  lemma OffersAppend(cfg: Config, offered: seq<Offer>, o: Offer)
    ensures OfferedPackets(offered + [o]) == OfferedPackets(offered) + multiset{o.packet}
    ensures Passing(cfg, offered + [o]) == Passing(cfg, offered) + if Queueable(cfg, o) then [o.packet] else []
  {
    assert (offered + [o])[..|offered|] == offered;
  }

  lemma QueueGrows(
    passing: seq<PacketBody>, sent: seq<Queued>, outbox: seq<Queued>, p: PacketBody, more: seq<Queued>)
    requires QueuedPackets(sent + outbox) == passing && (more == [] || (|more| == 1 && more[0].packet == p))
    ensures QueuedPackets(sent + (outbox + more)) == passing + if more == [] then [] else [p]
  {
    assert sent + (outbox + more) == (sent + outbox) + more;
    QueuedAppend(sent + outbox, more);
  }

  lemma AcceptDelivers(cfg: Config, c: Conn, b: PacketBody, verdict: R.Verdict, nonce: Option<Nonce>)
    requires Delivered(cfg, c)
    ensures Delivered(cfg, Accept(cfg, c, b, verdict, nonce))
  {
    if IsData(b) && verdict != R.Allowed {
      OfferDelivers(cfg, c, Refusal(b), nonce, Accept(cfg, c, b, verdict, nonce));
    }
  }

  lemma MessageDelivers(cfg: Config, c: Conn, bytes: seq<u8>, verdict: R.Verdict, nonce: Option<Nonce>)
    requires Delivered(cfg, c)
    ensures Delivered(cfg, OnMessage(cfg, c, bytes, verdict, nonce))
  {
    var rejected, decoded := FastReject(cfg.codec.maxFrameBytes, bytes), Decode(cfg.lib, cfg.codec, bytes);
    if rejected.Some? {
      OfferDelivers(cfg, c, rejected.value, nonce, QueueFor(cfg, c, rejected.value, nonce));
    } else if decoded.Ok? {
      AcceptDelivers(cfg, c, decoded.value.body, verdict, nonce);
    }
  }

  lemma TakeDelivers(cfg: Config, c: Conn, nonce: Option<Nonce>)
    requires Delivered(cfg, c) && c.outbox != []
    ensures Delivered(cfg, Taken(cfg, c, nonce))
  {
    assert (c.sent + [c.outbox[0]]) + c.outbox[1..] == c.sent + c.outbox;
  }

  lemma StepDelivers(cfg: Config, c: Conn, step: Step)
    requires Delivered(cfg, c) && Enabled(c, step)
    ensures Delivered(cfg, Next(cfg, c, step))
  {
    match step
    case Message(bytes, verdict, nonce) => MessageDelivers(cfg, c, bytes, verdict, nonce);
    case Submit(i, nonce) => OfferDelivers(cfg, c, c.ended[i], nonce, Next(cfg, c, step));
    case Push(event, nonce) => OfferDelivers(cfg, c, event, nonce, Next(cfg, c, step));
    case Write(nonce) => TakeDelivers(cfg, c, nonce);
    case _ =>
  }

  /**
   * Exactly when a packet handed to `queue_for` on a live connection is queued: with key agreement always,
   * otherwise if the whole frame fits the limit of the server's codec.
   */
  lemma QueuedIff(cfg: Config, c: Conn, b: PacketBody, nonce: Option<Nonce>)
    requires Lawful(cfg.lib) && Live(c) && SealingWorks(cfg.lib, cfg.outCodec, nonce, Envelope(b, cfg.mode))
    ensures QueueFor(cfg, c, b, nonce).outbox != c.outbox
            <==> cfg.ecdh || FrameSize(cfg.lib, cfg.outCodec, Envelope(b, cfg.mode)) <= cfg.outCodec.maxFrameBytes
    ensures QueueFor(cfg, c, b, nonce).outbox != c.outbox ==>
              QueuedPackets(QueueFor(cfg, c, b, nonce).outbox) == QueuedPackets(c.outbox) + [b]
  {
    SizeLaw(cfg.lib, cfg.outCodec, nonce, Envelope(b, cfg.mode));
    var o := Offer(b, nonce);
    if Queueable(cfg, o) {
      QueuedAppend(c.outbox, [Entry(cfg, o)]);
    }
  }

  // ----- Runs -----

  function After(cfg: Config, c: Conn, step: Step): Conn {
    if Enabled(c, step) then Next(cfg, c, step) else c
  }

  /** The connection after these steps; a step that is not enabled is skipped. */
  function Run(cfg: Config, id: string, steps: seq<Step>): Conn {
    if steps == [] then NewConn(cfg, id)
    else After(cfg, Run(cfg, id, steps[..|steps| - 1]), steps[|steps| - 1])
  }

  lemma {:induction false} RunInv(cfg: Config, id: string, steps: seq<Step>)
    ensures Inv(cfg, Run(cfg, id, steps))
  {
    if steps == [] {
      NewConnInv(cfg, id);
    } else {
      var c, step := Run(cfg, id, steps[..|steps| - 1]), steps[|steps| - 1];
      RunInv(cfg, id, steps[..|steps| - 1]);
      if Enabled(c, step) {
        StepKeeps(cfg, c, step);
      }
    }
  }

  lemma {:induction false} RunDelivers(cfg: Config, id: string, steps: seq<Step>)
    ensures Delivered(cfg, Run(cfg, id, steps))
  {
    if steps == [] {
      assert NewConn(cfg, id).sent + NewConn(cfg, id).outbox == [];
    } else {
      var c, step := Run(cfg, id, steps[..|steps| - 1]), steps[|steps| - 1];
      RunDelivers(cfg, id, steps[..|steps| - 1]);
      if Enabled(c, step) {
        StepDelivers(cfg, c, step);
      }
    }
  }

  /**
   * In every run of a connection: free permits plus running handlers equal the cap; every decoded
   * request or event is replied to under its own id once, waits for a permit, or is running; refused are
   * exactly the packets whose verdict was not Allowed, and each admitted one is handled once, waits, or is
   * running; every reply was made for a packet by what a handler task made of it or by its refusal; every
   * reply was handed to `queue_for`; and until the connection leaves the table or its writer ends, what was
   * queued is exactly what was handed in and could be queued, in order.
   */
  lemma ReplyConservation(cfg: Config, id: string, steps: seq<Step>)
    ensures var c := Run(cfg, id, steps);
            && c.free + |c.active| + |c.ended| == cfg.maxInFlight
            && Keys(c.decoded) == Keys(c.replied) + Keys(c.active) + Keys(c.ended) + WaitingKeys(c.reader)
            && |c.verdicts| == |c.decoded| && c.refused == Sorted(c.decoded, c.verdicts, false)
            && HandledKeys(c.handled) + Keys(c.active) + WaitingKeys(c.reader) == Keys(Sorted(c.decoded, c.verdicts, true))
            && AllMade(cfg, c.id, c.handled, c.refused, c.replied)
            && Delivered(cfg, c)
  {
    RunInv(cfg, id, steps);
    RunDelivers(cfg, id, steps);
    var c := Run(cfg, id, steps);
    SortedKeys(c.decoded, c.verdicts);
    Cancel(HandledKeys(c.handled) + Keys(c.active) + WaitingKeys(c.reader), Keys(Sorted(c.decoded, c.verdicts, true)),
           Keys(c.refused));
  }

  lemma Cancel(a: multiset<Key>, b: multiset<Key>, r: multiset<Key>)
    requires a + r == b + r
    ensures a == b
  {
    forall k: Key
      ensures a[k] == b[k]
    {
      assert a[k] + r[k] == (a + r)[k] == (b + r)[k] == b[k] + r[k];
    }
    assert a == b;
  }

  // ----- What one message does -----

  lemma RunOneMore(cfg: Config, id: string, steps: seq<Step>, step: Step)
    ensures Run(cfg, id, steps + [step]) == After(cfg, Run(cfg, id, steps), step)
  {
    assert (steps + [step])[..|steps|] == steps;
  }

  /**
   * A frame that decodes to a request or event, at any point of any run. Allowed: it is decoded and the
   * reader waits with it, and nothing else happens. Limited or Banned: it is refused and answered at once
   * under its own id, a request with status 503, an event with success and an empty receipt; no handler
   * task starts and the reader goes on.
   */
  lemma VerdictDecides(
    cfg: Config, id: string, steps: seq<Step>, frame: seq<u8>, verdict: R.Verdict, nonce: Option<Nonce>, b: PacketBody)
    requires Run(cfg, id, steps).reader == Reading && IsData(b)
    requires FastReject(cfg.codec.maxFrameBytes, frame).None?
    requires Decode(cfg.lib, cfg.codec, frame).Ok? && Decode(cfg.lib, cfg.codec, frame).value.body == b
    ensures var c, c' := Run(cfg, id, steps), Run(cfg, id, steps + [Message(frame, verdict, nonce)]);
            && c'.decoded == c.decoded + [b] && c'.verdicts == c.verdicts + [verdict]
            && c'.active == c.active && c'.ended == c.ended && c'.handled == c.handled && c'.free == c.free
            && (verdict == R.Allowed ==>
                  && c'.reader == NeedsPermit(b)
                  && c'.refused == c.refused && c'.replied == c.replied && c'.offered == c.offered && c'.outbox == c.outbox)
            && (verdict == R.Limited || verdict == R.Banned ==>
                  && c'.reader == Reading && c'.refused == c.refused + [b]
                  && |c'.replied| == |c.replied| + 1 && c.replied <= c'.replied
                  && c'.offered == c.offered + [Offer(c'.replied[|c.replied|], nonce)]
                  && RefusedWith(b, c'.replied[|c.replied|]))
  {
    RunOneMore(cfg, id, steps, Message(frame, verdict, nonce));
  }

  /** The reply to a refused packet, field by field. */
  predicate RefusedWith(b: PacketBody, reply: PacketBody)
    requires IsData(b)
  {
    if b.ApiRequest? then
      && reply.ApiResponse? && reply.requestId == b.requestId && !reply.ok && reply.status == 503
      && reply.data == Obj(map[]) && reply.error == Some(ErrorPayload("service_busy", "rate limit exceeded", 503, None))
    else
      reply.EventAck? && reply.eventId == b.eventId && reply.ok && reply.receipt == Obj(map[]) && reply.error == None
  }

  /**
   * Every other message: a frame that fails the header checks is answered with id 0 and changes nothing
   * else; one that does not decode stops the reader; a control packet changes nothing.
   */
  lemma OtherMessages(cfg: Config, id: string, steps: seq<Step>, frame: seq<u8>, verdict: R.Verdict, nonce: Option<Nonce>)
    requires Run(cfg, id, steps).reader == Reading
    ensures var c, c' := Run(cfg, id, steps), Run(cfg, id, steps + [Message(frame, verdict, nonce)]);
            var rejected, decoded := FastReject(cfg.codec.maxFrameBytes, frame), Decode(cfg.lib, cfg.codec, frame);
            && (rejected.Some? ==>
                  IsFrameError(rejected.value)
                  && c' == c.(offered := c.offered + [Offer(rejected.value, nonce)], outbox := c'.outbox))
            && (rejected.None? && decoded.Err? ==> c' == c.(reader := Stopped))
            && (rejected.None? && decoded.Ok? && !IsData(decoded.value.body) ==> c' == c)
  {
    RunOneMore(cfg, id, steps, Message(frame, verdict, nonce));
    RejectionIsFrameError(cfg.codec.maxFrameBytes, frame);
  }

  /** A codec whose limit leaves no room for any frame encodes nothing. */
  lemma NothingFits(cfg: Config, b: PacketBody, nonce: Option<Nonce>)
    requires cfg.outCodec.maxFrameBytes < 10
    ensures OutFrame(cfg, b, nonce).Err?
  {
    CompositeLength(cfg.lib, b);
  }

  /**
   * With shared keys a reply can be lost on a live connection: here the refusal of a request the server
   * could read does not fit the codec it answers with.
   */
  lemma ReplyLost(cfg: Config, id: string, request: PacketBody, frame: seq<u8>)
    requires Lawful(cfg.lib) && !cfg.ecdh && cfg.codec == Plaintext() && cfg.outCodec == WithMaxFrameBytes(Plaintext(), 9)
    requires request == ApiRequest(1, "echo", Null, [], Null)
    requires Encode(cfg.lib, Plaintext(), None, Envelope(request, Plain)) == Ok(frame)
    ensures var c := Run(cfg, id, [Message(frame, R.Limited, None)]);
            Live(c) && c.replied == [ServiceBusy(1)] && c.outbox == [] && c.sent == []
  {
    var start, steps := NewConn(cfg, id), [Message(frame, R.Limited, None)];
    assert steps[..0] == [];
    assert Run(cfg, id, steps) == After(cfg, start, steps[0]);
    LengthsAreExact(cfg.lib, Plaintext(), None, Envelope(request, Plain), frame);
    RoundTripIff(cfg.lib, Plaintext(), None, Envelope(request, Plain), frame);
    assert |frame| <= DEFAULT_MAX_FRAME_BYTES;
    FastRejectAgreesWithDecode(cfg.lib, cfg.codec, frame);
    NothingFits(cfg, ServiceBusy(1), None);
    assert Decode(cfg.lib, cfg.codec, frame).value.body == request;
  }
}
