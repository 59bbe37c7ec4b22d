/** Bot audio, marks and clears on their way to the caller (go/internal/bridge/session.go). */
module MediaPipe {

  // `wsToRTP` cuts payloads into frames and queues them with mark sentinels, `rtpPacer` sends one
  // frame per tick and hands marks over to `wsPacer`, and during a forwarded call `calleeRtpReader`
  // feeds the same queue.
  //
  // A `Label` is one atomic step of one goroutine; `Exec` runs a label sequence, a disabled label
  // doing nothing, so label sequences range over all interleavings. One tick of rtpPacer is one step.
  // The chunks of a message, and the two halves of receiving a mark (reading the queue length, then
  // queueing the mark), are separate steps.

  type Bytes = seq<bv8>

  const PACKET_QUEUE_SIZE := 500
  const MARK_ECHO_QUEUE_SIZE := 10
  const RTP_FRAME_SIZE := 160

  /** Who put an audio frame on the queue. */
  datatype Source = Bot | Callee

  /** An entry of packetQueue. A mark carries its position among all marks received, so that
      equal names stay apart. */
  datatype Frame = Audio(bytes: Bytes, source: Source) | Mark(id: nat, name: string)

  datatype Outcome = SendOk | MarshalFails | EncryptFails | WriteFails

  /** What became of a frame that left packetQueue. */
  datatype Fate =
    | Transmitted
    | Discarded
    | SendLost
    | HandedOver
    | EchoFull
    | Swallowed

  datatype Rtp = Rtp(seqNo: nat, timestamp: nat, payload: Bytes)

  /** A packet that went out, with the number of ticks counted before it. */
  datatype Packet = Packet(rtp: Rtp, tick: nat, silence: bool)

  /** Why a mark will never be echoed. */
  datatype Loss = PacketQueueFull | EchoQueueFull | SendFailed | ReaderLeft | NoName

  /** A piece of a media message after wsToRTP is done with it. */
  datatype Offer = Taken(bytes: Bytes) | Dropped(bytes: Bytes) | Abandoned(bytes: Bytes)

  datatype WsPc = Gone | Reading | Chunking(rest: Bytes) | HoldingMark(id: nat, direct: bool)

  /** The shared channels and the pacer's counters. */
  datatype Wire = Wire(
    packetQueue: seq<Frame>,
    markEcho: seq<nat>,
    clear: bool,
    seqNo: nat,
    timestamp: nat,
    pacing: bool)

  /** What has happened so far. `receivedAt[m]` is how many frames had been accepted when mark m
      came in; `lost` holds the marks that will never be echoed. */
  datatype History = History(
    accepted: seq<Frame>,
    fates: seq<Fate>,
    packets: seq<Packet>,
    ticks: nat,
    names: seq<string>,
    receivedAt: seq<nat>,
    echoed: seq<nat>,
    lost: map<nat, Loss>,
    payload: Bytes,
    offers: seq<Offer>,
    calleeDropped: nat)

  datatype State = State(w: Wire, ws: WsPc, relayOn: bool, h: History)

  datatype Label =
    | MediaMessage(payload: Bytes)
    | NextChunk
    | LeaveMidMessage
    | MarkMessage(name: string)
    | DeliverMark
    | LeaveHoldingMark
    | ClearMessage
    | ReaderLeaves
    | ReaderSpawned
    | RelayOn
    | CalleeFrame(bytes: Bytes)
    | Tick(outcome: Outcome, silence: Bytes)
    | PacerLeaves
    | EchoMark(ok: bool)

  function Init(): State {
    State(Wire([], [], false, 0, 0, true), Gone, false, History([], [], [], 0, [], [], [], map[], [], [], 0))
  }

  // ---------------------------------------------------------------------------------------------
  // wsToRTP and calleeRtpReader

  function Chunk(rest: Bytes): Bytes {
    if |rest| > RTP_FRAME_SIZE then rest[..RTP_FRAME_SIZE] else rest
  }

  predicate Room(w: Wire) {
    |w.packetQueue| < PACKET_QUEUE_SIZE
  }

  function Accept(s: State, f: Frame): State {
    s.(w := s.w.(packetQueue := s.w.packetQueue + [f]), h := s.h.(accepted := s.h.accepted + [f]))
  }

  function Lose(s: State, m: nat, why: Loss): State {
    s.(h := s.h.(lost := s.h.lost[m := why]))
  }

  /** One round of the chunk loop. */
  function OfferChunk(s: State): State
    requires s.ws.Chunking? && s.ws.rest != []
  {
    var chunk := Chunk(s.ws.rest);
    var rest := s.ws.rest[|chunk|..];
    var t := s.(ws := if rest == [] then Reading else Chunking(rest));
    if Room(s.w)
    then Accept(t.(h := t.h.(offers := t.h.offers + [Taken(chunk)])), Audio(chunk, Bot))
    else t.(h := t.h.(offers := t.h.offers + [Dropped(chunk)]))
  }

  /** The mark is queued where the length read earlier said it belongs. */
  function PlaceMark(s: State): State
    requires s.ws.HoldingMark? && s.ws.id < |s.h.names|
  {
    var m, t := s.ws.id, s.(ws := Reading);
    if s.ws.direct then
      if |s.w.markEcho| < MARK_ECHO_QUEUE_SIZE then t.(w := t.w.(markEcho := t.w.markEcho + [m]))
      else Lose(t, m, EchoQueueFull)
    else if Room(s.w) then Accept(t, Mark(m, s.h.names[m]))
    else Lose(t, m, PacketQueueFull)
  }

  // ---------------------------------------------------------------------------------------------
  // rtpPacer and wsPacer

  /** The frame at the head leaves the queue. */
  function Retire(s: State, fate: Fate): State
    requires s.w.packetQueue != []
  {
    s.(w := s.w.(packetQueue := s.w.packetQueue[1..]), h := s.h.(fates := s.h.fates + [fate]))
  }

  /** A mark sentinel at the head goes to wsPacer. The code tells sentinels by their non-empty
      name, so a sentinel with an empty name is not recognised. */
  function RetireMark(s: State): State
    requires s.w.packetQueue != [] && s.w.packetQueue[0].Mark?
  {
    var f := s.w.packetQueue[0];
    if f.name == "" then Lose(Retire(s, Swallowed), f.id, NoName)
    else if |s.w.markEcho| < MARK_ECHO_QUEUE_SIZE then
      var t := Retire(s, HandedOver);
      t.(w := t.w.(markEcho := t.w.markEcho + [f.id]))
    else Lose(Retire(s, EchoFull), f.id, EchoQueueFull)
  }

  function ClearHead(s: State): State
    requires s.w.packetQueue != []
  {
    if s.w.packetQueue[0].Mark? then RetireMark(s) else Retire(s, Discarded)
  }

  function Drain(s: State): (t: State)
    ensures t.w.packetQueue == [] && t.h.packets == s.h.packets && t.w.pacing == s.w.pacing
    decreases |s.w.packetQueue|
  {
    if s.w.packetQueue == [] then s else Drain(ClearHead(s))
  }

  function Count(s: State): State {
    s.(w := s.w.(seqNo := (s.w.seqNo + 1) % 0x1_0000, timestamp := (s.w.timestamp + 160) % 0x1_0000_0000),
       h := s.h.(ticks := s.h.ticks + 1))
  }

  function Transmit(s: State, payload: Bytes, silence: bool): State {
    Count(s.(h := s.h.(packets := s.h.packets +
                                  [Packet(Rtp(s.w.seqNo, s.w.timestamp, payload), s.h.ticks, silence)])))
  }

  /** The tick's RTP packet, once its payload is known. */
  function Emit(s: State, payload: Bytes, silence: bool, outcome: Outcome): State {
    match outcome
    case SendOk => Transmit(s, payload, silence)
    case MarshalFails => s
    case EncryptFails => Count(s)
    case WriteFails => s.(w := s.w.(pacing := false))
  }

  /** One frame, or silence. A recognised mark only counts the tick; a sentinel with an empty name
      leaves the tick to silence. */
  function TickAfterClear(s: State, outcome: Outcome, silence: Bytes): State {
    if s.w.packetQueue == [] then Emit(s, silence, true, outcome)
    else
      var f := s.w.packetQueue[0];
      if f.Audio? then
        Emit(Retire(s, if outcome == SendOk then Transmitted else SendLost), f.bytes, false, outcome)
      else if f.name != "" then Count(RetireMark(s))
      else Emit(RetireMark(s), silence, true, outcome)
  }

  function TickStep(s: State, outcome: Outcome, silence: Bytes): State {
    TickAfterClear(if s.w.clear then Drain(s.(w := s.w.(clear := false))) else s, outcome, silence)
  }

  // ---------------------------------------------------------------------------------------------
  // The step system

  predicate Enabled(s: State, l: Label) {
    match l
    case MediaMessage(_) | MarkMessage(_) | ClearMessage | ReaderLeaves => s.ws == Reading
    case NextChunk | LeaveMidMessage => s.ws.Chunking? && s.ws.rest != []
    case DeliverMark => s.ws.HoldingMark? && s.ws.id < |s.h.names|
    case LeaveHoldingMark => s.ws.HoldingMark? && !s.ws.direct
    case ReaderSpawned | RelayOn => s.ws == Gone && !s.relayOn
    case CalleeFrame(_) => s.relayOn
    case Tick(_, _) | PacerLeaves => s.w.pacing
    case EchoMark(_) => s.w.markEcho != []
  }

  function Fire(s: State, l: Label): State
    requires Enabled(s, l)
  {
    match l
    case MediaMessage(p) =>
      s.(ws := if p == [] then Reading else Chunking(p), h := s.h.(payload := s.h.payload + p))
    case NextChunk => OfferChunk(s)
    case LeaveMidMessage => s.(ws := Gone, h := s.h.(offers := s.h.offers + [Abandoned(s.ws.rest)]))
    case MarkMessage(name) =>
      s.(ws := HoldingMark(|s.h.names|, s.w.packetQueue == []),
         h := s.h.(names := s.h.names + [name], receivedAt := s.h.receivedAt + [|s.h.accepted|]))
    case DeliverMark => PlaceMark(s)
    case LeaveHoldingMark => Lose(s.(ws := Gone), s.ws.id, ReaderLeft)
    case ClearMessage => s.(w := s.w.(clear := true))
    case ReaderLeaves => s.(ws := Gone)
    case ReaderSpawned => s.(ws := Reading)
    case RelayOn => s.(relayOn := true)
    case CalleeFrame(b) =>
      if Room(s.w) then Accept(s, Audio(b, Callee)) else s.(h := s.h.(calleeDropped := s.h.calleeDropped + 1))
    case Tick(outcome, silence) => TickStep(s, outcome, silence)
    case PacerLeaves => s.(w := s.w.(pacing := false))
    case EchoMark(ok) =>
      var t := s.(w := s.w.(markEcho := s.w.markEcho[1..]));
      if ok then t.(h := t.h.(echoed := t.h.echoed + [s.w.markEcho[0]])) else Lose(t, s.w.markEcho[0], SendFailed)
  }

  function Apply(s: State, l: Label): State {
    if Enabled(s, l) then Fire(s, l) else s
  }

  function Exec(labels: seq<Label>): State {
    if labels == [] then Init() else Apply(Exec(labels[..|labels| - 1]), labels[|labels| - 1])
  }

  // ---------------------------------------------------------------------------------------------
  // Views of the queues

  function MarkIds(q: seq<Frame>): seq<nat> {
    if q == [] then [] else (if q[0].Mark? then [q[0].id] else []) + MarkIds(q[1..])
  }

  function Pending(ws: WsPc): seq<nat> {
    if ws.HoldingMark? then [ws.id] else []
  }

  /** All marks still on their way, oldest first. */
  function Chain(s: State): seq<nat> {
    s.h.echoed + s.w.markEcho + MarkIds(s.w.packetQueue) + Pending(s.ws)
  }

  ghost predicate Ascending(c: seq<nat>) {
    forall i, j :: 0 <= i < j < |c| ==> c[i] < c[j]
  }

  function SentBytes(accepted: seq<Frame>, fates: seq<Fate>): seq<Bytes>
    requires |fates| <= |accepted|
  {
    if fates == [] then []
    else
      var n := |fates| - 1;
      SentBytes(accepted, fates[..n]) +
      (if fates[n] == Transmitted && accepted[n].Audio? then [accepted[n].bytes] else [])
  }

  function Voiced(packets: seq<Packet>): seq<Bytes> {
    if packets == [] then []
    else
      var n := |packets| - 1;
      Voiced(packets[..n]) + (if packets[n].silence then [] else [packets[n].rtp.payload])
  }

  function Pieces(offers: seq<Offer>): Bytes {
    if offers == [] then [] else Pieces(offers[..|offers| - 1]) + offers[|offers| - 1].bytes
  }

  function TakenPieces(offers: seq<Offer>): seq<Bytes> {
    if offers == [] then []
    else
      var n := |offers| - 1;
      TakenPieces(offers[..n]) + (if offers[n].Taken? then [offers[n].bytes] else [])
  }

  function BotAudio(accepted: seq<Frame>): seq<Bytes> {
    if accepted == [] then []
    else
      var n := |accepted| - 1;
      BotAudio(accepted[..n]) +
      (if accepted[n].Audio? && accepted[n].source == Bot then [accepted[n].bytes] else [])
  }

  function Rest(ws: WsPc): Bytes {
    if ws.Chunking? then ws.rest else []
  }

  // ---------------------------------------------------------------------------------------------
  // The inductive invariant

  ghost predicate QueueInv(s: State) {
    && |s.w.packetQueue| <= PACKET_QUEUE_SIZE
    && |s.w.markEcho| <= MARK_ECHO_QUEUE_SIZE
    && |s.h.fates| + |s.w.packetQueue| == |s.h.accepted|
    && s.w.packetQueue == s.h.accepted[|s.h.fates|..]
    && (s.relayOn ==> s.ws == Gone)
    && (s.ws.HoldingMark? && s.ws.direct ==> s.w.packetQueue == [])
  }

  predicate FateFits(f: Frame, fate: Fate) {
    match fate
    case Transmitted | Discarded | SendLost => f.Audio?
    case HandedOver | EchoFull => f.Mark? && f.name != ""
    case Swallowed => f.Mark? && f.name == ""
  }

  ghost predicate AudioInv(s: State) {
    && |s.h.fates| <= |s.h.accepted|
    && (forall i :: 0 <= i < |s.h.fates| ==> FateFits(s.h.accepted[i], s.h.fates[i]))
    && SentBytes(s.h.accepted, s.h.fates) == Voiced(s.h.packets)
    && BotAudio(s.h.accepted) == TakenPieces(s.h.offers)
    && PiecesInv(s.ws, s.h)
  }

  predicate PieceFits(o: Offer) {
    !o.Abandoned? ==> 1 <= |o.bytes| <= RTP_FRAME_SIZE
  }

  ghost predicate PiecesInv(ws: WsPc, h: History) {
    && Pieces(h.offers) + Rest(ws) == h.payload
    && (forall i :: 0 <= i < |h.offers| ==> PieceFits(h.offers[i]))
    && (ws.Chunking? ==> ws.rest != [])
  }

  ghost predicate RtpInv(w: Wire, h: History) {
    && w.seqNo == h.ticks % 0x1_0000
    && w.timestamp == (160 * h.ticks) % 0x1_0000_0000
    && (forall k :: 0 <= k < |h.packets| ==> StampedAt(h.packets[k]) && h.packets[k].tick < h.ticks)
    && (forall j, k :: 0 <= j < k < |h.packets| ==> h.packets[j].tick < h.packets[k].tick)
  }

  /** Sequence number and timestamp follow from the number of ticks counted before the packet. */
  predicate StampedAt(p: Packet) {
    p.rtp.seqNo == p.tick % 0x1_0000 && p.rtp.timestamp == (160 * p.tick) % 0x1_0000_0000
  }

  /** The chain holds, in order, exactly the received marks that are not lost. */
  ghost predicate MarkInv(chain: seq<nat>, received: nat, lost: map<nat, Loss>) {
    && Ascending(chain)
    && (forall m: nat :: m in chain <==> m < received && m !in lost)
    && (forall m :: m in lost ==> m < received)
  }

  ghost predicate PlaceInv(s: State) {
    && |s.h.receivedAt| == |s.h.names|
    && |s.h.fates| <= |s.h.accepted|
    && (forall m :: 0 <= m < |s.h.names| ==> s.h.receivedAt[m] <= |s.h.accepted|)
    && (forall m :: m in s.h.echoed || m in s.w.markEcho ==>
          m < |s.h.names| && s.h.receivedAt[m] <= |s.h.fates|)
    && (forall j :: 0 <= j < |s.h.accepted| && s.h.accepted[j].Mark? ==>
          var f := s.h.accepted[j];
          f.id < |s.h.names| && f.name == s.h.names[f.id] && s.h.receivedAt[f.id] <= j &&
          (j < |s.h.fates| && f.name == "" ==> f.id in s.h.lost))
    && (forall m :: m in s.h.lost && s.h.lost[m] == NoName ==> m < |s.h.names| && s.h.names[m] == "")
  }

  ghost predicate Inv(s: State) {
    QueueInv(s) && AudioInv(s) && RtpInv(s.w, s.h) && MarkInv(Chain(s), |s.h.names|, s.h.lost) && PlaceInv(s)
  }

  // --- small facts about the views

  lemma Regroup3(a: seq<nat>, b: seq<nat>, c: seq<nat>)
    ensures (a + b) + c == a + (b + c)
  {
  }

  lemma {:induction false} MarkIdsAppend(q: seq<Frame>, f: Frame)
    ensures MarkIds(q + [f]) == MarkIds(q) + MarkIds([f])
  {
    if q == [] {
      assert q + [f] == [f] && MarkIds(q) == [];
    } else {
      assert (q + [f])[0] == q[0] && (q + [f])[1..] == q[1..] + [f];
      MarkIdsAppend(q[1..], f);
      var head := if q[0].Mark? then [q[0].id] else [];
      Regroup3(head, MarkIds(q[1..]), MarkIds([f]));
    }
  }

  lemma {:induction false} SentBytesAccept(accepted: seq<Frame>, f: Frame, fates: seq<Fate>)
    requires |fates| <= |accepted|
    ensures SentBytes(accepted + [f], fates) == SentBytes(accepted, fates)
  {
    if fates != [] {
      SentBytesAccept(accepted, f, fates[..|fates| - 1]);
    }
  }

  lemma RemoveOneMembers(a: seq<nat>, x: nat, b: seq<nat>)
    ensures forall m: nat :: m in a + [x] + b <==> m in a + b || m == x
  {
  }

  lemma RemoveOne(a: seq<nat>, x: nat, b: seq<nat>)
    requires Ascending(a + [x] + b)
    ensures Ascending(a + b) && x !in a + b
  {
    var c, d := a + [x] + b, a + b;
    assert c[|a|] == x;
    assert forall i :: 0 <= i < |d| ==> d[i] == c[if i < |a| then i else i + 1];
  }

  lemma LoseFromChain(a: seq<nat>, x: nat, b: seq<nat>, n: nat, lost: map<nat, Loss>, why: Loss)
    requires MarkInv(a + [x] + b, n, lost)
    ensures MarkInv(a + b, n, lost[x := why])
  {
    RemoveOne(a, x, b);
    RemoveOneMembers(a, x, b);
  }

  lemma ReceiveOnChain(c: seq<nat>, n: nat, lost: map<nat, Loss>)
    requires MarkInv(c, n, lost)
    ensures MarkInv(c + [n], n + 1, lost)
  {
    assert forall i :: 0 <= i < |c| ==> c[i] in c;
  }

  // --- one frame leaves the queue

  lemma HeadIsOldest(s: State)
    requires QueueInv(s) && s.w.packetQueue != []
    ensures |s.h.fates| < |s.h.accepted| && s.w.packetQueue[0] == s.h.accepted[|s.h.fates|]
  {
  }

  lemma RetireKeepsAudio(s: State, fate: Fate)
    requires QueueInv(s) && AudioInv(s) && s.w.packetQueue != [] && FateFits(s.w.packetQueue[0], fate)
    requires fate != Transmitted
    ensures AudioInv(Retire(s, fate))
  {
    HeadIsOldest(s);
    assert (s.h.fates + [fate])[..|s.h.fates|] == s.h.fates;
  }

  lemma RetireAudioKeepsMarks(s: State, fate: Fate)
    requires s.w.packetQueue != [] && s.w.packetQueue[0].Audio?
    ensures Chain(Retire(s, fate)) == Chain(s)
  {
  }

  function MarkFate(s: State): Fate
    requires s.w.packetQueue != [] && s.w.packetQueue[0].Mark?
  {
    if s.w.packetQueue[0].name == "" then Swallowed
    else if |s.w.markEcho| < MARK_ECHO_QUEUE_SIZE then HandedOver else EchoFull
  }

  lemma RetireMarkKeepsAudio(s: State)
    requires QueueInv(s) && AudioInv(s) && s.w.packetQueue != [] && s.w.packetQueue[0].Mark?
    ensures AudioInv(RetireMark(s))
  {
    RetireKeepsAudio(s, MarkFate(s));
    SameAudio(Retire(s, MarkFate(s)), RetireMark(s));
  }

  lemma RetireMarkKeepsQueue(s: State)
    requires QueueInv(s) && s.w.packetQueue != [] && s.w.packetQueue[0].Mark?
    ensures QueueInv(RetireMark(s))
  {
    RetireKeepsQueue(s, MarkFate(s));
  }

  lemma RetireMarkKeepsInv(s: State)
    requires Inv(s) && s.w.packetQueue != [] && s.w.packetQueue[0].Mark?
    ensures Inv(RetireMark(s))
  {
    RetireMarkKeepsQueue(s);
    RetireMarkKeepsAudio(s);
    RetireMarkKeepsChain(s);
    RetireMarkKeepsPlaces(s);
    assert RetireMark(s).h.packets == s.h.packets && RetireMark(s).h.ticks == s.h.ticks;
  }

  lemma RetireKeepsQueue(s: State, fate: Fate)
    requires QueueInv(s) && s.w.packetQueue != []
    ensures QueueInv(Retire(s, fate))
  {
  }

  /** AudioInv only looks at these fields. */
  lemma SameAudio(s: State, t: State)
    requires AudioInv(s) && t.ws == s.ws && t.h.accepted == s.h.accepted && t.h.fates == s.h.fates
    requires t.h.packets == s.h.packets && t.h.offers == s.h.offers && t.h.payload == s.h.payload
    ensures AudioInv(t)
  {
  }

  lemma Regroup(a: seq<nat>, x: nat, b: seq<nat>, c: seq<nat>)
    ensures a + ([x] + b) + c == a + [x] + (b + c)
    ensures a + b + c == a + (b + c)
  {
  }

  lemma RegroupEcho(a: seq<nat>, b: seq<nat>, x: nat, c: seq<nat>, d: seq<nat>)
    ensures a + (b + [x]) + c + d == a + b + [x] + (c + d)
    ensures a + ([x] + b) + c + d == a + [x] + (b + c + d)
    ensures (a + [x]) + b + c + d == a + [x] + (b + c + d)
    ensures a + b + c + d == a + (b + c + d)
  {
  }

  lemma RetireMarkKeepsChain(s: State)
    requires s.w.packetQueue != [] && s.w.packetQueue[0].Mark?
    requires MarkInv(Chain(s), |s.h.names|, s.h.lost)
    ensures MarkInv(Chain(RetireMark(s)), |RetireMark(s).h.names|, RetireMark(s).h.lost)
  {
    var f, t := s.w.packetQueue[0], RetireMark(s);
    var rest := MarkIds(s.w.packetQueue[1..]);
    var before, after := s.h.echoed + s.w.markEcho, rest + Pending(s.ws);
    Regroup(before, f.id, rest, Pending(s.ws));
    assert Chain(s) == before + [f.id] + after;
    if f.name != "" && |s.w.markEcho| < MARK_ECHO_QUEUE_SIZE {
      RegroupEcho(s.h.echoed, s.w.markEcho, f.id, rest, Pending(s.ws));
      assert Chain(t) == Chain(s);
    } else {
      assert Chain(t) == before + after;
      LoseFromChain(before, f.id, after, |s.h.names|, s.h.lost, if f.name == "" then NoName else EchoQueueFull);
    }
  }

  lemma RetireMarkKeepsEchoes(s: State)
    requires QueueInv(s) && PlaceInv(s) && s.w.packetQueue != [] && s.w.packetQueue[0].Mark?
    ensures var t := RetireMark(s);
            forall m :: m in t.h.echoed || m in t.w.markEcho ==> m < |t.h.names| && t.h.receivedAt[m] <= |t.h.fates|
  {
    HeadIsOldest(s);
    var f, t := s.w.packetQueue[0], RetireMark(s);
    assert s.h.receivedAt[f.id] <= |s.h.fates|;
    forall m | m in t.h.echoed || m in t.w.markEcho
      ensures m < |t.h.names| && t.h.receivedAt[m] <= |t.h.fates|
    {
      assert m in s.h.echoed || m in s.w.markEcho || m == f.id;
    }
  }

  lemma RetireMarkKeepsNames(s: State)
    requires QueueInv(s) && PlaceInv(s) && s.w.packetQueue != [] && s.w.packetQueue[0].Mark?
    ensures var t := RetireMark(s);
            forall j :: 0 <= j < |t.h.accepted| && t.h.accepted[j].Mark? ==>
              var f := t.h.accepted[j];
              f.id < |t.h.names| && f.name == t.h.names[f.id] && t.h.receivedAt[f.id] <= j &&
              (j < |t.h.fates| && f.name == "" ==> f.id in t.h.lost)
  {
    HeadIsOldest(s);
  }

  lemma RetireMarkKeepsPlaces(s: State)
    requires QueueInv(s) && PlaceInv(s) && s.w.packetQueue != [] && s.w.packetQueue[0].Mark?
    ensures PlaceInv(RetireMark(s))
  {
    HeadIsOldest(s);
    RetireMarkKeepsEchoes(s);
    RetireMarkKeepsNames(s);
  }

  lemma ClearHeadKeepsInv(s: State)
    requires Inv(s) && s.w.packetQueue != []
    ensures Inv(ClearHead(s))
  {
    if s.w.packetQueue[0].Mark? {
      RetireMarkKeepsInv(s);
    } else {
      RetireKeepsAudio(s, Discarded);
      RetireAudioKeepsMarks(s, Discarded);
      HeadIsOldest(s);
    }
  }

  lemma DrainStep(s: State)
    requires s.w.packetQueue != []
    ensures Drain(s) == Drain(ClearHead(s)) && |ClearHead(s).w.packetQueue| == |s.w.packetQueue| - 1
  {
  }

  lemma {:induction false} DrainKeepsInv(s: State)
    requires Inv(s)
    ensures Inv(Drain(s))
    decreases |s.w.packetQueue|
  {
    if s.w.packetQueue != [] {
      DrainStep(s);
      ClearHeadKeepsInv(s);
      DrainKeepsInv(ClearHead(s));
    }
  }

  // --- the tick

  lemma SameResidue(x: int, y: int, k: int)
    requires x == y + 0x1_0000_0000 * k
    ensures x % 0x1_0000_0000 == y % 0x1_0000_0000
  {
  }

  lemma SameResidue16(x: int, y: int, k: int)
    requires x == y + 0x1_0000 * k
    ensures x % 0x1_0000 == y % 0x1_0000
  {
  }

  lemma NextStamp(n: nat)
    ensures (n % 0x1_0000 + 1) % 0x1_0000 == (n + 1) % 0x1_0000
    ensures ((160 * n) % 0x1_0000_0000 + 160) % 0x1_0000_0000 == (160 * (n + 1)) % 0x1_0000_0000
  {
    SameResidue16(n % 0x1_0000 + 1, n + 1, -(n / 0x1_0000));
    SameResidue((160 * n) % 0x1_0000_0000 + 160, 160 * (n + 1), -((160 * n) / 0x1_0000_0000));
  }

  lemma TransmitKeepsRtp(s: State, payload: Bytes, silence: bool)
    requires RtpInv(s.w, s.h)
    ensures RtpInv(Transmit(s, payload, silence).w, Transmit(s, payload, silence).h)
  {
    NextStamp(s.h.ticks);
  }

  lemma CountKeepsInv(s: State)
    requires Inv(s)
    ensures Inv(Count(s))
  {
    NextStamp(s.h.ticks);
    assert Chain(Count(s)) == Chain(s);
  }

  lemma TransmitSilenceKeepsInv(s: State, payload: Bytes)
    requires Inv(s)
    ensures Inv(Transmit(s, payload, true))
  {
    var t := Transmit(s, payload, true);
    TransmitKeepsRtp(s, payload, true);
    assert Chain(t) == Chain(s);
    assert t.h.packets[..|s.h.packets|] == s.h.packets;
  }

  lemma NoPacketKeepsInv(s: State, payload: Bytes, silence: bool, outcome: Outcome)
    requires Inv(s) && outcome != SendOk
    ensures Inv(Emit(s, payload, silence, outcome))
  {
    CountKeepsInv(s);
    assert Chain(Emit(s, payload, silence, outcome)) == Chain(s);
  }

  lemma DropFrameKeepsInv(s: State)
    requires Inv(s) && s.w.packetQueue != [] && s.w.packetQueue[0].Audio?
    ensures Inv(Retire(s, SendLost))
  {
    RetireKeepsAudio(s, SendLost);
    RetireAudioKeepsMarks(s, SendLost);
    HeadIsOldest(s);
  }

  /** An audio frame on its way out: fate and packet are recorded together. */
  lemma SendFrameKeepsAudio(s: State)
    requires QueueInv(s) && AudioInv(s) && s.w.packetQueue != [] && s.w.packetQueue[0].Audio?
    ensures AudioInv(Emit(Retire(s, Transmitted), s.w.packetQueue[0].bytes, false, SendOk))
  {
    var t := Emit(Retire(s, Transmitted), s.w.packetQueue[0].bytes, false, SendOk);
    HeadIsOldest(s);
    assert t.h.packets[..|s.h.packets|] == s.h.packets && t.h.fates[..|s.h.fates|] == s.h.fates;
  }

  lemma RetireAudioKeepsPlaces(s: State, fate: Fate)
    requires QueueInv(s) && PlaceInv(s) && s.w.packetQueue != [] && s.w.packetQueue[0].Audio?
    ensures PlaceInv(Retire(s, fate))
  {
    HeadIsOldest(s);
  }

  /** PlaceInv only looks at these fields. */
  lemma SamePlaces(s: State, t: State)
    requires PlaceInv(s) && t.w.markEcho == s.w.markEcho
    requires t.h == s.h.(packets := t.h.packets, ticks := t.h.ticks)
    ensures PlaceInv(t)
  {
  }

  lemma SendFrameKeepsInv(s: State)
    requires Inv(s) && s.w.packetQueue != [] && s.w.packetQueue[0].Audio?
    ensures Inv(Emit(Retire(s, Transmitted), s.w.packetQueue[0].bytes, false, SendOk))
  {
    var u := Retire(s, Transmitted);
    var t := Emit(u, s.w.packetQueue[0].bytes, false, SendOk);
    SendFrameKeepsAudio(s);
    TransmitKeepsRtp(u, s.w.packetQueue[0].bytes, false);
    RetireKeepsQueue(s, Transmitted);
    RetireAudioKeepsMarks(s, Transmitted);
    RetireAudioKeepsPlaces(s, Transmitted);
    SamePlaces(u, t);
    assert Chain(t) == Chain(s);
  }

  lemma EmitSilenceKeepsInv(s: State, payload: Bytes, outcome: Outcome)
    requires Inv(s)
    ensures Inv(Emit(s, payload, true, outcome))
  {
    if outcome == SendOk {
      TransmitSilenceKeepsInv(s, payload);
    } else {
      NoPacketKeepsInv(s, payload, true, outcome);
    }
  }

  lemma TickKeepsInv(s: State, outcome: Outcome, silence: Bytes)
    requires Inv(s)
    ensures Inv(TickAfterClear(s, outcome, silence))
  {
    if s.w.packetQueue == [] {
      EmitSilenceKeepsInv(s, silence, outcome);
    } else if s.w.packetQueue[0].Mark? {
      RetireMarkKeepsInv(s);
      CountKeepsInv(RetireMark(s));
      EmitSilenceKeepsInv(RetireMark(s), silence, outcome);
    } else if outcome == SendOk {
      SendFrameKeepsInv(s);
    } else {
      DropFrameKeepsInv(s);
      NoPacketKeepsInv(Retire(s, SendLost), s.w.packetQueue[0].bytes, false, outcome);
    }
  }

  lemma ClearedKeepsInv(s: State)
    requires Inv(s)
    ensures Inv(s.(w := s.w.(clear := false)))
  {
    assert Chain(s.(w := s.w.(clear := false))) == Chain(s);
  }

  lemma TickStepKeepsInv(s: State, outcome: Outcome, silence: Bytes)
    requires Inv(s)
    ensures Inv(TickStep(s, outcome, silence))
  {
    if s.w.clear {
      var t := s.(w := s.w.(clear := false));
      ClearedKeepsInv(s);
      DrainKeepsInv(t);
      TickKeepsInv(Drain(t), outcome, silence);
    } else {
      TickKeepsInv(s, outcome, silence);
    }
  }

  // --- wsToRTP, calleeRtpReader and wsPacer

  lemma AcceptKeepsAudio(s: State, f: Frame)
    requires AudioInv(s) && (f.Mark? || f.source == Callee)
    ensures AudioInv(Accept(s, f))
  {
    SentBytesAccept(s.h.accepted, f, s.h.fates);
    assert (s.h.accepted + [f])[..|s.h.accepted|] == s.h.accepted;
  }

  lemma AcceptKeepsPlaces(s: State, f: Frame)
    requires PlaceInv(s) && f.Audio?
    ensures PlaceInv(Accept(s, f))
  {
    var t := Accept(s, f);
    forall j | 0 <= j < |t.h.accepted| && t.h.accepted[j].Mark?
      ensures j < |s.h.accepted| && t.h.accepted[j] == s.h.accepted[j]
    {
    }
  }

  lemma AcceptKeepsMarks(s: State, f: Frame)
    requires f.Audio?
    ensures Chain(Accept(s, f)) == Chain(s)
  {
    MarkIdsAppend(s.w.packetQueue, f);
  }

  lemma AcceptKeepsQueue(s: State, f: Frame)
    requires QueueInv(s) && Room(s.w) && !s.ws.HoldingMark?
    ensures QueueInv(Accept(s, f))
  {
    assert (s.h.accepted + [f])[|s.h.fates|..] == s.h.accepted[|s.h.fates|..] + [f];
  }

  lemma AcceptKeepsInv(s: State, f: Frame)
    requires Inv(s) && Room(s.w) && f.Audio? && f.source == Callee && s.relayOn
    ensures Inv(Accept(s, f))
  {
    AcceptKeepsQueue(s, f);
    AcceptKeepsPlaces(s, f);
    AcceptKeepsMarks(s, f);
    AcceptKeepsAudio(s, f);
  }

  lemma PiecesSnoc(offers: seq<Offer>, o: Offer)
    ensures Pieces(offers + [o]) == Pieces(offers) + o.bytes
    ensures TakenPieces(offers + [o]) == if o.Taken? then TakenPieces(offers) + [o.bytes] else TakenPieces(offers)
  {
    assert (offers + [o])[..|offers|] == offers;
  }

  lemma BotAudioSnoc(accepted: seq<Frame>, f: Frame)
    ensures BotAudio(accepted + [f])
         == if f.Audio? && f.source == Bot then BotAudio(accepted) + [f.bytes] else BotAudio(accepted)
  {
    assert (accepted + [f])[..|accepted|] == accepted;
  }

  lemma Rebracket(a: Bytes, b: Bytes, c: Bytes)
    ensures (a + b) + c == a + (b + c)
  {
  }

  lemma ChunkSplits(rest: Bytes)
    requires rest != []
    ensures 1 <= |Chunk(rest)| <= RTP_FRAME_SIZE && Chunk(rest) + rest[|Chunk(rest)|..] == rest
  {
  }

  lemma PieceKeepsPieces(ws: WsPc, h: History, next: WsPc, o: Offer)
    requires PiecesInv(ws, h) && PieceFits(o) && Rest(ws) == o.bytes + Rest(next) && (next.Chunking? ==> next.rest != [])
    ensures PiecesInv(next, h.(offers := h.offers + [o]))
  {
    PiecesSnoc(h.offers, o);
    Rebracket(Pieces(h.offers), o.bytes, Rest(next));
  }

  lemma OfferKeepsPieces(s: State)
    requires PiecesInv(s.ws, s.h) && s.ws.Chunking? && s.ws.rest != []
    ensures PiecesInv(OfferChunk(s).ws, OfferChunk(s).h)
  {
    var chunk, t := Chunk(s.ws.rest), OfferChunk(s);
    ChunkSplits(s.ws.rest);
    assert Rest(t.ws) == s.ws.rest[|chunk|..];
    PieceKeepsPieces(s.ws, s.h, t.ws, if Room(s.w) then Taken(chunk) else Dropped(chunk));
  }

  lemma OfferKeepsAudio(s: State)
    requires AudioInv(s) && s.ws.Chunking? && s.ws.rest != []
    ensures AudioInv(OfferChunk(s))
  {
    var chunk := Chunk(s.ws.rest);
    OfferKeepsPieces(s);
    SentBytesAccept(s.h.accepted, Audio(chunk, Bot), s.h.fates);
    PiecesSnoc(s.h.offers, if Room(s.w) then Taken(chunk) else Dropped(chunk));
    BotAudioSnoc(s.h.accepted, Audio(chunk, Bot));
  }

  lemma OfferKeepsMarks(s: State)
    requires s.ws.Chunking? && s.ws.rest != []
    ensures Chain(OfferChunk(s)) == Chain(s)
    ensures OfferChunk(s).h.names == s.h.names && OfferChunk(s).h.lost == s.h.lost
  {
    MarkIdsAppend(s.w.packetQueue, Audio(Chunk(s.ws.rest), Bot));
  }

  lemma OfferKeepsQueue(s: State)
    requires QueueInv(s) && s.ws.Chunking? && s.ws.rest != []
    ensures QueueInv(OfferChunk(s))
  {
    var f := Audio(Chunk(s.ws.rest), Bot);
    if Room(s.w) {
      assert (s.h.accepted + [f])[|s.h.fates|..] == s.h.accepted[|s.h.fates|..] + [f];
    }
  }

  lemma OfferKeepsPlaces(s: State)
    requires PlaceInv(s) && s.ws.Chunking? && s.ws.rest != []
    ensures PlaceInv(OfferChunk(s))
  {
    var t := OfferChunk(s);
    assert t.h.fates == s.h.fates && t.h.lost == s.h.lost && t.h.receivedAt == s.h.receivedAt;
    forall j | 0 <= j < |t.h.accepted| && t.h.accepted[j].Mark?
      ensures j < |s.h.accepted| && t.h.accepted[j] == s.h.accepted[j]
    {
    }
  }

  lemma OfferKeepsInv(s: State)
    requires Inv(s) && s.ws.Chunking? && s.ws.rest != []
    ensures Inv(OfferChunk(s))
  {
    OfferKeepsAudio(s);
    OfferKeepsMarks(s);
    OfferKeepsQueue(s);
    OfferKeepsPlaces(s);
    assert OfferChunk(s).h.ticks == s.h.ticks && OfferChunk(s).h.packets == s.h.packets;
  }

  lemma MarkMessageKeepsInv(s: State, name: string)
    requires Inv(s) && s.ws == Reading
    ensures Inv(Fire(s, MarkMessage(name)))
  {
    var t := Fire(s, MarkMessage(name));
    assert Chain(t) == Chain(s) + [|s.h.names|];
    ReceiveOnChain(Chain(s), |s.h.names|, s.h.lost);
  }

  /** The mark in wsToRTP's hand is the last of the chain and can be lost. */
  lemma LoseInHand(s: State, t: State, why: Loss)
    requires Inv(s) && s.ws.HoldingMark? && !t.ws.HoldingMark?
    requires t == Lose(s, s.ws.id, why).(ws := t.ws) && !t.ws.Chunking? && (s.relayOn ==> t.ws == Gone)
    requires why != NoName
    ensures Inv(t)
  {
    var front := s.h.echoed + s.w.markEcho + MarkIds(s.w.packetQueue);
    assert Chain(s) == front + [s.ws.id] + [];
    assert Chain(t) == front + [];
    LoseFromChain(front, s.ws.id, [], |s.h.names|, s.h.lost, why);
    assert s.ws.id in Chain(s);
  }

  lemma QueueMarkKeepsPlaces(s: State)
    requires PlaceInv(s) && s.ws.HoldingMark? && s.ws.id < |s.h.names| && !s.ws.direct && Room(s.w)
    ensures PlaceInv(PlaceMark(s))
  {
    var t := PlaceMark(s);
    forall j | 0 <= j < |t.h.accepted| && t.h.accepted[j].Mark?
      ensures var f := t.h.accepted[j];
              f.id < |t.h.names| && f.name == t.h.names[f.id] && t.h.receivedAt[f.id] <= j &&
              (j < |t.h.fates| && f.name == "" ==> f.id in t.h.lost)
    {
      assert j < |s.h.accepted| ==> t.h.accepted[j] == s.h.accepted[j];
    }
  }

  lemma QueueMarkKeepsQueue(s: State)
    requires QueueInv(s) && s.ws.HoldingMark? && s.ws.id < |s.h.names| && !s.ws.direct && Room(s.w)
    ensures QueueInv(PlaceMark(s))
  {
    var f := Mark(s.ws.id, s.h.names[s.ws.id]);
    assert (s.h.accepted + [f])[|s.h.fates|..] == s.h.accepted[|s.h.fates|..] + [f];
  }

  lemma QueueMarkKeepsAudio(s: State)
    requires AudioInv(s) && s.ws.HoldingMark? && s.ws.id < |s.h.names| && !s.ws.direct && Room(s.w)
    ensures AudioInv(PlaceMark(s))
  {
    AcceptKeepsAudio(s.(ws := Reading), Mark(s.ws.id, s.h.names[s.ws.id]));
  }

  lemma QueueMarkKeepsChain(s: State)
    requires s.ws.HoldingMark? && s.ws.id < |s.h.names| && !s.ws.direct && Room(s.w)
    ensures Chain(PlaceMark(s)) == Chain(s)
  {
    MarkIdsAppend(s.w.packetQueue, Mark(s.ws.id, s.h.names[s.ws.id]));
  }

  lemma QueueMarkKeepsInv(s: State)
    requires Inv(s) && s.ws.HoldingMark? && s.ws.id < |s.h.names| && !s.ws.direct && Room(s.w)
    ensures Inv(PlaceMark(s))
  {
    QueueMarkKeepsQueue(s);
    QueueMarkKeepsAudio(s);
    QueueMarkKeepsPlaces(s);
    QueueMarkKeepsChain(s);
  }

  lemma EchoDirectlyKeepsInv(s: State)
    requires Inv(s) && s.ws.HoldingMark? && s.ws.id < |s.h.names| && s.ws.direct
    requires |s.w.markEcho| < MARK_ECHO_QUEUE_SIZE
    ensures Inv(PlaceMark(s))
  {
    assert Chain(PlaceMark(s)) == Chain(s);
  }

  lemma PlaceMarkKeepsInv(s: State)
    requires Inv(s) && s.ws.HoldingMark? && s.ws.id < |s.h.names|
    ensures Inv(PlaceMark(s))
  {
    if s.ws.direct && |s.w.markEcho| < MARK_ECHO_QUEUE_SIZE {
      EchoDirectlyKeepsInv(s);
    } else if !s.ws.direct && Room(s.w) {
      QueueMarkKeepsInv(s);
    } else {
      LoseInHand(s, PlaceMark(s), if s.ws.direct then EchoQueueFull else PacketQueueFull);
    }
  }

  lemma EchoKeepsChain(s: State, ok: bool)
    requires s.w.markEcho != [] && MarkInv(Chain(s), |s.h.names|, s.h.lost)
    ensures var t := Fire(s, EchoMark(ok)); MarkInv(Chain(t), |t.h.names|, t.h.lost)
  {
    var m, t := s.w.markEcho[0], Fire(s, EchoMark(ok));
    var after := s.w.markEcho[1..] + MarkIds(s.w.packetQueue) + Pending(s.ws);
    RegroupEcho(s.h.echoed, s.w.markEcho[1..], m, MarkIds(s.w.packetQueue), Pending(s.ws));
    assert s.w.markEcho == [m] + s.w.markEcho[1..];
    assert Chain(s) == s.h.echoed + [m] + after;
    if ok {
      assert Chain(t) == Chain(s);
    } else {
      assert Chain(t) == s.h.echoed + after;
      LoseFromChain(s.h.echoed, m, after, |s.h.names|, s.h.lost, SendFailed);
    }
  }

  lemma EchoKeepsPlaces(s: State, ok: bool)
    requires PlaceInv(s) && s.w.markEcho != []
    ensures PlaceInv(Fire(s, EchoMark(ok)))
  {
    var t := Fire(s, EchoMark(ok));
    assert s.w.markEcho[0] in s.w.markEcho;
    forall m | m in t.h.echoed || m in t.w.markEcho
      ensures m in s.h.echoed || m in s.w.markEcho
    {
    }
  }

  lemma EchoKeepsInv(s: State, ok: bool)
    requires Inv(s) && s.w.markEcho != []
    ensures Inv(Fire(s, EchoMark(ok)))
  {
    EchoKeepsChain(s, ok);
    EchoKeepsPlaces(s, ok);
  }

  lemma MessageKeepsPieces(h: History, payload: Bytes)
    requires PiecesInv(Reading, h)
    ensures PiecesInv(if payload == [] then Reading else Chunking(payload), h.(payload := h.payload + payload))
  {
    assert Pieces(h.offers) + [] == Pieces(h.offers);
  }

  lemma MessageKeepsInv(s: State, payload: Bytes)
    requires Inv(s) && s.ws == Reading
    ensures Inv(Fire(s, MediaMessage(payload)))
  {
    MessageKeepsPieces(s.h, payload);
    assert Chain(Fire(s, MediaMessage(payload))) == Chain(s);
  }

  lemma AbandonKeepsInv(s: State)
    requires Inv(s) && s.ws.Chunking?
    ensures Inv(s.(ws := Gone, h := s.h.(offers := s.h.offers + [Abandoned(s.ws.rest)])))
  {
    var o := Abandoned(s.ws.rest);
    var t := s.(ws := Gone, h := s.h.(offers := s.h.offers + [o]));
    assert Chain(t) == Chain(s);
    PiecesSnoc(s.h.offers, o);
    assert s.ws.rest + [] == s.ws.rest;
    PieceKeepsPieces(s.ws, s.h, Gone, o);
  }

  lemma PlainStepKeepsInv(s: State, l: Label)
    requires Inv(s) && Enabled(s, l)
    requires l.ClearMessage? || l.ReaderLeaves? || l.ReaderSpawned? || l.RelayOn? || l.PacerLeaves?
    ensures Inv(Fire(s, l))
  {
    assert Chain(Fire(s, l)) == Chain(s);
  }

  lemma CalleeFrameKeepsInv(s: State, b: Bytes)
    requires Inv(s) && s.relayOn
    ensures Inv(Fire(s, CalleeFrame(b)))
  {
    if Room(s.w) {
      AcceptKeepsInv(s, Audio(b, Callee));
    } else {
      assert Chain(Fire(s, CalleeFrame(b))) == Chain(s);
    }
  }

  lemma StepKeepsInv(s: State, l: Label)
    requires Inv(s) && Enabled(s, l)
    ensures Inv(Fire(s, l))
  {
    match l
    case MediaMessage(payload) => MessageKeepsInv(s, payload);
    case NextChunk => OfferKeepsInv(s);
    case LeaveMidMessage => AbandonKeepsInv(s);
    case MarkMessage(name) => MarkMessageKeepsInv(s, name);
    case DeliverMark => PlaceMarkKeepsInv(s);
    case LeaveHoldingMark => LoseInHand(s, Fire(s, l), ReaderLeft);
    case CalleeFrame(b) => CalleeFrameKeepsInv(s, b);
    case Tick(outcome, silence) => TickStepKeepsInv(s, outcome, silence);
    case EchoMark(ok) => EchoKeepsInv(s, ok);
    case _ => PlainStepKeepsInv(s, l);
  }

  lemma ApplyKeepsInv(s: State, l: Label)
    requires Inv(s)
    ensures Inv(Apply(s, l))
  {
    if Enabled(s, l) {
      StepKeepsInv(s, l);
    }
  }

  lemma InitInv()
    ensures Inv(Init())
  {
    var s := Init();
    assert Chain(s) == [];
    assert QueueInv(s) && AudioInv(s);
    assert RtpInv(s.w, s.h);
    assert PlaceInv(s);
  }

  lemma {:induction false} ExecInv(labels: seq<Label>)
    ensures Inv(Exec(labels))
  {
    if labels == [] {
      InitInv();
    } else {
      ExecInv(labels[..|labels| - 1]);
      ApplyKeepsInv(Exec(labels[..|labels| - 1]), labels[|labels| - 1]);
    }
  }

  lemma ExecSnoc(labels: seq<Label>, l: Label)
    ensures Exec(labels + [l]) == Apply(Exec(labels), l)
  {
    assert (labels + [l])[..|labels|] == labels;
  }

  // ---------------------------------------------------------------------------------------------
  // Main results

  /** Marks echoed, then marks awaiting echo, then marks behind audio, are in the order in which
      they were received, and a received mark is on its way exactly when it has not been lost. */
  lemma {:induction false} MarksKeepTheirOrder(labels: seq<Label>)
    ensures var s := Exec(labels);
            Ascending(s.h.echoed + s.w.markEcho + MarkIds(s.w.packetQueue)) &&
            forall m: nat :: m in s.h.echoed + s.w.markEcho + MarkIds(s.w.packetQueue) + Pending(s.ws)
                             <==> m < |s.h.names| && m !in s.h.lost
  {
    ExecInv(labels);
    var s := Exec(labels);
    var front := s.h.echoed + s.w.markEcho + MarkIds(s.w.packetQueue);
    assert forall i :: 0 <= i < |front| ==> front[i] == Chain(s)[i];
  }

  /** A mark is only echoed, or put up for echo, after every frame that had been accepted when it
      came in was sent, discarded or lost. */
  lemma {:induction false} MarksWaitForAudio(labels: seq<Label>, m: nat, i: nat)
    requires m in Exec(labels).h.echoed || m in Exec(labels).w.markEcho
    requires m < |Exec(labels).h.receivedAt| && i < Exec(labels).h.receivedAt[m]
    ensures i < |Exec(labels).h.fates| <= |Exec(labels).h.accepted|
    ensures FateFits(Exec(labels).h.accepted[i], Exec(labels).h.fates[i])
  {
    ExecInv(labels);
  }

  lemma {:induction false} ExecAudioInv(labels: seq<Label>)
    ensures QueueInv(Exec(labels)) && AudioInv(Exec(labels))
  {
    ExecInv(labels);
  }

  /** Accepted frames are the retired ones followed by the queued ones; what was transmitted is, in
      order, what the voiced packets carry; what the bot got onto the queue is, in order, the pieces
      of its messages that found room; and all pieces together are the bytes it sent. */
  lemma {:induction false} AudioIsConserved(labels: seq<Label>)
    ensures var s := Exec(labels);
            |s.h.fates| <= |s.h.accepted| &&
            s.h.accepted == s.h.accepted[..|s.h.fates|] + s.w.packetQueue &&
            SentBytes(s.h.accepted, s.h.fates) == Voiced(s.h.packets) &&
            BotAudio(s.h.accepted) == TakenPieces(s.h.offers) &&
            Pieces(s.h.offers) + Rest(s.ws) == s.h.payload &&
            forall o :: o in s.h.offers && !o.Abandoned? ==> 1 <= |o.bytes| <= RTP_FRAME_SIZE
  {
    ExecAudioInv(labels);
    forall o | o in Exec(labels).h.offers
      ensures PieceFits(o)
    {
      var i :| 0 <= i < |Exec(labels).h.offers| && Exec(labels).h.offers[i] == o;
    }
  }

  /** The step puts an entry on packetQueue, or finds it full. */
  predicate Puts(s: State, l: Label) {
    Enabled(s, l) && (l.NextChunk? || l.CalleeFrame? || (l.DeliverMark? && !s.ws.direct))
  }

  /** How many entries the run has offered to packetQueue, by whichever goroutine. */
  function Offered(labels: seq<Label>): nat {
    if labels == [] then 0
    else
      var front := labels[..|labels| - 1];
      Offered(front) + (if Puts(Exec(front), labels[|labels| - 1]) then 1 else 0)
  }

  /** Nothing was refused: no piece of a message, no mark, no frame of the callee. */
  ghost predicate NothingRefused(h: History) {
    && (forall i :: 0 <= i < |h.offers| ==> !h.offers[i].Dropped?)
    && (forall m :: m in h.lost ==> h.lost[m] != PacketQueueFull)
    && h.calleeDropped == 0
  }

  /** At most 500 entries have been offered and have not yet left the queue. */
  predicate BacklogFitsNow(labels: seq<Label>) {
    Offered(labels) <= |Exec(labels).h.fates| + PACKET_QUEUE_SIZE
  }

  /** At no time of the run more than that. */
  ghost predicate BacklogFits(labels: seq<Label>) {
    forall n :: 0 <= n <= |labels| ==> BacklogFitsNow(labels[..n])
  }

  lemma PutIsTakenOrRefused(s: State, l: Label)
    requires Inv(s) && Puts(s, l)
    ensures var t := Fire(s, l);
            && t.h.fates == s.h.fates
            && (Room(s.w) ==> |t.h.accepted| == |s.h.accepted| + 1 && (NothingRefused(s.h) ==> NothingRefused(t.h)))
            && (!Room(s.w) ==> !NothingRefused(t.h))
  {
    var t := Fire(s, l);
    match l
    case NextChunk =>
      var n := |s.h.offers|;
      assert |t.h.offers| == n + 1 && forall i :: 0 <= i < n ==> t.h.offers[i] == s.h.offers[i];
      assert t.h.offers[n].Dropped? <==> !Room(s.w);
    case DeliverMark =>
      assert !Room(s.w) ==> s.ws.id in t.h.lost && t.h.lost[s.ws.id] == PacketQueueFull;
    case CalleeFrame(_) =>
  }

  /** The step neither accepts nor refuses anything. */
  ghost predicate SameRefusals(s: State, t: State) {
    t.h.accepted == s.h.accepted && (NothingRefused(s.h) <==> NothingRefused(t.h))
  }

  lemma LosingIsNoRefusal(s: State, m: nat, why: Loss)
    requires m !in s.h.lost && why != PacketQueueFull
    ensures SameRefusals(s, Lose(s, m, why))
  {
    var t := Lose(s, m, why);
    assert forall i :: i in s.h.lost ==> i in t.h.lost && t.h.lost[i] == s.h.lost[i];
  }

  lemma {:induction false} MarkIdsHas(q: seq<Frame>, i: nat)
    requires i < |q| && q[i].Mark?
    ensures q[i].id in MarkIds(q)
  {
    if i > 0 {
      MarkIdsHas(q[1..], i - 1);
    }
  }

  lemma HeadMarkIsNotLost(s: State)
    requires Inv(s) && s.w.packetQueue != [] && s.w.packetQueue[0].Mark?
    ensures s.w.packetQueue[0].id !in s.h.lost
  {
    MarkIdsHas(s.w.packetQueue, 0);
    assert s.w.packetQueue[0].id in Chain(s);
  }

  lemma RetireMarkRefusesNothing(s: State)
    requires Inv(s) && s.w.packetQueue != [] && s.w.packetQueue[0].Mark?
    ensures SameRefusals(s, RetireMark(s))
  {
    var f := s.w.packetQueue[0];
    HeadMarkIsNotLost(s);
    LosingIsNoRefusal(Retire(s, Swallowed), f.id, NoName);
    LosingIsNoRefusal(Retire(s, EchoFull), f.id, EchoQueueFull);
  }

  lemma ClearHeadRefusesNothing(s: State)
    requires Inv(s) && s.w.packetQueue != []
    ensures SameRefusals(s, ClearHead(s))
  {
    if s.w.packetQueue[0].Mark? {
      RetireMarkRefusesNothing(s);
    }
  }

  lemma RefusalsChain(s: State, t: State, u: State)
    requires SameRefusals(s, t) && SameRefusals(t, u)
    ensures SameRefusals(s, u)
  {
  }

  lemma {:induction false} DrainRefusesNothing(s: State)
    requires Inv(s)
    ensures SameRefusals(s, Drain(s))
    decreases |s.w.packetQueue|
  {
    if s.w.packetQueue != [] {
      var t := ClearHead(s);
      DrainStep(s);
      ClearHeadRefusesNothing(s);
      ClearHeadKeepsInv(s);
      DrainRefusesNothing(t);
      RefusalsChain(s, t, Drain(t));
    }
  }

  /** An emitted packet is no part of what SameRefusals looks at. */
  lemma EmitRefusesNothing(s: State, payload: Bytes, silence: bool, outcome: Outcome)
    ensures SameRefusals(s, Emit(s, payload, silence, outcome))
  {
  }

  lemma FrameRefusesNothing(s: State, outcome: Outcome)
    requires s.w.packetQueue != [] && s.w.packetQueue[0].Audio?
    ensures var fate := if outcome == SendOk then Transmitted else SendLost;
            SameRefusals(s, Emit(Retire(s, fate), s.w.packetQueue[0].bytes, false, outcome))
  {
  }

  lemma TickRefusesNothing(s: State, outcome: Outcome, silence: Bytes)
    requires Inv(s)
    ensures SameRefusals(s, TickAfterClear(s, outcome, silence))
  {
    if s.w.packetQueue == [] {
      EmitRefusesNothing(s, silence, true, outcome);
    } else if s.w.packetQueue[0].Mark? {
      RetireMarkRefusesNothing(s);
      EmitRefusesNothing(RetireMark(s), silence, true, outcome);
    } else {
      FrameRefusesNothing(s, outcome);
    }
  }

  lemma TickStepRefusesNothing(s: State, outcome: Outcome, silence: Bytes)
    requires Inv(s)
    ensures SameRefusals(s, TickStep(s, outcome, silence))
  {
    if s.w.clear {
      var t := s.(w := s.w.(clear := false));
      ClearedKeepsInv(s);
      DrainKeepsInv(t);
      DrainRefusesNothing(t);
      TickRefusesNothing(Drain(t), outcome, silence);
    } else {
      TickRefusesNothing(s, outcome, silence);
    }
  }

  lemma HandMarkIsNotLost(s: State)
    requires Inv(s) && s.ws.HoldingMark?
    ensures s.ws.id !in s.h.lost
  {
    var front := s.h.echoed + s.w.markEcho + MarkIds(s.w.packetQueue);
    assert Chain(s) == front + [s.ws.id];
    assert s.ws.id in Chain(s);
  }

  lemma EchoRefusesNothing(s: State, ok: bool)
    requires Inv(s) && s.w.markEcho != []
    ensures SameRefusals(s, Fire(s, EchoMark(ok)))
  {
    var m := s.w.markEcho[0];
    assert m in s.w.markEcho && m in Chain(s);
    LosingIsNoRefusal(s.(w := s.w.(markEcho := s.w.markEcho[1..])), m, SendFailed);
  }

  lemma AbandonRefusesNothing(s: State)
    requires s.ws.Chunking?
    ensures SameRefusals(s, s.(ws := Gone, h := s.h.(offers := s.h.offers + [Abandoned(s.ws.rest)])))
  {
    var offers := s.h.offers + [Abandoned(s.ws.rest)];
    assert forall i :: 0 <= i < |s.h.offers| ==> offers[i] == s.h.offers[i];
  }

  lemma OtherStepsRefuseNothing(s: State, l: Label)
    requires Inv(s) && Enabled(s, l) && !Puts(s, l)
    ensures SameRefusals(s, Fire(s, l))
  {
    match l
    case Tick(outcome, silence) => TickStepRefusesNothing(s, outcome, silence);
    case EchoMark(ok) => EchoRefusesNothing(s, ok);
    case LeaveMidMessage => AbandonRefusesNothing(s);
    case DeliverMark =>
      HandMarkIsNotLost(s);
      LosingIsNoRefusal(s.(ws := Reading), s.ws.id, EchoQueueFull);
    case LeaveHoldingMark =>
      HandMarkIsNotLost(s);
      LosingIsNoRefusal(s.(ws := Gone), s.ws.id, ReaderLeft);
    case _ =>
  }

  /** What a refusal-free state tells about the offers so far. */
  ghost predicate AllAccepted(labels: seq<Label>) {
    NothingRefused(Exec(labels).h) ==> |Exec(labels).h.accepted| == Offered(labels)
  }

  lemma {:induction false} QueueBacklog(labels: seq<Label>)
    ensures |Exec(labels).h.accepted| == |Exec(labels).h.fates| + |Exec(labels).w.packetQueue|
    ensures |Exec(labels).w.packetQueue| <= PACKET_QUEUE_SIZE
  {
    ExecInv(labels);
  }

  lemma PutForgetsNothing(s: State, l: Label)
    requires Inv(s) && Puts(s, l) && !NothingRefused(s.h)
    ensures !NothingRefused(Fire(s, l).h)
  {
    var t := Fire(s, l);
    if l.DeliverMark? {
      HandMarkIsNotLost(s);
      assert forall m :: m in s.h.lost ==> m in t.h.lost && t.h.lost[m] == s.h.lost[m];
    }
    if l.NextChunk? {
      assert forall i :: 0 <= i < |s.h.offers| ==> t.h.offers[i] == s.h.offers[i];
    }
  }

  /** One step of a run: from a refusal-free run it leads to a refusal exactly if the entry it offers
      does not fit, and a refusal is never taken back. */
  lemma {:induction false} RefusalStep(labels: seq<Label>)
    requires labels != [] && AllAccepted(labels[..|labels| - 1])
    ensures AllAccepted(labels)
    ensures NothingRefused(Exec(labels).h) <==>
              NothingRefused(Exec(labels[..|labels| - 1]).h) && BacklogFitsNow(labels)
  {
    var front, l := labels[..|labels| - 1], labels[|labels| - 1];
    var s := Exec(front);
    ExecInv(front);
    QueueBacklog(front);
    QueueBacklog(labels);
    if Puts(s, l) {
      PutIsTakenOrRefused(s, l);
      if !NothingRefused(s.h) {
        PutForgetsNothing(s, l);
      }
    } else if Enabled(s, l) {
      OtherStepsRefuseNothing(s, l);
    }
  }

  lemma BacklogFitsSnoc(labels: seq<Label>)
    requires labels != []
    ensures BacklogFits(labels) <==> BacklogFits(labels[..|labels| - 1]) && BacklogFitsNow(labels)
  {
    var front := labels[..|labels| - 1];
    assert labels[..|labels|] == labels;
    assert forall n :: 0 <= n <= |front| ==> labels[..n] == front[..n];
    if BacklogFits(labels) {
      assert BacklogFitsNow(labels[..|labels|]);
    }
  }

  lemma {:induction false} RefusalsFollowBacklog(labels: seq<Label>)
    ensures AllAccepted(labels) && (NothingRefused(Exec(labels).h) <==> BacklogFits(labels))
  {
    if labels == [] {
      assert labels[..0] == [];
    } else {
      RefusalsFollowBacklog(labels[..|labels| - 1]);
      RefusalStep(labels);
      BacklogFitsSnoc(labels);
    }
  }

  /** In every run: no piece of a message, no mark and no frame of the callee is ever refused if and only
      if at no time more than 500 entries have been offered and not yet sent, lost or discarded. */
  lemma {:induction false} NothingIsRefusedIff(labels: seq<Label>)
    ensures NothingRefused(Exec(labels).h) <==> BacklogFits(labels)
  {
    RefusalsFollowBacklog(labels);
  }

  /** The bot sends k messages of one frame each before the first tick. */
  function Burst(k: nat, b: bv8): seq<Label> {
    if k == 0 then [ReaderSpawned] else Burst(k - 1, b) + [MediaMessage([b])] + [NextChunk]
  }

  lemma OneMoreFrame(s: State, b: bv8)
    requires s.ws == Reading
    ensures var t := Apply(Apply(s, MediaMessage([b])), NextChunk);
            && t.ws == Reading && t.h.fates == s.h.fates && t.h.lost == s.h.lost && t.h.calleeDropped == s.h.calleeDropped
            && t.w.packetQueue == (if Room(s.w) then s.w.packetQueue + [Audio([b], Bot)] else s.w.packetQueue)
            && t.h.offers == s.h.offers + [if Room(s.w) then Taken([b]) else Dropped([b])]
  {
  }

  ghost predicate AfterBurst(s: State, k: nat) {
    && s.ws == Reading && s.h.fates == [] && s.h.lost == map[] && s.h.calleeDropped == 0
    && |s.w.packetQueue| == (if k <= PACKET_QUEUE_SIZE then k else PACKET_QUEUE_SIZE)
    && |s.h.offers| == k
    && forall i :: 0 <= i < k ==> (s.h.offers[i].Dropped? <==> i >= PACKET_QUEUE_SIZE)
  }

  lemma BurstGoesOn(s: State, k: nat, b: bv8)
    requires AfterBurst(s, k)
    ensures AfterBurst(Apply(Apply(s, MediaMessage([b])), NextChunk), k + 1)
  {
    OneMoreFrame(s, b);
  }

  lemma BurstStarts()
    ensures AfterBurst(Apply(Init(), ReaderSpawned), 0)
  {
  }

  lemma ExecTwo(labels: seq<Label>, l: Label, m: Label)
    ensures Exec(labels + [l] + [m]) == Apply(Apply(Exec(labels), l), m)
  {
    ExecSnoc(labels, l);
    ExecSnoc(labels + [l], m);
  }

  lemma {:induction false} BurstState(k: nat, b: bv8) returns (run: seq<Label>, s: State)
    ensures run == Burst(k, b) && s == Exec(run) && AfterBurst(s, k)
  {
    if k == 0 {
      run, s := [] + [ReaderSpawned], Apply(Init(), ReaderSpawned);
      ExecSnoc([], ReaderSpawned);
      BurstStarts();
    } else {
      var before, t := BurstState(k - 1, b);
      run, s := before + [MediaMessage([b])] + [NextChunk], Apply(Apply(t, MediaMessage([b])), NextChunk);
      ExecTwo(before, MediaMessage([b]), NextChunk);
      BurstGoesOn(t, k - 1, b);
    }
  }

  /** The bound is attained: 500 frames at once all find room, the 501st does not. */
  lemma BurstIsRefusedIff(k: nat, b: bv8)
    ensures NothingRefused(Exec(Burst(k, b)).h) <==> k <= PACKET_QUEUE_SIZE
  {
    var _, s := BurstState(k, b);
    if k > PACKET_QUEUE_SIZE {
      assert s.h.offers[PACKET_QUEUE_SIZE].Dropped?;
    }
  }

  // What each step of a run does, told by the state it finds

  /** From s to t one tick has been served with the queue q: one packet for a frame at the head or for silence,
      none for a mark with a name, and none if sending fails. Only a frame whose packet failed is lost. */
  ghost predicate Ticked(s: State, t: State, q: seq<Frame>, outcome: Outcome, silence: Bytes) {
    var mark := q != [] && q[0].Mark? && q[0].name != "";
    var frame := q != [] && q[0].Audio?;
    && t.w.packetQueue == (if q == [] then [] else q[1..])
    && t.h.accepted == s.h.accepted
    && t.h.packets == (if mark || outcome != SendOk then s.h.packets
                       else s.h.packets + [Packet(Rtp(s.w.seqNo, s.w.timestamp, if frame then q[0].bytes else silence),
                                                  s.h.ticks, !frame)])
    && t.h.ticks == s.h.ticks + (if mark || outcome == SendOk || outcome == EncryptFails then 1 else 0)
    && t.w.pacing == (mark || outcome != WriteFails)
    && (frame ==> t.h.fates == s.h.fates + [if outcome == SendOk then Transmitted else SendLost])
  }

  /** In every run a tick of rtpPacer finds the queue as it is, or emptied by a clear. */
  lemma {:induction false} TickIsExact(labels: seq<Label>, outcome: Outcome, silence: Bytes)
    requires Exec(labels).w.pacing
    ensures var s, t := Exec(labels), Exec(labels + [Tick(outcome, silence)]);
            Ticked(s, t, if s.w.clear then [] else s.w.packetQueue, outcome, silence) && !t.w.clear
  {
    ExecSnoc(labels, Tick(outcome, silence));
    StepIsExact(Exec(labels), outcome, silence);
  }

  lemma StepIsExact(s: State, outcome: Outcome, silence: Bytes)
    requires s.w.pacing
    ensures var t := TickStep(s, outcome, silence);
            Ticked(s, t, if s.w.clear then [] else s.w.packetQueue, outcome, silence) && !t.w.clear
  {
    if s.w.clear {
      var u := s.(w := s.w.(clear := false));
      DrainKeepsRest(u);
      DrainTransmitsNothing(u);
      AfterClearIsExact(Drain(u), outcome, silence);
    } else {
      AfterClearIsExact(s, outcome, silence);
    }
  }

  lemma AfterClearIsExact(s: State, outcome: Outcome, silence: Bytes)
    requires s.w.pacing
    ensures var t := TickAfterClear(s, outcome, silence);
            Ticked(s, t, s.w.packetQueue, outcome, silence) && t.w.clear == s.w.clear
  {
    if s.w.packetQueue == [] {
      EmitIsExact(s, silence, true, outcome);
    } else if s.w.packetQueue[0].Audio? {
      EmitIsExact(Retire(s, if outcome == SendOk then Transmitted else SendLost), s.w.packetQueue[0].bytes, false, outcome);
    } else {
      MarkRetires(s);
      EmitIsExact(RetireMark(s), silence, true, outcome);
    }
  }

  lemma EmitIsExact(s: State, payload: Bytes, quiet: bool, outcome: Outcome)
    requires s.w.pacing
    ensures var t := Emit(s, payload, quiet, outcome);
            && t.w.packetQueue == s.w.packetQueue && t.w.clear == s.w.clear
            && t.h.accepted == s.h.accepted && t.h.fates == s.h.fates
            && t.h.packets == (if outcome == SendOk
                               then s.h.packets + [Packet(Rtp(s.w.seqNo, s.w.timestamp, payload), s.h.ticks, quiet)]
                               else s.h.packets)
            && t.h.ticks == s.h.ticks + (if outcome == SendOk || outcome == EncryptFails then 1 else 0)
            && t.w.pacing == (outcome != WriteFails)
  {
  }

  lemma MarkRetires(s: State)
    requires s.w.packetQueue != [] && s.w.packetQueue[0].Mark?
    ensures var t := RetireMark(s);
            && t.w == s.w.(packetQueue := s.w.packetQueue[1..], markEcho := t.w.markEcho)
            && t.h == s.h.(fates := t.h.fates, lost := t.h.lost)
  {
  }

  lemma {:induction false} DrainKeepsRest(s: State)
    ensures var t := Drain(s);
            && t.ws == s.ws && t.w.clear == s.w.clear && t.w.seqNo == s.w.seqNo && t.w.timestamp == s.w.timestamp
            && t.h.names == s.h.names && t.h.ticks == s.h.ticks && t.h.packets == s.h.packets && t.w.pacing == s.w.pacing
    decreases |s.w.packetQueue|
  {
    if s.w.packetQueue != [] {
      DrainStep(s);
      DrainKeepsRest(ClearHead(s));
    }
  }

  /** Which marks go to wsPacer and which are lost when these frames leave the queue, first to last. */
  datatype Marks = Marks(echo: seq<nat>, lost: map<nat, Loss>)

  function HandOver(q: seq<Frame>, m: Marks): Marks {
    if q == [] then m
    else HandOver(q[1..],
                  if q[0].Audio? then m
                  else if q[0].name == "" then m.(lost := m.lost[q[0].id := NoName])
                  else if |m.echo| < 10 then m.(echo := m.echo + [q[0].id])
                  else m.(lost := m.lost[q[0].id := EchoQueueFull]))
  }

  lemma HeadIsHandedOver(s: State)
    requires s.w.packetQueue != [] && s.w.packetQueue[0].Mark?
    ensures var t := RetireMark(s);
            Marks(t.w.markEcho, t.h.lost) == HandOver(s.w.packetQueue[..1], Marks(s.w.markEcho, s.h.lost))
  {
    var q := s.w.packetQueue[..1];
    assert q[1..] == [] && q[0] == s.w.packetQueue[0];
  }

  lemma {:induction false} DrainHandsOver(s: State)
    ensures var t := Drain(s);
            Marks(t.w.markEcho, t.h.lost) == HandOver(s.w.packetQueue, Marks(s.w.markEcho, s.h.lost))
    decreases |s.w.packetQueue|
  {
    if s.w.packetQueue != [] {
      DrainStep(s);
      DrainHandsOver(ClearHead(s));
    }
  }

  lemma AfterClearHandsOver(s: State, outcome: Outcome, silence: Bytes)
    ensures var q, t := s.w.packetQueue, TickAfterClear(s, outcome, silence);
            Marks(t.w.markEcho, t.h.lost) == HandOver(if q == [] then [] else q[..1], Marks(s.w.markEcho, s.h.lost))
  {
    var q := s.w.packetQueue;
    if q != [] {
      assert q[..1][1..] == [] && q[..1][0] == q[0];
      if q[0].Mark? {
        HeadIsHandedOver(s);
      }
    }
  }

  /** The tick that serves a clear hands over all named marks of the queue, as far as ten wait; any other tick
      at most the one at the head. */
  lemma {:induction false} TickHandsOver(labels: seq<Label>, outcome: Outcome, silence: Bytes)
    requires Exec(labels).w.pacing
    ensures var s, t := Exec(labels), Exec(labels + [Tick(outcome, silence)]);
            var q := s.w.packetQueue;
            Marks(t.w.markEcho, t.h.lost)
            == HandOver(if s.w.clear || q == [] then q else q[..1], Marks(s.w.markEcho, s.h.lost))
  {
    ExecSnoc(labels, Tick(outcome, silence));
    var s := Exec(labels);
    if s.w.clear {
      var u := s.(w := s.w.(clear := false));
      DrainHandsOver(u);
      AfterClearHandsOver(Drain(u), outcome, silence);
    } else {
      AfterClearHandsOver(s, outcome, silence);
    }
  }

  /** Readers and pacer come and go without touching what is queued. */
  lemma {:induction false} ComingsAndGoings(labels: seq<Label>)
    ensures var s := Exec(labels);
            && Exec(labels + [ReaderLeaves]) == (if s.ws == Reading then s.(ws := Gone) else s)
            && Exec(labels + [ReaderSpawned]) == (if s.ws == Gone && !s.relayOn then s.(ws := Reading) else s)
            && Exec(labels + [RelayOn]) == (if s.ws == Gone then s.(relayOn := true) else s)
            && Exec(labels + [PacerLeaves]) == s.(w := s.w.(pacing := false))
  {
    ExecSnoc(labels, ReaderLeaves);
    ExecSnoc(labels, ReaderSpawned);
    ExecSnoc(labels, RelayOn);
    ExecSnoc(labels, PacerLeaves);
  }

  /** A reader may leave in the middle of a message, or with a mark in hand, which is then lost. */
  lemma {:induction false} ReaderGivesUp(labels: seq<Label>)
    ensures var s, t, u := Exec(labels), Exec(labels + [LeaveMidMessage]), Exec(labels + [LeaveHoldingMark]);
            && t.w == s.w && t.ws == (if s.ws.Chunking? then Gone else s.ws)
            && u.w == s.w
            && (s.ws.HoldingMark? && !s.ws.direct ==> u.ws == Gone && u.h.lost == s.h.lost[s.ws.id := ReaderLeft])
  {
    ExecInv(labels);
    ExecSnoc(labels, LeaveMidMessage);
    ExecSnoc(labels, LeaveHoldingMark);
  }

  lemma AfterClearKeepsFates(s: State, outcome: Outcome, silence: Bytes)
    ensures s.h.fates <= TickAfterClear(s, outcome, silence).h.fates
  {
    var q := s.w.packetQueue;
    if q != [] {
      EmitKeepsFates(Retire(s, if outcome == SendOk then Transmitted else SendLost), if q[0].Audio? then q[0].bytes else [], false, outcome);
    }
    if q != [] && q[0].Mark? {
      EmitKeepsFates(RetireMark(s), silence, true, outcome);
    }
    EmitKeepsFates(s, silence, true, outcome);
  }

  lemma EmitKeepsFates(s: State, payload: Bytes, quiet: bool, outcome: Outcome)
    ensures Emit(s, payload, quiet, outcome).h.fates == s.h.fates
  {
  }

  /** What became of a frame stands. */
  lemma {:induction false} FatesStand(labels: seq<Label>, l: Label)
    ensures Exec(labels).h.fates <= Exec(labels + [l]).h.fates
  {
    ExecSnoc(labels, l);
    var s := Exec(labels);
    if l.Tick? && s.w.pacing {
      var u := if s.w.clear then Drain(s.(w := s.w.(clear := false))) else s;
      if s.w.clear {
        DrainTransmitsNothing(s.(w := s.w.(clear := false)));
      }
      AfterClearKeepsFates(u, l.outcome, l.silence);
    }
  }

  /** Nothing else sends a packet, takes a frame from the queue or counts a tick. */
  lemma {:induction false} OnlyTicksSend(labels: seq<Label>, l: Label)
    requires !l.Tick?
    ensures var s, t := Exec(labels), Exec(labels + [l]);
            && t.h.packets == s.h.packets && t.h.fates == s.h.fates && t.h.ticks == s.h.ticks
            && t.w.seqNo == s.w.seqNo && t.w.timestamp == s.w.timestamp
            && s.w.packetQueue <= t.w.packetQueue
  {
    ExecSnoc(labels, l);
  }

  /** A message is cut into frames of 160 bytes, the last one shorter, each queued behind the others unless
      500 entries wait. */
  lemma {:induction false} ChunkIsExact(labels: seq<Label>)
    requires Exec(labels).ws.Chunking?
    ensures var s, t := Exec(labels), Exec(labels + [NextChunk]);
            var n := if |s.ws.rest| > 160 then 160 else |s.ws.rest|;
            && t.ws == (if n == |s.ws.rest| then Reading else Chunking(s.ws.rest[n..]))
            && t.w.packetQueue == (if |s.w.packetQueue| < 500 then s.w.packetQueue + [Audio(s.ws.rest[..n], Bot)]
                                   else s.w.packetQueue)
  {
    ExecInv(labels);
    ExecSnoc(labels, NextChunk);
    var rest := Exec(labels).ws.rest;
    assert |Chunk(rest)| == (if |rest| > 160 then 160 else |rest|);
    assert rest[|Chunk(rest)|..] == [] <==> |Chunk(rest)| == |rest|;
    assert rest[..|rest|] == rest;
  }

  lemma {:induction false} MessageIsExact(labels: seq<Label>, payload: Bytes)
    requires Exec(labels).ws == Reading
    ensures var s, t := Exec(labels), Exec(labels + [MediaMessage(payload)]);
            t.ws == (if payload == [] then Reading else Chunking(payload)) && t.w == s.w
  {
    ExecSnoc(labels, MediaMessage(payload));
  }

  /** A mark that finds the queue empty goes to wsPacer directly, one that does not goes behind the audio; it
      is lost only where it finds no room. */
  lemma {:induction false} MarkIsExact(labels: seq<Label>, name: string)
    requires Exec(labels).ws == Reading
    ensures var s, t, u := Exec(labels), Exec(labels + [MarkMessage(name)]), Exec(labels + [MarkMessage(name)] + [DeliverMark]);
            var m, direct := |s.h.names|, s.w.packetQueue == [];
            && t.h.names == s.h.names + [name] && t.w == s.w && u.ws == Reading && u.h.names == t.h.names
            && u.w.packetQueue == (if !direct && |s.w.packetQueue| < 500 then s.w.packetQueue + [Mark(m, name)]
                                   else s.w.packetQueue)
            && u.w.markEcho == (if direct && |s.w.markEcho| < 10 then s.w.markEcho + [m] else s.w.markEcho)
            && u.h.lost == (if direct && |s.w.markEcho| >= 10 then s.h.lost[m := EchoQueueFull]
                            else if !direct && |s.w.packetQueue| >= 500 then s.h.lost[m := PacketQueueFull] else s.h.lost)
  {
    ExecSnoc(labels, MarkMessage(name));
    ExecSnoc(labels + [MarkMessage(name)], DeliverMark);
  }

  /** While the mark waits to be delivered, what was decided on its receipt stands. */
  lemma {:induction false} HeldMarkStands(labels: seq<Label>, l: Label)
    requires Exec(labels).ws.HoldingMark? && l != DeliverMark && l != LeaveHoldingMark
    ensures Exec(labels + [l]).ws == Exec(labels).ws
  {
    ExecInv(labels);
    ExecSnoc(labels, l);
    DrainKeepsRest(Exec(labels).(w := Exec(labels).w.(clear := false)));
  }

  /** wsPacer echoes the oldest mark, or loses it to a failed write. */
  lemma {:induction false} EchoIsExact(labels: seq<Label>, ok: bool)
    requires Exec(labels).w.markEcho != []
    ensures var s, t := Exec(labels), Exec(labels + [EchoMark(ok)]);
            && t.w == s.w.(markEcho := s.w.markEcho[1..])
            && t.h.echoed == (if ok then s.h.echoed + [s.w.markEcho[0]] else s.h.echoed)
            && t.h.lost == (if ok then s.h.lost else s.h.lost[s.w.markEcho[0] := SendFailed])
  {
    ExecSnoc(labels, EchoMark(ok));
  }

  /** A frame of the callee joins the queue unless 500 entries wait. */
  lemma {:induction false} CalleeFrameIsExact(labels: seq<Label>, bytes: Bytes)
    requires Exec(labels).relayOn
    ensures var s, t := Exec(labels), Exec(labels + [CalleeFrame(bytes)]);
            var room := |s.w.packetQueue| < 500;
            && t.w == (if room then s.w.(packetQueue := s.w.packetQueue + [Audio(bytes, Callee)]) else s.w)
            && t.h.calleeDropped == (if room then s.h.calleeDropped else s.h.calleeDropped + 1)
  {
    ExecSnoc(labels, CalleeFrame(bytes));
  }

  lemma AllAreRetired(labels: seq<Label>)
    requires Exec(labels).w.packetQueue == []
    ensures |Exec(labels).h.fates| == |Exec(labels).h.accepted|
  {
    ExecInv(labels);
  }

  /** A clear message is served by the next tick: whatever was queued is gone, and silence is sent. */
  lemma {:induction false} ClearIsServed(labels: seq<Label>, silence: Bytes)
    requires Exec(labels).ws == Reading && Exec(labels).w.pacing
    ensures var s, t := Exec(labels), Exec(labels + [ClearMessage] + [Tick(SendOk, silence)]);
            && t.w.packetQueue == [] && t.h.accepted == s.h.accepted && |t.h.fates| == |s.h.accepted|
            && t.h.packets == s.h.packets + [Packet(Rtp(s.w.seqNo, s.w.timestamp, silence), s.h.ticks, true)]
  {
    ExecSnoc(labels, ClearMessage);
    var cleared := labels + [ClearMessage];
    TickIsExact(cleared, SendOk, silence);
    AllAreRetired(cleared + [Tick(SendOk, silence)]);
  }

  /** Nothing that was buffered when a clear is served is transmitted: the tick empties the queue,
      and each buffered frame is discarded or, if it is a mark, passed on. */
  lemma ClearDiscardsBufferedAudio(labels: seq<Label>, outcome: Outcome, silence: Bytes)
    requires Exec(labels).w.clear
    ensures var s := Exec(labels);
            var t := TickStep(s, outcome, silence);
            t.w.packetQueue == [] && |t.h.fates| == |s.h.accepted| == |t.h.accepted| &&
            forall i :: |s.h.fates| <= i < |t.h.fates| ==> t.h.fates[i] != Transmitted && t.h.fates[i] != SendLost
  {
    ExecInv(labels);
    var s := Exec(labels);
    var u := s.(w := s.w.(clear := false));
    ClearedKeepsInv(s);
    DrainKeepsInv(u);
    DrainTransmitsNothing(u);
    SilentTick(Drain(u), outcome, silence);
  }

  lemma SilentTick(s: State, outcome: Outcome, silence: Bytes)
    requires s.w.packetQueue == []
    ensures var t := TickAfterClear(s, outcome, silence);
            t.w.packetQueue == [] && t.h.fates == s.h.fates && t.h.accepted == s.h.accepted
  {
  }

  lemma {:induction false} DrainTransmitsNothing(s: State)
    ensures Drain(s).h.accepted == s.h.accepted && s.h.fates <= Drain(s).h.fates
    ensures forall i :: |s.h.fates| <= i < |Drain(s).h.fates| ==>
              Drain(s).h.fates[i] != Transmitted && Drain(s).h.fates[i] != SendLost
    decreases |s.w.packetQueue|
  {
    if s.w.packetQueue != [] {
      var t := ClearHead(s);
      assert t.h.fates[..|s.h.fates|] == s.h.fates;
      assert t.h.fates[|s.h.fates|] != Transmitted && t.h.fates[|s.h.fates|] != SendLost;
      assert Drain(s) == Drain(t);
      DrainTransmitsNothing(t);
    }
  }

  function Concat(parts: seq<Bytes>): Bytes {
    if parts == [] then [] else Concat(parts[..|parts| - 1]) + parts[|parts| - 1]
  }

  lemma {:induction false} AllTaken(offers: seq<Offer>)
    requires forall o :: o in offers ==> o.Taken?
    ensures Concat(TakenPieces(offers)) == Pieces(offers)
  {
    if offers != [] {
      var n := |offers| - 1;
      AllTaken(offers[..n]);
      assert offers[n] in offers;
      assert TakenPieces(offers)[..|TakenPieces(offers[..n])|] == TakenPieces(offers[..n]);
    }
  }

  /** With no frame refused, the frames the bot got onto the queue are its payloads, byte for byte. */
  lemma NothingRefusedNothingMissing(labels: seq<Label>)
    requires Exec(labels).ws == Reading && forall o :: o in Exec(labels).h.offers ==> o.Taken?
    ensures Concat(BotAudio(Exec(labels).h.accepted)) == Exec(labels).h.payload
  {
    ExecInv(labels);
    AllTaken(Exec(labels).h.offers);
  }

  lemma StampDistance(m: nat, n: nat)
    ensures ((160 * n) % 0x1_0000_0000 - (160 * m) % 0x1_0000_0000) % 0x1_0000_0000
            == (160 * (n - m)) % 0x1_0000_0000
  {
    var a, b := 160 * n, 160 * m;
    var k := b / 0x1_0000_0000 - a / 0x1_0000_0000;
    SameResidue(a % 0x1_0000_0000 - b % 0x1_0000_0000, a - b, k);
  }

  lemma {:induction false} ExecRtpInv(labels: seq<Label>)
    ensures RtpInv(Exec(labels).w, Exec(labels).h)
  {
    ExecInv(labels);
  }

  lemma PacketsApart(w: Wire, h: History, j: nat, k: nat)
    requires RtpInv(w, h) && j < k < |h.packets|
    ensures var p, q := h.packets[j], h.packets[k];
            p.tick < q.tick < h.ticks && StampedAt(p) && StampedAt(q) &&
            (q.rtp.timestamp - p.rtp.timestamp) % 0x1_0000_0000 == (160 * (q.tick - p.tick)) % 0x1_0000_0000
  {
    StampDistance(h.packets[j].tick, h.packets[k].tick);
  }

  /** Each packet's header follows from the number n of ticks counted before it, n mod 2^16 and
      160 n mod 2^32, and two packets are as far apart on the RTP clock as in ticks. */
  lemma {:induction false} RtpClockNeverSlips(labels: seq<Label>, j: nat, k: nat)
    requires j < k < |Exec(labels).h.packets|
    ensures var p, q := Exec(labels).h.packets[j], Exec(labels).h.packets[k];
            p.tick < q.tick < Exec(labels).h.ticks && StampedAt(p) && StampedAt(q) &&
            (q.rtp.timestamp - p.rtp.timestamp) % 0x1_0000_0000 == (160 * (q.tick - p.tick)) % 0x1_0000_0000
  {
    ExecRtpInv(labels);
    PacketsApart(Exec(labels).w, Exec(labels).h, j, k);
  }

  /** With room for the echo, a sentinel that reaches the head of the queue is handed over if and
      only if its name is not empty. */
  lemma HandedOverIffNamed(labels: seq<Label>)
    requires var s := Exec(labels);
             s.w.packetQueue != [] && s.w.packetQueue[0].Mark? && |s.w.markEcho| < MARK_ECHO_QUEUE_SIZE
    ensures var s := Exec(labels);
            s.w.packetQueue[0].id in RetireMark(s).w.markEcho <==> s.w.packetQueue[0].name != ""
  {
    ExecInv(labels);
    QueuedMarkIsInChainOnce(Exec(labels), 0);
  }

  /** A mark with a name is lost only to a full queue, a failed send, or a reader that leaves. */
  lemma NamedMarksAreNotSwallowed(labels: seq<Label>, m: nat)
    requires m in Exec(labels).h.lost
    ensures m < |Exec(labels).h.names|
    ensures Exec(labels).h.names[m] != "" ==> Exec(labels).h.lost[m] != NoName
  {
    ExecInv(labels);
  }

  lemma SwallowedIsNotEchoed(s: State, j: nat, m: nat)
    requires QueueInv(s) && PlaceInv(s) && MarkInv(Chain(s), |s.h.names|, s.h.lost)
    requires j < |s.h.accepted| && s.h.accepted[j] == Mark(m, "")
    ensures m !in s.h.echoed && m !in s.w.markEcho
  {
    if j < |s.h.fates| {
      assert m in s.h.lost && m !in Chain(s);
      assert m in s.h.echoed || m in s.w.markEcho ==> m in Chain(s);
    } else {
      assert s.w.packetQueue[j - |s.h.fates|] == Mark(m, "");
      QueuedMarkIsInChainOnce(s, j - |s.h.fates|);
    }
  }

  /** A mark without a name that was queued behind audio is never echoed. */
  lemma {:induction false} QueuedUnnamedMarkIsNeverEchoed(labels: seq<Label>, j: nat, m: nat)
    requires j < |Exec(labels).h.accepted| && Exec(labels).h.accepted[j] == Mark(m, "")
    ensures m !in Exec(labels).h.echoed && m !in Exec(labels).w.markEcho
  {
    ExecInv(labels);
    SwallowedIsNotEchoed(Exec(labels), j, m);
  }

  lemma QueuedMarkIsInChainOnce(s: State, i: nat)
    requires Ascending(Chain(s)) && i < |s.w.packetQueue| && s.w.packetQueue[i].Mark?
    ensures s.w.packetQueue[i].id !in s.h.echoed && s.w.packetQueue[i].id !in s.w.markEcho
  {
    var m, front := s.w.packetQueue[i].id, s.h.echoed + s.w.markEcho;
    MarkIdsHas(s.w.packetQueue, i);
    var k :| 0 <= k < |MarkIds(s.w.packetQueue)| && MarkIds(s.w.packetQueue)[k] == m;
    assert Chain(s)[|front| + k] == m;
    assert forall x :: 0 <= x < |front| ==> Chain(s)[x] == front[x];
    assert m !in front;
  }

  lemma MessageHeard(audio: bv8)
    ensures Exec([ReaderSpawned] + [MediaMessage([audio])])
         == Init().(ws := Chunking([audio]), h := Init().h.(payload := [audio]))
  {
    ExecTwo([], ReaderSpawned, MediaMessage([audio]));
    assert [] + [ReaderSpawned] == [ReaderSpawned];
  }

  /** One frame of audio, then a mark without a name, both queued. */
  lemma QueueBoth(s: State, audio: bv8)
    requires s == Init().(ws := Chunking([audio]), h := s.h) && s.h == Init().h.(payload := [audio])
    ensures var t := Apply(Apply(Apply(s, NextChunk), MarkMessage("")), DeliverMark);
            && t.w == Init().w.(packetQueue := [Audio([audio], Bot), Mark(0, "")])
            && t.h.lost == map[] && t.h.echoed == []
  {
    var s1 := Apply(s, NextChunk);
    assert s1.w.packetQueue == [Audio([audio], Bot)] && s1.ws == Reading && s1.h.names == [];
    var s2 := Apply(s1, MarkMessage(""));
    assert s2.ws == HoldingMark(0, false) && s2.h.names == [""];
  }

  lemma TwoTicks(s: State, audio: bv8, silence: Bytes)
    requires s.w == Init().w.(packetQueue := [Audio([audio], Bot), Mark(0, "")])
    requires s.h.lost == map[] && s.h.echoed == []
    ensures var t := Apply(Apply(s, Tick(SendOk, silence)), Tick(SendOk, silence));
            t.h.lost == map[0 := NoName] && t.h.echoed == [] && t.w.markEcho == []
  {
    var t := Apply(s, Tick(SendOk, silence));
    assert t.w.packetQueue == [Mark(0, "")] && t.h.lost == map[] && t.h.echoed == [] && t.w.markEcho == [];
  }

  /** The failing input: a mark with an empty name sent while one frame of audio is queued. */
  lemma UnnamedMarkExample(audio: bv8, silence: Bytes)
    ensures var s := Exec([ReaderSpawned, MediaMessage([audio]), NextChunk, MarkMessage(""), DeliverMark,
                           Tick(SendOk, silence), Tick(SendOk, silence)]);
            s.h.lost == map[0 := NoName] && s.h.echoed == [] && s.w.markEcho == []
  {
    var heard := [ReaderSpawned] + [MediaMessage([audio])];
    MessageHeard(audio);
    QueueBoth(Exec(heard), audio);
    ExecTwo(heard, NextChunk, MarkMessage(""));
    var marked := heard + [NextChunk] + [MarkMessage("")];
    ExecSnoc(marked, DeliverMark);
    var queued := marked + [DeliverMark];
    TwoTicks(Exec(queued), audio, silence);
    ExecTwo(queued, Tick(SendOk, silence), Tick(SendOk, silence));
    assert queued + [Tick(SendOk, silence)] + [Tick(SendOk, silence)] ==
           [ReaderSpawned, MediaMessage([audio]), NextChunk, MarkMessage(""), DeliverMark,
            Tick(SendOk, silence), Tick(SendOk, silence)];
  }

  // ---------------------------------------------------------------------------------------------
  // The loops, in the form the program runs them

  /** The chunk loop without interruption. */
  function OfferAll(s: State): State
    decreases |Rest(s.ws)|
  {
    if s.ws.Chunking? && s.ws.rest != [] then OfferAll(OfferChunk(s)) else s
  }

  /** The caller leg's channels and the pacer's counters, with the history as ghost state. */
  class CallerPipe {
    var packetQueue: seq<Frame>
    var markEcho: seq<nat>
    var clearSignal: bool
    var seqNo: nat
    var timestamp: nat
    var pacing: bool
    ghost var ws: WsPc
    ghost var relayOn: bool
    ghost var h: History

    ghost function View(): State
      reads this
    {
      State(Wire(packetQueue, markEcho, clearSignal, seqNo, timestamp, pacing), ws, relayOn, h)
    }

    constructor ()
      ensures View() == Init()
    {
      packetQueue, markEcho, clearSignal, seqNo, timestamp, pacing := [], [], false, 0, 0, true;
      ws, relayOn, h := Gone, false, Init().h;
    }

    /** The media case of wsToRTP: cut the payload into frames and queue those that find room. */
    method OnMedia(payload: Bytes)
      requires ws == Reading
      modifies this
      ensures View() == OfferAll(Fire(old(View()), MediaMessage(payload)))
    {
      ws := if payload == [] then Reading else Chunking(payload);
      h := h.(payload := h.payload + payload);
      ghost var start := View();
      var rest := payload;
      while |rest| > 0
        invariant Rest(ws) == rest && (ws.Chunking? <==> rest != []) && (rest == [] ==> ws == Reading)
        invariant OfferAll(View()) == OfferAll(start)
      {
        ghost var next := OfferChunk(View());
        var chunk := rest;
        if |chunk| > RTP_FRAME_SIZE {
          chunk := rest[..RTP_FRAME_SIZE];
        }
        rest := rest[|chunk|..];
        if |packetQueue| < PACKET_QUEUE_SIZE {
          packetQueue := packetQueue + [Audio(chunk, Bot)];
        }
        ws, h := next.ws, next.h;
        assert View() == next;
      }
    }

    /** Everything queued goes: audio is discarded, mark sentinels move on. */
    method DrainQueue()
      modifies this
      ensures View() == Drain(old(View()))
    {
      ghost var start := View();
      while packetQueue != []
        invariant Drain(View()) == Drain(start)
        decreases |packetQueue|
      {
        ghost var next := ClearHead(View());
        var f := packetQueue[0];
        packetQueue := packetQueue[1..];
        if f.Mark? && f.name != "" && |markEcho| < MARK_ECHO_QUEUE_SIZE {
          markEcho := markEcho + [f.id];
        }
        h := next.h;
        assert View() == next;
      }
    }

    /** The tick's packet; `sent` is what goes out to the caller, if anything does. */
    method SendPacket(payload: Bytes, silence: bool, outcome: Outcome) returns (sent: seq<Rtp>)
      modifies `seqNo, `timestamp, `pacing, `h
      ensures View() == Emit(old(View()), payload, silence, outcome)
      ensures sent == if outcome == SendOk then [Rtp(old(seqNo), old(timestamp), payload)] else []
      ensures |h.packets| == |old(h.packets)| + |sent|
      ensures sent != [] ==> h.packets[|old(h.packets)|].rtp == sent[0]
    {
      ghost var next := Emit(View(), payload, silence, outcome);
      sent := [];
      var counts := true;
      match outcome {
        case SendOk => sent := [Rtp(seqNo, timestamp, payload)];
        case MarshalFails => counts := false;
        case EncryptFails =>
        case WriteFails => counts, pacing := false, false;
      }
      if counts {
        seqNo, timestamp := (seqNo + 1) % 0x1_0000, (timestamp + 160) % 0x1_0000_0000;
      }
      h := next.h;
    }

    /** A mark sentinel leaves the queue. */
    method TakeMark() returns (recognised: bool)
      requires packetQueue != [] && packetQueue[0].Mark?
      modifies `packetQueue, `markEcho, `h
      ensures View() == RetireMark(old(View())) && (recognised <==> old(packetQueue)[0].name != "")
    {
      ghost var next := RetireMark(View());
      var f := packetQueue[0];
      packetQueue := packetQueue[1..];
      recognised := f.name != "";
      if recognised && |markEcho| < MARK_ECHO_QUEUE_SIZE {
        markEcho := markEcho + [f.id];
      }
      h := next.h;
    }

    /** An audio frame leaves the queue. */
    method TakeAudio(ghost fate: Fate) returns (bytes: Bytes)
      requires packetQueue != [] && packetQueue[0].Audio?
      modifies `packetQueue, `h
      ensures View() == Retire(old(View()), fate) && bytes == old(packetQueue)[0].bytes
    {
      bytes := packetQueue[0].bytes;
      packetQueue := packetQueue[1..];
      h := h.(fates := h.fates + [fate]);
    }

    method CountTick()
      modifies `seqNo, `timestamp, `h
      ensures View() == Count(old(View()))
    {
      seqNo, timestamp := (seqNo + 1) % 0x1_0000, (timestamp + 160) % 0x1_0000_0000;
      h := h.(ticks := h.ticks + 1);
    }

    /** The rest of the tick, once a clear has been served. */
    method SendNext(outcome: Outcome, silence: Bytes) returns (sent: seq<Rtp>)
      requires pacing
      modifies this
      ensures View() == TickAfterClear(old(View()), outcome, silence)
      ensures |h.packets| == |old(h.packets)| + |sent| && |sent| <= 1
      ensures sent != [] ==> h.packets[|old(h.packets)|].rtp == sent[0]
      ensures outcome == SendOk && old(packetQueue) != [] && old(packetQueue)[0].Audio? ==>
                sent == [Rtp(old(seqNo), old(timestamp), old(packetQueue)[0].bytes)]
      ensures outcome == SendOk && old(packetQueue) == [] ==>
                sent == [Rtp(old(seqNo), old(timestamp), silence)]
    {
      if packetQueue == [] {
        sent := SendPacket(silence, true, outcome);
        return;
      }
      if packetQueue[0].Audio? {
        var bytes := TakeAudio(if outcome == SendOk then Transmitted else SendLost);
        sent := SendPacket(bytes, false, outcome);
        return;
      }
      var recognised := TakeMark();
      if recognised {
        CountTick();
        sent := [];
      } else {
        sent := SendPacket(silence, true, outcome);
      }
    }

    /** One tick of rtpPacer. */
    method RunTick(outcome: Outcome, silence: Bytes) returns (sent: seq<Rtp>)
      requires pacing
      modifies this
      ensures View() == TickStep(old(View()), outcome, silence)
      ensures |h.packets| == |old(h.packets)| + |sent| && |sent| <= 1
      ensures sent != [] ==> h.packets[|old(h.packets)|].rtp == sent[0]
      ensures outcome == SendOk && !old(clearSignal) && old(packetQueue) != [] && old(packetQueue)[0].Audio? ==>
                sent == [Rtp(old(seqNo), old(timestamp), old(packetQueue)[0].bytes)]
      ensures outcome == SendOk && (old(packetQueue) == [] || old(clearSignal)) ==>
                sent == [Rtp(old(seqNo), old(timestamp), silence)]
    {
      if clearSignal {
        clearSignal := false;
        DrainKeepsRest(View());
        DrainQueue();
      }
      sent := SendNext(outcome, silence);
    }
  }
}
