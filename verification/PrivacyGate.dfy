/** The Privacy Gate of a forwarded call (go/internal/bridge/session.go, midcall_adapter.go,
    verb_dial.go): the bot's media stream is closed before the outbound INVITE is sent. */
module PrivacyGate {
  import opened Collections
  import opened SessionState

  // `run`, `CloseStream`, `wsPacer`, `wsToRTP`, `rtpReader` and any number of <Dial> handlers are
  // processes with program counters. A `Label` names one atomic step of one process; `Step` gives
  // its effect, or `None` where the process cannot take it. `Exec` runs a label sequence and lets a
  // disabled label do nothing, so label sequences range over all interleavings.
  //
  // Granularity: one step per atomic load, store, compare-and-swap, channel operation, wait, and
  // start and end of a network write, and one for each goroutine that `run` spawns.

  const DTMF_QUEUE_SIZE := 10
  const MARK_ECHO_QUEUE_SIZE := 10
  const RTP_INBOUND_QUEUE_SIZE := 50

  /** What is written to the bot's WebSocket or to the callee, in the order it happens. */
  datatype Event =
    | BotStart
    | BotMedia(frame: nat)
    | BotDtmf(digit: nat)
    | BotMark(name: nat)
    | BotStop
    | Invite(dial: nat)

  /** Events that expose what is said on the call. */
  predicate Exposes(e: Event) {
    e.BotMedia? || e.BotDtmf? || e.BotMark?
  }

  datatype RunPc =
    | NotStarted
    | HaveContexts
    | LoopTop
    | PassedCheck
    | WgStored
    | ConnStored
    | PacerSpawned
    | Selecting
    | EndWait
    | EndLoad
    | EndStop(closed: bool)
    | GateWait
    | SigWait
    | SigFlag
    | Reconnecting
    | Handshaking
    | Parked
    | Ended

  /** The next operation inside CloseStream; the sync.Once is fresh in `Unused`. */
  datatype ClosePc =
    | Unused
    | SetFlag
    | CasState
    | CancelWs
    | SetDeadlines
    | LoadWg
    | WaitWg(wg: nat)
    | SendStop
    | Closed

  datatype DialPc = EnterClose | InClose | AtPort | AtLeg | AtGuard | AtInvite | Ringing | DialOver

  datatype ReaderPc = AtLoopTop | InRead

  /** wsPacer: choosing what to do, or inside a write that the peer may hold up for any time. */
  datatype PacerPc = AtSelect | WritesMedia(frame: nat) | WritesDtmf(digit: nat) | WritesMark(name: nat)

  function Written(pc: PacerPc): (e: Event)
    requires pc != AtSelect
    ensures Exposes(e)
  {
    match pc
    case WritesMedia(frame) => BotMedia(frame)
    case WritesDtmf(digit) => BotDtmf(digit)
    case WritesMark(name) => BotMark(name)
  }

  datatype RtpPc = Idle | GotFrame(f: nat) | NotForwarding(f: nat)

  /** The WebSocket side: wsCtx, and the connections numbered from 1 with their goroutines. `wg` and
      `conn` are what wsWgPtr and wsConnPtr point to, 0 standing for nil. */
  datatype Sockets = Sockets(
    cancelSet: bool,
    cancelled: bool,
    wg: nat,
    conn: nat,
    pacers: map<nat, PacerPc>,
    readers: map<nat, ReaderPc>,
    deadlines: set<nat>,
    writeDeadlines: set<nat>,
    signals: set<nat>)

  datatype Queues = Queues(
    rtp: RtpPc,
    rtpInbound: seq<nat>,
    dtmf: seq<nat>,
    markEcho: seq<nat>,
    relayed: seq<nat>)

  datatype State = State(
    run: RunPc,
    ws: Sockets,
    sessionDone: bool,
    streamClosed: bool,
    close: ClosePc,
    dials: map<nat, DialPc>,
    cell: CallState,
    q: Queues,
    log: seq<Event>)

  datatype RunLabel =
    | Enter
    | Handshake(ok: bool)
    | CheckClosed
    | StoreWg
    | StoreConn
    | SpawnPacer
    | SpawnReader
    | SelectEnd
    | SelectGate
    | SelectSignal
    | WaitDone
    | LoadAtEnd
    | StopAtEnd
    | LoadAfterSignal
    | Reconnect(ok: bool)
    | Rehandshake(ok: bool)
    | Unpark

  datatype PacerLabel = PacerExit | TakeDtmf | TakeMark | TakeMedia | WriteDone | WriteFails | WriteDeadlineHit

  datatype ReaderLabel = Top | MarkMessage(name: nat) | OtherMessage | StopMessage | NetError | DeadlineHit

  datatype RtpLabel = EchoFromPacer(name: nat) | Dtmf(digit: nat) | Arrives(f: nat) | FirstLoad(room: bool) | SecondLoad

  datatype DialLabel = NewDial | Enter | Return | Port(ok: bool) | InstallLeg | Guard(ok: bool) | SendInvite | Answered

  datatype Label =
    | Run(r: RunLabel)
    | Pacer(g: nat, p: PacerLabel)
    | Reader(g: nat, m: ReaderLabel)
    | Rtp(x: RtpLabel)
    | Dial(t: nat, d: DialLabel)
    | CloseStream
    | CancelSession
    | TerminateCas(from: CallState)

  function Init(): State {
    State(NotStarted, Sockets(false, false, 0, 0, map[], map[], {}, {}, {}), false, false, Unused, map[], Streaming,
          Queues(Idle, [], [], [], []), [])
  }

  /** wsCtx is a child of sessionCtx. */
  predicate WsDone(s: State) {
    s.ws.cancelled || s.sessionDone
  }

  predicate Running(w: Sockets, g: nat) {
    g in w.pacers || g in w.readers
  }

  function Push(q: seq<nat>, x: nat, size: nat): seq<nat> {
    if |q| < size then q + [x] else q
  }

  function Without(m: map<nat, ReaderPc>, g: nat): map<nat, ReaderPc> {
    map k | k in m && k != g :: m[k]
  }

  function SetDeadline(w: Sockets): Sockets {
    w.(deadlines := w.deadlines + {w.conn})
  }

  /** CloseStream sets a write deadline too; closing the connection has the same effect. */
  function SetBothDeadlines(w: Sockets): Sockets {
    SetDeadline(w).(writeDeadlines := w.writeDeadlines + {w.conn})
  }

  /** wsPacer leaves after a failed write and signals run. */
  function PacerFails(s: State, g: nat): State {
    s.(ws := s.ws.(pacers := s.ws.pacers - {g}, signals := s.ws.signals + {g}))
  }

  /** wsToRTP leaves; it signals run only while its context is live. */
  function ReaderLeaves(s: State, g: nat): State {
    s.(ws := s.ws.(readers := Without(s.ws.readers, g),
                   signals := if WsDone(s) then s.ws.signals else s.ws.signals + {g}))
  }

  function RunStep(s: State, r: RunLabel): Option<State> {
    match r
    case Enter =>
      if s.run != NotStarted then None
      else if s.sessionDone then Some(s.(run := Ended))
      else Some(s.(run := HaveContexts, ws := s.ws.(cancelSet := true)))
    case Handshake(ok) =>
      if s.run != HaveContexts then None
      else if ok then Some(s.(run := LoopTop, log := s.log + [BotStart]))
      else Some(s.(run := Ended, sessionDone := true))
    case CheckClosed =>
      if s.run == LoopTop then Some(s.(run := if s.streamClosed then Parked else PassedCheck)) else None
    case StoreWg =>
      if s.run == PassedCheck then Some(s.(run := WgStored, ws := s.ws.(wg := s.ws.wg + 1))) else None
    case StoreConn =>
      if s.run == WgStored then Some(s.(run := ConnStored, ws := s.ws.(conn := s.ws.wg))) else None
    case SpawnPacer =>
      if s.run == ConnStored
      then Some(s.(run := PacerSpawned, ws := s.ws.(pacers := s.ws.pacers[s.ws.wg := AtSelect]))) else None
    case SpawnReader =>
      if s.run == PacerSpawned
      then Some(s.(run := Selecting, ws := s.ws.(readers := s.ws.readers[s.ws.wg := AtLoopTop]))) else None
    case SelectEnd =>
      if s.run == Selecting && s.sessionDone
      then Some(s.(run := EndWait, ws := SetDeadline(s.ws))) else None
    case SelectGate =>
      if s.run == Selecting && WsDone(s) then Some(s.(run := GateWait)) else None
    case SelectSignal =>
      if s.run == Selecting && s.ws.conn in s.ws.signals
      then Some(s.(run := SigWait, ws := SetBothDeadlines(s.ws))) else None
    case WaitDone =>
      if Running(s.ws, s.ws.wg) then None
      else (match s.run
            case EndWait => Some(s.(run := EndLoad))
            case GateWait => Some(s.(run := LoopTop))
            case SigWait => Some(s.(run := SigFlag))
            case _ => None)
    case LoadAtEnd =>
      if s.run == EndLoad then Some(s.(run := EndStop(s.streamClosed))) else None
    case StopAtEnd =>
      if !s.run.EndStop? then None
      else Some(s.(run := Ended, log := if s.run.closed then s.log else s.log + [BotStop]))
    case LoadAfterSignal =>
      if s.run == SigFlag then Some(s.(run := if s.streamClosed then LoopTop else Reconnecting)) else None
    case Reconnect(ok) =>
      if s.run != Reconnecting then None
      else if ok && !s.sessionDone then Some(s.(run := Handshaking))
      else Some(s.(run := Ended, sessionDone := true))
    case Rehandshake(ok) =>
      if s.run != Handshaking then None
      else if ok then Some(s.(run := LoopTop, log := s.log + [BotStart]))
      else Some(s.(run := Reconnecting))
    case Unpark =>
      if s.run == Parked && s.sessionDone then Some(s.(run := Ended)) else None
  }

  /** wsPacer takes something off a queue and starts to write it. */
  function StartWrite(s: State, g: nat, pc: PacerPc, q: Queues): State {
    s.(q := q, ws := s.ws.(pacers := s.ws.pacers[g := pc]))
  }

  /** wsPacer: Go's select may take a ready queue even when the context is already done. */
  function PacerStep(s: State, g: nat, p: PacerLabel): Option<State> {
    if g !in s.ws.pacers then None
    else if s.ws.pacers[g] == AtSelect then
      match p
      case PacerExit => if WsDone(s) then Some(s.(ws := s.ws.(pacers := s.ws.pacers - {g}))) else None
      case TakeDtmf =>
        if s.q.dtmf == [] then None else Some(StartWrite(s, g, WritesDtmf(s.q.dtmf[0]), s.q.(dtmf := s.q.dtmf[1..])))
      case TakeMark =>
        if s.q.markEcho == [] then None
        else Some(StartWrite(s, g, WritesMark(s.q.markEcho[0]), s.q.(markEcho := s.q.markEcho[1..])))
      case TakeMedia =>
        if s.q.rtpInbound == [] then None
        else Some(StartWrite(s, g, WritesMedia(s.q.rtpInbound[0]), s.q.(rtpInbound := s.q.rtpInbound[1..])))
      case _ => None
    else
      match p
      case WriteDone =>
        Some(s.(log := s.log + [Written(s.ws.pacers[g])], ws := s.ws.(pacers := s.ws.pacers[g := AtSelect])))
      case WriteFails => Some(PacerFails(s, g))
      case WriteDeadlineHit => if g in s.ws.writeDeadlines then Some(PacerFails(s, g)) else None
      case _ => None
  }

  /** wsToRTP: the context is only checked between messages; a blocked read needs the deadline. */
  function ReaderStep(s: State, g: nat, m: ReaderLabel): Option<State> {
    if g !in s.ws.readers then None
    else if s.ws.readers[g] == AtLoopTop then
      if m != Top then None
      else if WsDone(s) then Some(s.(ws := s.ws.(readers := Without(s.ws.readers, g))))
      else Some(s.(ws := s.ws.(readers := s.ws.readers[g := InRead])))
    else
      match m
      case Top => None
      case MarkMessage(name) =>
        Some(s.(ws := s.ws.(readers := s.ws.readers[g := AtLoopTop]),
                q := s.q.(markEcho := Push(s.q.markEcho, name, MARK_ECHO_QUEUE_SIZE))))
      case OtherMessage => Some(s.(ws := s.ws.(readers := s.ws.readers[g := AtLoopTop])))
      case StopMessage => Some(s.(ws := s.ws.(readers := Without(s.ws.readers, g)), sessionDone := true))
      case NetError => Some(ReaderLeaves(s, g))
      case DeadlineHit => if g in s.ws.deadlines then Some(ReaderLeaves(s, g)) else None
  }

  /** rtpReader's routing loads the state twice, and `room` says whether the callee's outboundQueue has room;
      rtpPacer may hand a mark over at any time. */
  function RtpStep(s: State, x: RtpLabel): Option<Queues> {
    var q := s.q;
    match x
    case EchoFromPacer(name) => Some(q.(markEcho := Push(q.markEcho, name, MARK_ECHO_QUEUE_SIZE)))
    case Dtmf(digit) => Some(q.(dtmf := Push(q.dtmf, digit, DTMF_QUEUE_SIZE)))
    case Arrives(f) =>
      if q.rtp == Idle && !s.sessionDone then Some(q.(rtp := GotFrame(f))) else None
    case FirstLoad(room) =>
      if !q.rtp.GotFrame? then None
      else if s.cell == Forwarding then
        Some(q.(rtp := Idle, relayed := if room then q.relayed + [q.rtp.f] else q.relayed))
      else Some(q.(rtp := NotForwarding(q.rtp.f)))
    case SecondLoad =>
      if !q.rtp.NotForwarding? then None
      else if s.cell == DialingOut then Some(q.(rtp := Idle))
      else Some(q.(rtp := Idle, rtpInbound := Push(q.rtpInbound, q.rtp.f, RTP_INBOUND_QUEUE_SIZE)))
  }

  /** The WaitGroup of connection g counts goroutines that are still to be spawned. */
  predicate Starting(s: State, g: nat) {
    (s.run == WgStored || s.run == ConnStored || s.run == PacerSpawned) && g == s.ws.wg
  }

  /** One operation of the CloseStream body, run once under the sync.Once. */
  function CloseStep(s: State): Option<State> {
    match s.close
    case SetFlag => Some(s.(close := CasState, streamClosed := true))
    case CasState => Some(s.(close := CancelWs, cell := Cas(s.cell, Streaming, DialingOut)))
    case CancelWs => Some(s.(close := SetDeadlines, ws := s.ws.(cancelled := s.ws.cancelled || s.ws.cancelSet)))
    case SetDeadlines =>
      Some(s.(close := LoadWg, ws := if s.ws.conn == 0 then s.ws else SetBothDeadlines(s.ws)))
    case LoadWg => Some(s.(close := WaitWg(s.ws.wg)))
    case WaitWg(g) => if Running(s.ws, g) || Starting(s, g) then None else Some(s.(close := SendStop))
    case SendStop =>
      if s.ws.conn == 0 then Some(s.(close := Closed))
      else Some(s.(close := Closed, log := s.log + [BotStop], ws := SetBothDeadlines(s.ws)))
    case _ => None
  }

  /** PrepareDial, then PerformDial. Every caller of the once-guard waits for its body to finish. */
  function DialStep(s: State, t: nat, d: DialLabel): Option<State> {
    if t !in s.dials then
      if d == NewDial then Some(s.(dials := s.dials[t := EnterClose])) else None
    else
      var pc := s.dials[t];
      match d
      case NewDial => None
      case Enter =>
        if pc != EnterClose then None
        else Some(s.(dials := s.dials[t := InClose], close := if s.close == Unused then SetFlag else s.close))
      case Return =>
        if pc == InClose && s.close == Closed then Some(s.(dials := s.dials[t := AtPort])) else None
      case Port(ok) =>
        if pc != AtPort then None else Some(s.(dials := s.dials[t := if ok then AtLeg else DialOver]))
      case InstallLeg =>
        if pc != AtLeg then None else Some(s.(dials := s.dials[t := AtGuard]))
      case Guard(ok) =>
        if pc != AtGuard then None else Some(s.(dials := s.dials[t := if ok then AtInvite else DialOver]))
      case SendInvite =>
        if pc != AtInvite then None
        else Some(s.(dials := s.dials[t := Ringing], log := s.log + [Invite(t)]))
      case Answered =>
        if pc != Ringing then None
        else Some(s.(dials := s.dials[t := DialOver], cell := Cas(s.cell, DialingOut, Forwarding)))
  }

  function Step(s: State, l: Label): Option<State> {
    match l
    case Run(r) => RunStep(s, r)
    case Pacer(g, p) => PacerStep(s, g, p)
    case Reader(g, m) => ReaderStep(s, g, m)
    case Rtp(x) =>
      var q := RtpStep(s, x);
      if q.Some? then Some(s.(q := q.value)) else None
    case Dial(t, d) => DialStep(s, t, d)
    case CloseStream => CloseStep(s)
    case CancelSession => Some(s.(sessionDone := true))
    case TerminateCas(from) =>
      if from == Streaming || from == DialingOut || from == Forwarding
      then Some(s.(cell := Cas(s.cell, from, Terminated))) else None
  }

  function Apply(s: State, l: Label): State {
    var t := Step(s, l);
    if t.Some? then t.value else s
  }

  function Exec(labels: seq<Label>): State {
    if labels == [] then Init() else Apply(Exec(labels[..|labels| - 1]), labels[|labels| - 1])
  }

  // ---------------------------------------------------------------------------------------------
  // The inductive invariant

  /** CloseStream is past its n-th operation (streamClosed.Store is the first). */
  predicate Past(close: ClosePc, n: nat) {
    n <= match close
         case Unused | SetFlag => 0
         case CasState => 1
         case CancelWs => 2
         case SetDeadlines => 3
         case LoadWg => 4
         case WaitWg(_) => 5
         case SendStop => 6
         case Closed => 7
  }

  /** Where run has a reader, and a pacer, that it has not yet waited for. */
  predicate MayRead(pc: RunPc) {
    pc == Selecting || pc == EndWait || pc == GateWait || pc == SigWait
  }

  predicate MayRun(pc: RunPc) {
    MayRead(pc) || pc == PacerSpawned
  }

  predicate PastGate(pc: DialPc) {
    pc != EnterClose && pc != InClose
  }

  ghost predicate Quiet(w: Sockets) {
    (forall g :: g !in w.pacers) && (forall g :: g !in w.readers)
  }

  ghost predicate HasInvite(log: seq<Event>) {
    exists i :: 0 <= i < |log| && log[i].Invite?
  }

  ghost predicate SealedLog(log: seq<Event>) {
    forall i, j :: 0 <= i < j < |log| && log[i].Invite? ==> !Exposes(log[j])
  }

  /** Which goroutines can be alive, and how far run and CloseStream have come. */
  ghost predicate Sound(w: Sockets, run: RunPc, close: ClosePc) {
    && (forall g :: g in w.pacers ==> g == w.wg)
    && (forall g :: g in w.readers ==> g == w.wg)
    && (!MayRun(run) ==> Quiet(w))
    && (!MayRead(run) ==> forall g :: g !in w.readers)
    && w.wg == (if run == WgStored then w.conn + 1 else w.conn)
    && (run != NotStarted && run != Ended ==> w.cancelSet)
    && (w.wg > 0 ==> w.cancelSet)
    && (MayRun(run) || run == WgStored || run == ConnStored ==> w.wg > 0)
    && (run == NotStarted ==> w.wg == 0)
    && (Past(close, 3) && (w.wg > 0 || run == PassedCheck) ==> w.cancelled)
    && (Past(close, 4) ==> forall g :: g in w.readers && w.readers[g] == InRead ==> g in w.deadlines)
    && (forall g :: g in w.writeDeadlines ==> g <= w.conn)
  }

  ghost predicate Shape(s: State) {
    && Sound(s.ws, s.run, s.close)
    && (s.streamClosed <==> Past(s.close, 1))
    && (forall t :: t in s.dials && PastGate(s.dials[t]) ==> s.close == Closed)
  }

  ghost predicate Sealed(s: State) {
    HasInvite(s.log) ==> s.close == Closed
  }

  /** run moves on without touching a goroutine and does not forget to wait for one. */
  lemma SoundlyElsewhere(w: Sockets, v: Sockets, from: RunPc, to: RunPc, close: ClosePc)
    requires Sound(w, from, close)
    requires v == w.(cancelSet := v.cancelSet, deadlines := v.deadlines, writeDeadlines := v.writeDeadlines)
    requires w.deadlines <= v.deadlines && v.writeDeadlines <= w.writeDeadlines + {w.conn}
    requires w.cancelSet ==> v.cancelSet
    requires (MayRead(from) <==> MayRead(to)) || (MayRead(from) && Quiet(w))
    requires from != WgStored && from != PacerSpawned && to != WgStored && to != ConnStored && to != PacerSpawned
    requires to == NotStarted ==> from == NotStarted
    requires to != NotStarted && to != Ended ==> v.cancelSet
    requires to == PassedCheck ==> !Past(close, 1)
    ensures Sound(v, to, close)
  {
  }

  predicate AtTheTop(r: RunLabel) {
    r == StoreWg || r == StoreConn || r == SpawnPacer || r == SpawnReader
  }

  lemma StoreKeepsShape(s: State, r: RunLabel)
    requires Shape(s) && RunStep(s, r).Some? && (r == StoreWg || r == StoreConn)
    ensures Shape(RunStep(s, r).value)
  {
  }

  lemma SpawnKeepsShape(s: State, r: RunLabel)
    requires Shape(s) && RunStep(s, r).Some? && (r == SpawnPacer || r == SpawnReader)
    ensures Shape(RunStep(s, r).value)
  {
  }

  lemma TopKeepsShape(s: State, r: RunLabel)
    requires Shape(s) && RunStep(s, r).Some? && AtTheTop(r)
    ensures Shape(RunStep(s, r).value)
  {
    if r == StoreWg || r == StoreConn {
      StoreKeepsShape(s, r);
    } else {
      SpawnKeepsShape(s, r);
    }
  }

  lemma CheckKeepsShape(s: State)
    requires Shape(s) && RunStep(s, CheckClosed).Some?
    ensures Shape(RunStep(s, CheckClosed).value)
  {
    SoundlyElsewhere(s.ws, s.ws, s.run, RunStep(s, CheckClosed).value.run, s.close);
  }

  lemma WaitKeepsShape(s: State)
    requires Shape(s) && RunStep(s, WaitDone).Some?
    ensures Shape(RunStep(s, WaitDone).value)
  {
    assert Quiet(s.ws);
    SoundlyElsewhere(s.ws, s.ws, s.run, RunStep(s, WaitDone).value.run, s.close);
  }

  predicate SelectsOrWaits(r: RunLabel) {
    r == SelectEnd || r == SelectGate || r == SelectSignal || r == WaitDone || r == CheckClosed
  }

  lemma SelectKeepsShape(s: State, r: RunLabel)
    requires Shape(s) && RunStep(s, r).Some? && (r == SelectEnd || r == SelectGate || r == SelectSignal)
    ensures Shape(RunStep(s, r).value)
  {
    SoundlyElsewhere(s.ws, RunStep(s, r).value.ws, s.run, RunStep(s, r).value.run, s.close);
  }

  predicate Reconnects(r: RunLabel) {
    r == LoadAfterSignal || r.Reconnect? || r.Rehandshake?
  }

  lemma ReconnectKeepsShape(s: State, r: RunLabel)
    requires Shape(s) && RunStep(s, r).Some? && Reconnects(r)
    ensures Shape(RunStep(s, r).value)
  {
    SoundlyElsewhere(s.ws, s.ws, s.run, RunStep(s, r).value.run, s.close);
  }

  lemma StartKeepsShape(s: State, r: RunLabel)
    requires Shape(s) && RunStep(s, r).Some? && (r == RunLabel.Enter || r.Handshake?)
    ensures Shape(RunStep(s, r).value)
  {
    SoundlyElsewhere(s.ws, RunStep(s, r).value.ws, s.run, RunStep(s, r).value.run, s.close);
  }

  lemma EndKeepsShape(s: State, r: RunLabel)
    requires Shape(s) && RunStep(s, r).Some? && (r == LoadAtEnd || r == StopAtEnd || r == Unpark)
    ensures Shape(RunStep(s, r).value)
  {
    SoundlyElsewhere(s.ws, s.ws, s.run, RunStep(s, r).value.run, s.close);
  }

  lemma RunKeepsShape(s: State, r: RunLabel)
    requires Shape(s) && RunStep(s, r).Some?
    ensures Shape(RunStep(s, r).value)
  {
    if AtTheTop(r) {
      TopKeepsShape(s, r);
    } else if r == CheckClosed {
      CheckKeepsShape(s);
    } else if r == WaitDone {
      WaitKeepsShape(s);
    } else if SelectsOrWaits(r) {
      SelectKeepsShape(s, r);
    } else if Reconnects(r) {
      ReconnectKeepsShape(s, r);
    } else if r == RunLabel.Enter || r.Handshake? {
      StartKeepsShape(s, r);
    } else {
      EndKeepsShape(s, r);
    }
  }

  /** Goroutines that leave or only move within their loop disturb nothing. */
  lemma FewerGoroutines(w: Sockets, v: Sockets, run: RunPc, close: ClosePc)
    requires Sound(w, run, close)
    requires v == w.(pacers := v.pacers, readers := v.readers, signals := v.signals)
    requires (forall g :: g in v.pacers ==> g in w.pacers) && (forall g :: g in v.readers ==> g in w.readers)
    requires forall g :: g in v.readers && v.readers[g] == InRead && !w.cancelled ==> !Past(close, 3)
    requires forall g :: g in v.readers && v.readers[g] == InRead && w.cancelled ==> w.readers[g] == InRead
    ensures Sound(v, run, close)
  {
  }

  lemma FewerPacers(w: Sockets, v: Sockets, run: RunPc, close: ClosePc)
    requires Sound(w, run, close)
    requires v == w.(pacers := v.pacers, signals := v.signals) && forall g :: g in v.pacers ==> g in w.pacers
    ensures Sound(v, run, close)
  {
  }

  lemma PacerKeepsShape(s: State, g: nat, p: PacerLabel)
    requires Shape(s) && PacerStep(s, g, p).Some?
    ensures Shape(PacerStep(s, g, p).value)
  {
    FewerPacers(s.ws, PacerStep(s, g, p).value.ws, s.run, s.close);
  }

  lemma ReaderKeepsShape(s: State, g: nat, m: ReaderLabel)
    requires Shape(s) && ReaderStep(s, g, m).Some?
    ensures Shape(ReaderStep(s, g, m).value)
  {
    FewerGoroutines(s.ws, ReaderStep(s, g, m).value.ws, s.run, s.close);
  }

  lemma DialKeepsShape(s: State, t: nat, d: DialLabel)
    requires Shape(s) && DialStep(s, t, d).Some?
    ensures Shape(DialStep(s, t, d).value)
  {
  }

  lemma CancelKeepsSound(s: State)
    requires Shape(s) && s.close == CancelWs
    ensures Sound(CloseStep(s).value.ws, s.run, CloseStep(s).value.close)
  {
  }

  lemma DeadlinesKeepSound(s: State)
    requires Shape(s) && s.close == SetDeadlines
    ensures Sound(CloseStep(s).value.ws, s.run, CloseStep(s).value.close)
  {
  }

  lemma CloseKeepsSound(s: State)
    requires Shape(s) && CloseStep(s).Some?
    ensures Sound(CloseStep(s).value.ws, s.run, CloseStep(s).value.close)
  {
    if s.close == CancelWs {
      CancelKeepsSound(s);
    } else if s.close == SetDeadlines {
      DeadlinesKeepSound(s);
    }
  }

  lemma CloseKeepsDials(s: State)
    requires Shape(s) && CloseStep(s).Some?
    ensures forall t :: t in CloseStep(s).value.dials ==> !PastGate(CloseStep(s).value.dials[t])
    ensures CloseStep(s).value.streamClosed <==> Past(CloseStep(s).value.close, 1)
  {
    assert CloseStep(s).value.dials == s.dials;
  }

  lemma CloseKeepsShape(s: State)
    requires Shape(s) && CloseStep(s).Some?
    ensures Shape(CloseStep(s).value)
  {
    CloseKeepsSound(s);
    CloseKeepsDials(s);
    assert CloseStep(s).value.run == s.run;
  }

  lemma StepKeepsShape(s: State, l: Label)
    requires Shape(s) && Step(s, l).Some?
    ensures Shape(Step(s, l).value)
  {
    match l
    case Run(r) => RunKeepsShape(s, r);
    case Pacer(g, p) => PacerKeepsShape(s, g, p);
    case Reader(g, m) => ReaderKeepsShape(s, g, m);
    case Rtp(x) =>
    case Dial(t, d) => DialKeepsShape(s, t, d);
    case CloseStream => CloseKeepsShape(s);
    case CancelSession =>
    case TerminateCas(from) =>
  }

  /** CloseStream has seen the newest connection: it waits for the goroutines of that one, and past the
      wait there are none and none will come. */
  ghost predicate Gated(s: State) {
    Past(s.close, 5) ==>
      && s.run != PassedCheck && (s.close.WaitWg? ==> s.close.wg == s.ws.wg)
      && (Past(s.close, 6) ==> Quiet(s.ws) && !Starting(s, s.ws.wg))
  }

  /** The step in which CloseStream looks for the WaitGroup while run, past its check of streamClosed,
      has not stored the new one yet. */
  predicate Overtakes(s: State, l: Label) {
    l == CloseStream && s.close == LoadWg && s.run == PassedCheck
  }

  /** What the other processes leave alone. */
  ghost predicate Bystander(s: State, t: State) {
    && t.run == s.run && t.streamClosed == s.streamClosed && t.ws.wg == s.ws.wg && t.ws.conn == s.ws.conn
    && t.ws.writeDeadlines == s.ws.writeDeadlines
    && (t.close == s.close || (s.close == Unused && t.close == SetFlag))
    && (forall g :: g in t.ws.pacers ==> g in s.ws.pacers) && (forall g :: g in t.ws.readers ==> g in s.ws.readers)
  }

  lemma PacerStandsBy(s: State, g: nat, p: PacerLabel)
    requires PacerStep(s, g, p).Some?
    ensures Bystander(s, PacerStep(s, g, p).value)
  {
  }

  lemma ReaderStandsBy(s: State, g: nat, m: ReaderLabel)
    requires ReaderStep(s, g, m).Some?
    ensures Bystander(s, ReaderStep(s, g, m).value)
  {
  }

  lemma DialStandsBy(s: State, t: nat, d: DialLabel)
    requires DialStep(s, t, d).Some?
    ensures Bystander(s, DialStep(s, t, d).value)
  {
  }

  lemma OthersStandBy(s: State, l: Label)
    requires Step(s, l).Some? && !l.Run? && !l.CloseStream?
    ensures Bystander(s, Step(s, l).value)
  {
    match l
    case Pacer(g, p) => PacerStandsBy(s, g, p);
    case Reader(g, m) => ReaderStandsBy(s, g, m);
    case Dial(t, d) => DialStandsBy(s, t, d);
    case _ =>
  }

  lemma BystanderStaysGated(s: State, t: State)
    requires Gated(s) && Bystander(s, t)
    ensures Gated(t)
  {
  }

  lemma TopStaysGated(s: State, r: RunLabel)
    requires Shape(s) && Gated(s) && RunStep(s, r).Some? && AtTheTop(r)
    ensures Gated(RunStep(s, r).value)
  {
  }

  /** Elsewhere run neither stores nor spawns anything. */
  ghost predicate MovesOn(s: State, t: State) {
    && t.close == s.close && t.ws.wg == s.ws.wg && t.ws.pacers == s.ws.pacers && t.ws.readers == s.ws.readers
    && (t.run == PassedCheck ==> !s.streamClosed)
    && t.run != WgStored && t.run != ConnStored && t.run != PacerSpawned
  }

  lemma WaitMovesOn(s: State, r: RunLabel)
    requires RunStep(s, r).Some? && SelectsOrWaits(r)
    ensures MovesOn(s, RunStep(s, r).value)
  {
  }

  lemma RunMovesOn(s: State, r: RunLabel)
    requires RunStep(s, r).Some? && !AtTheTop(r)
    ensures MovesOn(s, RunStep(s, r).value)
  {
    if SelectsOrWaits(r) {
      WaitMovesOn(s, r);
    }
  }

  lemma ElsewhereStaysGated(s: State, t: State)
    requires Shape(s) && Gated(s) && MovesOn(s, t)
    ensures Gated(t)
  {
  }

  lemma RunStaysGated(s: State, r: RunLabel)
    requires Shape(s) && Gated(s) && RunStep(s, r).Some?
    ensures Gated(RunStep(s, r).value)
  {
    if AtTheTop(r) {
      TopStaysGated(s, r);
    } else {
      RunMovesOn(s, r);
      ElsewhereStaysGated(s, RunStep(s, r).value);
    }
  }

  lemma CloseStaysGated(s: State)
    requires Shape(s) && Gated(s) && CloseStep(s).Some? && !Overtakes(s, CloseStream)
    ensures Gated(CloseStep(s).value)
  {
  }

  lemma StepStaysGated(s: State, l: Label)
    requires Shape(s) && Gated(s) && Step(s, l).Some? && !Overtakes(s, l)
    ensures Gated(Step(s, l).value)
  {
    match l
    case Run(r) => RunStaysGated(s, r);
    case CloseStream => CloseStaysGated(s);
    case _ =>
      OthersStandBy(s, l);
      BystanderStaysGated(s, Step(s, l).value);
  }

  /** What a step may write: nothing, or one event. An exposing event needs a running pacer and an
      INVITE a finished CloseStream; start events, and stop events of a gated stream, are written while no
      pacer runs. */
  ghost predicate Writes(s: State, t: State) {
    && (s.close == Closed ==> t.close == Closed)
    && s.log <= t.log && |t.log| <= |s.log| + 1
    && (|t.log| > |s.log| ==>
          var e := t.log[|s.log|];
          (Exposes(e) ==> !Quiet(s.ws)) && (e.Invite? ==> s.close == Closed) &&
          (e == BotStart || (e == BotStop && Gated(s)) ==> forall g :: g !in s.ws.pacers))
  }

  lemma RunWrites(s: State, r: RunLabel)
    requires Shape(s) && RunStep(s, r).Some?
    ensures Writes(s, RunStep(s, r).value)
  {
  }

  lemma PacerWrites(s: State, g: nat, p: PacerLabel)
    requires Shape(s) && PacerStep(s, g, p).Some?
    ensures Writes(s, PacerStep(s, g, p).value)
  {
  }

  lemma CloseWrites(s: State)
    requires Shape(s) && CloseStep(s).Some?
    ensures Writes(s, CloseStep(s).value)
  {
  }

  lemma DialWrites(s: State, t: nat, d: DialLabel)
    requires Shape(s) && DialStep(s, t, d).Some?
    ensures Writes(s, DialStep(s, t, d).value)
  {
  }

  lemma StepWrites(s: State, l: Label)
    requires Shape(s) && Step(s, l).Some?
    ensures Writes(s, Step(s, l).value)
  {
    match l
    case Run(r) => RunWrites(s, r);
    case Pacer(g, p) => PacerWrites(s, g, p);
    case CloseStream => CloseWrites(s);
    case Dial(t, d) => DialWrites(s, t, d);
    case _ =>
  }

  lemma WritesKeepSealed(s: State, t: State)
    requires Sealed(s) && Writes(s, t)
    ensures Sealed(t)
    ensures Gated(s) && SealedLog(s.log) ==> SealedLog(t.log)
  {
  }

  lemma {:induction false} ExecInv(labels: seq<Label>)
    ensures Shape(Exec(labels)) && Sealed(Exec(labels))
  {
    if labels != [] {
      var s, l := Exec(labels[..|labels| - 1]), labels[|labels| - 1];
      ExecInv(labels[..|labels| - 1]);
      if Step(s, l).Some? {
        StepKeepsShape(s, l);
        StepWrites(s, l);
        WritesKeepSealed(s, Step(s, l).value);
      }
    }
  }

  /** Over a run: there was such a step. */
  ghost predicate Overtaken(labels: seq<Label>) {
    labels != [] && (Overtaken(labels[..|labels| - 1]) || Overtakes(Exec(labels[..|labels| - 1]), labels[|labels| - 1]))
  }

  ghost predicate Shut(s: State) {
    Gated(s) && SealedLog(s.log)
  }

  lemma StepStaysShut(s: State, l: Label)
    requires Shape(s) && Sealed(s) && Shut(s) && !Overtakes(s, l)
    ensures Shut(Apply(s, l))
  {
    if Step(s, l).Some? {
      StepStaysGated(s, l);
      StepWrites(s, l);
      WritesKeepSealed(s, Step(s, l).value);
    }
  }

  lemma {:induction false} ExecShut(labels: seq<Label>)
    requires !Overtaken(labels)
    ensures Shut(Exec(labels))
  {
    if labels != [] {
      ExecShut(labels[..|labels| - 1]);
      ExecInv(labels[..|labels| - 1]);
      StepStaysShut(Exec(labels[..|labels| - 1]), labels[|labels| - 1]);
    }
  }

  // ---------------------------------------------------------------------------------------------
  // Main results

  /** In every run in which CloseStream does not overtake run at the top of its loop, nothing that
      exposes the call is written to the bot after an INVITE. */
  lemma {:induction false} NothingReachesBotAfterInvite(labels: seq<Label>, i: nat, j: nat)
    requires !Overtaken(labels) && i < j < |Exec(labels).log|
    requires Exec(labels).log[i].Invite?
    ensures !Exposes(Exec(labels).log[j])
  {
    ExecShut(labels);
  }

  /** run is at the top of its loop, past its check of streamClosed. */
  predicate AtTop(pc: RunPc) {
    pc == PassedCheck || pc == WgStored || pc == ConnStored || pc == PacerSpawned
  }

  /** The top of the loop is one step: no other process moves between the check and the last spawn. */
  ghost predicate TopIsOneStep(labels: seq<Label>) {
    labels != [] ==>
      TopIsOneStep(labels[..|labels| - 1]) && (AtTop(Exec(labels[..|labels| - 1]).run) ==> labels[|labels| - 1].Run?)
  }

  /** Then CloseStream never overtakes run. */
  lemma {:induction false} OneStepIsNotOvertaken(labels: seq<Label>)
    requires TopIsOneStep(labels)
    ensures !Overtaken(labels)
  {
    if labels != [] {
      OneStepIsNotOvertaken(labels[..|labels| - 1]);
    }
  }

  lemma StepGrowsLog(s: State, l: Label)
    requires Shape(s)
    ensures s.log <= Apply(s, l).log
  {
    if Step(s, l).Some? {
      StepWrites(s, l);
    }
  }

  lemma {:induction false} ExecSnoc(labels: seq<Label>, l: Label)
    ensures Exec(labels + [l]) == Apply(Exec(labels), l)
  {
    assert (labels + [l])[..|labels|] == labels;
  }

  lemma {:induction false} OneMoreGrowsLog(labels: seq<Label>, l: Label)
    ensures Exec(labels).log <= Exec(labels + [l]).log
  {
    ExecInv(labels);
    StepGrowsLog(Exec(labels), l);
    ExecSnoc(labels, l);
  }

  lemma {:induction false} LogOnlyGrows(labels: seq<Label>, more: seq<Label>)
    ensures Exec(labels).log <= Exec(labels + more).log
    decreases |more|
  {
    if more == [] {
      assert labels + more == labels;
    } else {
      OneMoreGrowsLog(labels, more[0]);
      LogOnlyGrows(labels + [more[0]], more[1..]);
      assert labels + [more[0]] + more[1..] == labels + more;
    }
  }

  lemma CloseOnlyAdvances(s: State, l: Label, n: nat)
    requires Past(s.close, n)
    ensures Past(Apply(s, l).close, n)
  {
    if Step(s, l).Some? && !l.Run? && !l.CloseStream? {
      OthersStandBy(s, l);
    }
  }

  /** CloseStream has looked for the WaitGroup, and the gate is shut. */
  ghost predicate ShutForGood(s: State) {
    Shut(s) && Past(s.close, 5)
  }

  lemma {:induction false} OneMoreShut(labels: seq<Label>, l: Label)
    requires ShutForGood(Exec(labels))
    ensures ShutForGood(Exec(labels + [l]))
  {
    ExecInv(labels);
    StepStaysShut(Exec(labels), l);
    CloseOnlyAdvances(Exec(labels), l, 5);
    ExecSnoc(labels, l);
  }

  /** Once CloseStream has looked for the WaitGroup, a shut gate stays shut whatever happens. */
  lemma {:induction false} GateStaysShut(labels: seq<Label>, more: seq<Label>)
    requires ShutForGood(Exec(labels))
    ensures ShutForGood(Exec(labels + more))
    decreases |more|
  {
    if more == [] {
      assert labels + more == labels;
    } else {
      OneMoreShut(labels, more[0]);
      GateStaysShut(labels + [more[0]], more[1..]);
      assert labels + [more[0]] + more[1..] == labels + more;
    }
  }

  /** Once an INVITE is out, CloseStream has returned, and in that state and every later one no
      wsPacer or wsToRTP of any connection is running. */
  lemma {:induction false} InviteMeansStreamIsGone(labels: seq<Label>, more: seq<Label>, i: nat)
    requires !Overtaken(labels) && i < |Exec(labels).log| && Exec(labels).log[i].Invite?
    ensures Exec(labels + more).close == Closed
    ensures forall g :: !Running(Exec(labels + more).ws, g)
  {
    ExecShut(labels);
    ExecInv(labels);
    GateStaysShut(labels, more);
    LogOnlyGrows(labels, more);
    ExecInv(labels + more);
    assert Exec(labels + more).log[i].Invite?;
  }

  /** The write-safety rules of run: start and stop events are only written while no wsPacer runs,
      and two pacers never run together. */
  lemma {:induction false} ControlWritesAreExclusive(labels: seq<Label>, l: Label, e: Event)
    requires !Overtaken(labels) && Step(Exec(labels), l).Some?
    requires Step(Exec(labels), l).value.log == Exec(labels).log + [e] && (e == BotStart || e == BotStop)
    ensures forall g :: g !in Exec(labels).ws.pacers
  {
    ExecInv(labels);
    ExecShut(labels);
    StepWrites(Exec(labels), l);
    assert (Exec(labels).log + [e])[|Exec(labels).log|] == e;
  }

  lemma {:induction false} OnePacer(labels: seq<Label>, g: nat, h: nat)
    requires g in Exec(labels).ws.pacers && h in Exec(labels).ws.pacers
    ensures g == h
  {
    ExecInv(labels);
  }

  /** CloseStream waits for a pacer that is inside a write on a connection without a write deadline, so
      that only the peer can end the wait. */
  predicate HeldUp(s: State) {
    && s.close.WaitWg? && s.close.wg in s.ws.pacers && s.ws.pacers[s.close.wg] != AtSelect
    && s.close.wg !in s.ws.writeDeadlines
  }

  /** Otherwise a CloseStream waiting for the WebSocket goroutines never hangs on one of them: one that is
      still to be spawned can be, a pacer at its select can see the cancelled context, one that the peer
      holds up in a write is released by the write deadline, and a blocked reader is woken by the read
      deadline. */
  lemma {:induction false} CloseStreamIsNeverStuck(labels: seq<Label>, g: nat)
    requires Exec(labels).close == WaitWg(g) && !HeldUp(Exec(labels))
    ensures var s := Exec(labels);
            (g in s.ws.pacers && s.ws.pacers[g] == AtSelect ==> PacerStep(s, g, PacerExit).Some?) &&
            (g in s.ws.pacers && s.ws.pacers[g] != AtSelect ==>
               PacerStep(s, g, WriteDeadlineHit).Some? && g !in PacerStep(s, g, WriteDeadlineHit).value.ws.pacers) &&
            (g in s.ws.readers && s.ws.readers[g] == AtLoopTop ==> g !in ReaderStep(s, g, Top).value.ws.readers) &&
            (g in s.ws.readers && s.ws.readers[g] == InRead ==> ReaderStep(s, g, DeadlineHit).Some?) &&
            (Starting(s, g) ==> RunStep(s, NextSpawn(s.run)).Some?) &&
            (!Running(s.ws, g) && !Starting(s, g) ==> CloseStep(s).Some?)
  {
    ExecInv(labels);
  }

  function NextSpawn(pc: RunPc): RunLabel {
    if pc == WgStored then StoreConn else if pc == ConnStored then SpawnPacer else SpawnReader
  }

  lemma {:induction false} ExecTwo(labels: seq<Label>, a: Label, b: Label)
    ensures Exec(labels + [a, b]) == Apply(Apply(Exec(labels), a), b)
  {
    ExecSnoc(labels, a);
    ExecSnoc(labels + [a], b);
    assert labels + [a] + [b] == labels + [a, b];
  }

  lemma {:induction false} ExecFour(labels: seq<Label>, a: Label, b: Label, c: Label, d: Label)
    ensures Exec(labels + [a, b, c, d]) == Apply(Apply(Apply(Apply(Exec(labels), a), b), c), d)
  {
    ExecTwo(labels, a, b);
    ExecTwo(labels + [a, b], c, d);
    assert labels + [a, b] + [c, d] == labels + [a, b, c, d];
  }

  /** The steps by which the goroutines of connection `g` start and leave, and CloseStream goes on. */
  const SPAWNS: seq<Label> := [Run(StoreConn), Run(SpawnPacer), Run(SpawnReader)]

  function Leave(s: State, g: nat): (labels: seq<Label>) {
    [Pacer(g, if g in s.ws.pacers && s.ws.pacers[g] != AtSelect then WriteDeadlineHit else PacerExit),
     Reader(g, if g in s.ws.readers && s.ws.readers[g] == InRead then DeadlineHit else Top)]
  }

  function Spawned(s: State): State {
    Apply(Apply(Apply(s, SPAWNS[0]), SPAWNS[1]), SPAWNS[2])
  }

  /** The goroutines of connection g that run are as before, or at their beginning. */
  predicate StillWaits(s: State, t: State, g: nat) {
    && t.close == s.close && t.sessionDone == s.sessionDone && t.ws.cancelled == s.ws.cancelled
    && t.ws.deadlines == s.ws.deadlines && t.ws.writeDeadlines == s.ws.writeDeadlines
    && (if g in s.ws.pacers then g in t.ws.pacers && t.ws.pacers[g] == s.ws.pacers[g]
        else g in t.ws.pacers ==> t.ws.pacers[g] == AtSelect)
    && (if g in s.ws.readers then g in t.ws.readers && t.ws.readers[g] == s.ws.readers[g]
        else g in t.ws.readers ==> t.ws.readers[g] == AtLoopTop)
  }

  lemma SpawnStillWaits(s: State, r: RunLabel, g: nat)
    requires Shape(s) && AtTheTop(r) && r != StoreWg
    ensures Shape(Apply(s, Run(r))) && StillWaits(s, Apply(s, Run(r)), g)
  {
    if RunStep(s, r).Some? {
      TopKeepsShape(s, r);
    }
  }

  lemma WaitsChain(s: State, t: State, u: State, g: nat)
    requires StillWaits(s, t, g) && StillWaits(t, u, g)
    ensures StillWaits(s, u, g)
  {
  }

  lemma SpawnsKeepWaiting(s: State, g: nat)
    requires Shape(s)
    ensures Shape(Spawned(s)) && StillWaits(s, Spawned(s), g)
  {
    var t := Apply(s, SPAWNS[0]);
    var u := Apply(t, SPAWNS[1]);
    SpawnStillWaits(s, StoreConn, g);
    SpawnStillWaits(t, SpawnPacer, g);
    SpawnStillWaits(u, SpawnReader, g);
    WaitsChain(s, t, u, g);
    WaitsChain(s, u, Apply(u, SPAWNS[2]), g);
  }

  lemma SpawnsComplete(s: State)
    ensures var pc := Spawned(s).run; pc != WgStored && pc != ConnStored && pc != PacerSpawned
  {
  }

  /** What lets the goroutines of connection g leave. */
  predicate MayLeave(t: State, g: nat) {
    && (g in t.ws.pacers ==> WsDone(t) && (t.ws.pacers[g] != AtSelect ==> g in t.ws.writeDeadlines))
    && (g in t.ws.readers ==> WsDone(t) && (t.ws.readers[g] == InRead ==> g in t.ws.deadlines))
  }

  lemma WaitedMayLeave(s: State, t: State, g: nat)
    requires Shape(s) && Shape(t) && s.close == WaitWg(g) && !HeldUp(s) && StillWaits(s, t, g)
    ensures MayLeave(t, g) && Leave(t, g) == Leave(s, g)
  {
  }

  lemma PacerIsFreed(t: State, g: nat)
    requires MayLeave(t, g)
    ensures var u := Apply(t, Leave(t, g)[0]);
            && g !in u.ws.pacers && u.ws.readers == t.ws.readers && MayLeave(u, g)
            && u.close == t.close && u.run == t.run && u.ws.wg == t.ws.wg
  {
  }

  lemma ReaderIsFreed(t: State, u: State, g: nat)
    requires MayLeave(u, g) && g !in u.ws.pacers && u.ws.readers == t.ws.readers
    ensures var v := Apply(u, Leave(t, g)[1]);
            !Running(v.ws, g) && v.close == u.close && v.run == u.run && v.ws.wg == u.ws.wg
  {
  }

  lemma ThenGoesOn(v: State, g: nat)
    requires v.close == WaitWg(g) && !Running(v.ws, g) && !Starting(v, g)
    ensures Apply(v, CloseStream).close == SendStop
  {
  }

  lemma LeaveFrees(s: State, t: State, g: nat)
    requires Shape(s) && Shape(t) && s.close == WaitWg(g) && !HeldUp(s) && StillWaits(s, t, g) && !Starting(t, g)
    ensures Apply(Apply(Apply(t, Leave(s, g)[0]), Leave(s, g)[1]), CloseStream).close == SendStop
  {
    WaitedMayLeave(s, t, g);
    PacerIsFreed(t, g);
    var u := Apply(t, Leave(t, g)[0]);
    ReaderIsFreed(t, u, g);
    ThenGoesOn(Apply(u, Leave(t, g)[1]), g);
  }

  lemma {:induction false} SpawnsRun(labels: seq<Label>)
    ensures Exec(labels + SPAWNS) == Spawned(Exec(labels))
  {
    ExecTwo(labels, SPAWNS[0], SPAWNS[1]);
    ExecSnoc(labels + [SPAWNS[0], SPAWNS[1]], SPAWNS[2]);
    assert labels + [SPAWNS[0], SPAWNS[1]] + [SPAWNS[2]] == labels + SPAWNS;
  }

  lemma {:induction false} LeaveRuns(labels: seq<Label>, more: seq<Label>)
    requires |more| == 2
    ensures Exec(labels + more + [CloseStream]) == Apply(Apply(Apply(Exec(labels), more[0]), more[1]), CloseStream)
  {
    ExecTwo(labels, more[0], more[1]);
    assert [more[0], more[1]] == more;
    ExecSnoc(labels + more, CloseStream);
  }

  /** So a waiting CloseStream that is not held up is at most six steps from sending its stop event, in
      whatever run. */
  lemma {:induction false} CloseStreamCanGoOn(labels: seq<Label>, g: nat)
    requires Exec(labels).close == WaitWg(g) && !HeldUp(Exec(labels))
    ensures Exec(labels + SPAWNS + Leave(Exec(labels), g) + [CloseStream]).close == SendStop
  {
    ExecInv(labels);
    var s := Exec(labels);
    SpawnsRun(labels);
    SpawnsKeepWaiting(s, g);
    SpawnsComplete(s);
    LeaveFrees(s, Spawned(s), g);
    LeaveRuns(labels + SPAWNS, Leave(s, g));
  }

  // ---------------------------------------------------------------------------------------------
  // Where the caller's voice goes

  function Plus<T>(front: seq<T>, last: Option<T>): seq<T> {
    if last.Some? then front + [last.value] else front
  }

  /** What rtpReader does with a frame. */
  datatype Route = Relayed | CalleeFull | ToBot | NoRoom | Gap

  /** rtpReader takes a packet off the wire. */
  function Arrived(s: State, l: Label): Option<nat> {
    if l.Rtp? && l.x.Arrives? && s.q.rtp == Idle && !s.sessionDone then Some(l.x.f) else None
  }

  function Arrivals(labels: seq<Label>): seq<nat> {
    if labels == [] then []
    else Plus(Arrivals(labels[..|labels| - 1]), Arrived(Exec(labels[..|labels| - 1]), labels[|labels| - 1]))
  }

  /** The decision of this step, if it is one: to the callee if the first load finds Forwarding and there is room; else
      nowhere if the second load finds DialingOut, and to the bot if there is room. */
  function Decision(s: State, l: Label): Option<Route> {
    if l.Rtp? && l.x.FirstLoad? && s.q.rtp.GotFrame? && s.cell == Forwarding then Some(if l.x.room then Relayed else CalleeFull)
    else if l == Rtp(SecondLoad) && s.q.rtp.NotForwarding? then
      Some(if s.cell == DialingOut then Gap else if |s.q.rtpInbound| < 50 then ToBot else NoRoom)
    else None
  }

  function Routes(labels: seq<Label>): seq<Route> {
    if labels == [] then []
    else
      var front := labels[..|labels| - 1];
      Plus(Routes(front), Decision(Exec(front), labels[|labels| - 1]))
  }

  /** The frames of that route, in their order. */
  function Picked(frames: seq<nat>, routes: seq<Route>, route: Route): seq<nat>
    requires |routes| <= |frames|
  {
    if routes == [] then []
    else
      var n := |routes| - 1;
      if routes[n] == route then Picked(frames, routes[..n], route) + [frames[n]] else Picked(frames, routes[..n], route)
  }

  /** What wsPacer begins to write with this step: the oldest entry of the queue it chooses. */
  function Begins(s: State, l: Label): Option<Event> {
    if !(l.Pacer? && l.g in s.ws.pacers && s.ws.pacers[l.g] == AtSelect) then None
    else
      match l.p
      case TakeDtmf => if s.q.dtmf == [] then None else Some(BotDtmf(s.q.dtmf[0]))
      case TakeMark => if s.q.markEcho == [] then None else Some(BotMark(s.q.markEcho[0]))
      case TakeMedia => if s.q.rtpInbound == [] then None else Some(BotMedia(s.q.rtpInbound[0]))
      case _ => None
  }

  function Begun(labels: seq<Label>): seq<Event> {
    if labels == [] then []
    else Plus(Begun(labels[..|labels| - 1]), Begins(Exec(labels[..|labels| - 1]), labels[|labels| - 1]))
  }

  datatype Kind = Voice | Key | Mark

  predicate Is(e: Event, kind: Kind) {
    match kind
    case Voice => e.BotMedia?
    case Key => e.BotDtmf?
    case Mark => e.BotMark?
  }

  /** The frames, key presses or marks in these events, in order. */
  function Values(events: seq<Event>, kind: Kind): seq<nat> {
    if events == [] then []
    else
      var front, e := Values(events[..|events| - 1], kind), events[|events| - 1];
      if !Is(e, kind) then front
      else front + [match e case BotMedia(x) => x case BotDtmf(x) => x case BotMark(x) => x]
  }

  /** What rtpReader holds is the frame that arrived last; every other one has had its decision. */
  predicate InHand(frames: seq<nat>, routes: seq<Route>, pc: RtpPc) {
    match pc
    case Idle => |frames| == |routes|
    case GotFrame(f) => |frames| == |routes| + 1 && frames[|routes|] == f
    case NotForwarding(f) => |frames| == |routes| + 1 && frames[|routes|] == f
  }

  ghost predicate Routed(s: State, frames: seq<nat>, routes: seq<Route>, taken: seq<nat>) {
    && InHand(frames, routes, s.q.rtp)
    && s.q.relayed == Picked(frames, routes, Relayed)
    && taken + s.q.rtpInbound == Picked(frames, routes, ToBot)
    && |s.q.rtpInbound| <= 50
  }

  lemma {:induction false} PickedStays(frames: seq<nat>, f: nat, routes: seq<Route>, route: Route)
    requires |routes| <= |frames|
    ensures Picked(frames + [f], routes, route) == Picked(frames, routes, route)
  {
    if routes != [] {
      PickedStays(frames, f, routes[..|routes| - 1], route);
    }
  }

  lemma PickedSnoc(frames: seq<nat>, routes: seq<Route>, last: Route, route: Route)
    requires |routes| < |frames|
    ensures Picked(frames, routes + [last], route)
            == if last == route then Picked(frames, routes, route) + [frames[|routes|]] else Picked(frames, routes, route)
  {
    assert (routes + [last])[..|routes|] == routes;
  }

  lemma RtpKeepsRouted(s: State, l: Label, frames: seq<nat>, routes: seq<Route>, taken: seq<nat>)
    requires Routed(s, frames, routes, taken) && l.Rtp? && !l.x.Arrives?
    ensures Routed(Apply(s, l), frames, Plus(routes, Decision(s, l)), taken)
  {
    var d := Decision(s, l);
    if d.Some? {
      PickedSnoc(frames, routes, d.value, Relayed);
      PickedSnoc(frames, routes, d.value, ToBot);
      if d.value == ToBot {
        assert taken + (s.q.rtpInbound + [s.q.rtp.f]) == taken + s.q.rtpInbound + [s.q.rtp.f];
      }
    }
  }

  lemma ArrivalKeepsRouted(s: State, f: nat, frames: seq<nat>, routes: seq<Route>, taken: seq<nat>)
    requires Routed(s, frames, routes, taken) && s.q.rtp == Idle && !s.sessionDone
    ensures Routed(Apply(s, Rtp(Arrives(f))), frames + [f], routes, taken)
  {
    PickedStays(frames, f, routes, Relayed);
    PickedStays(frames, f, routes, ToBot);
  }

  lemma TakeKeepsRouted(s: State, g: nat, frames: seq<nat>, routes: seq<Route>, taken: seq<nat>)
    requires Routed(s, frames, routes, taken)
    requires g in s.ws.pacers && s.ws.pacers[g] == AtSelect && s.q.rtpInbound != []
    ensures Routed(Apply(s, Pacer(g, TakeMedia)), frames, routes, taken + [s.q.rtpInbound[0]])
  {
    assert taken + s.q.rtpInbound == taken + [s.q.rtpInbound[0]] + s.q.rtpInbound[1..];
  }

  // What a step of each process leaves alone.

  lemma RunLeavesAlone(s: State, r: RunLabel)
    ensures var t := Apply(s, Run(r));
            t.q == s.q && t.dials == s.dials && (t.log == s.log || t.log == s.log + [BotStart] || t.log == s.log + [BotStop])
  {
  }

  lemma PacerLeavesAlone(s: State, g: nat, p: PacerLabel)
    ensures var t := Apply(s, Pacer(g, p));
            && t.dials == s.dials
            && (t.log == s.log
                || (g in s.ws.pacers && s.ws.pacers[g] != AtSelect && t.log == s.log + [Written(s.ws.pacers[g])]))
            && t.q.rtp == s.q.rtp && t.q.relayed == s.q.relayed && (p != TakeMedia ==> t.q.rtpInbound == s.q.rtpInbound)
  {
  }

  lemma ReaderLeavesAlone(s: State, g: nat, m: ReaderLabel)
    ensures var t := Apply(s, Reader(g, m));
            && t.dials == s.dials && t.log == s.log && t.ws.pacers == s.ws.pacers
            && t.q == s.q.(markEcho := t.q.markEcho)
  {
  }

  lemma CloseWritesStop(s: State)
    ensures var t := Apply(s, CloseStream); t.log == s.log || t.log == s.log + [BotStop]
  {
  }

  lemma CloseLeavesAlone(s: State)
    ensures var t := Apply(s, CloseStream);
            && t.q == s.q && t.dials == s.dials && t.ws.pacers == s.ws.pacers
            && (t.log == s.log || t.log == s.log + [BotStop])
  {
    CloseWritesStop(s);
  }

  lemma DialLeavesAlone(s: State, t: nat, d: DialLabel)
    ensures var u := Apply(s, Dial(t, d));
            u.q == s.q && u.ws.pacers == s.ws.pacers && (u.log == s.log || u.log == s.log + [Invite(t)])
  {
  }

  /** Nobody else touches the voice of the caller. */
  lemma VoiceUntouched(s: State, l: Label)
    requires !l.Rtp? && !(l.Pacer? && l.p == TakeMedia)
    ensures var q := Apply(s, l).q; q.rtp == s.q.rtp && q.relayed == s.q.relayed && q.rtpInbound == s.q.rtpInbound
  {
    match l
    case Run(r) => RunLeavesAlone(s, r);
    case Pacer(g, p) => PacerLeavesAlone(s, g, p);
    case Reader(g, m) => ReaderLeavesAlone(s, g, m);
    case CloseStream => CloseLeavesAlone(s);
    case Dial(t, d) => DialLeavesAlone(s, t, d);
    case _ =>
  }

  lemma ValuesSnoc(events: seq<Event>, e: Event, kind: Kind)
    ensures Values(events + [e], kind) == if Is(e, kind) then Values(events, kind) + Values([e], kind) else Values(events, kind)
  {
    assert (events + [e])[..|events|] == events;
  }

  lemma VoiceBegins(s: State, l: Label, begun: seq<Event>)
    ensures Values(Plus(begun, Begins(s, l)), Voice)
         == if l.Pacer? && l.p == TakeMedia && Begins(s, l).Some? then Values(begun, Voice) + [s.q.rtpInbound[0]]
            else Values(begun, Voice)
  {
    if Begins(s, l).Some? {
      ValuesSnoc(begun, Begins(s, l).value, Voice);
      ValuesSnoc([], Begins(s, l).value, Voice);
    }
  }

  lemma StepKeepsRouted(s: State, l: Label, frames: seq<nat>, routes: seq<Route>, taken: seq<nat>)
    requires Routed(s, frames, routes, taken)
    ensures Routed(Apply(s, l), Plus(frames, Arrived(s, l)), Plus(routes, Decision(s, l)),
                   if l.Pacer? && l.p == TakeMedia && Begins(s, l).Some? then taken + [s.q.rtpInbound[0]] else taken)
  {
    if l.Rtp? && l.x.Arrives? {
      if Arrived(s, l).Some? {
        ArrivalKeepsRouted(s, l.x.f, frames, routes, taken);
      }
    } else if l.Rtp? {
      RtpKeepsRouted(s, l, frames, routes, taken);
    } else if l.Pacer? && l.p == TakeMedia {
      if Begins(s, l).Some? {
        TakeKeepsRouted(s, l.g, frames, routes, taken);
      }
    } else {
      VoiceUntouched(s, l);
    }
  }

  /** In every run: each frame of the caller is routed once, in the order of arrival. What the first load
      finds Forwarding reaches the callee's queue, unless that is full; what both loads find neither
      Forwarding nor DialingOut reaches the bot's queue unless 50 frames wait there, and wsPacer takes it from
      there in order. */
  lemma {:induction false} VoiceIsRouted(labels: seq<Label>)
    ensures Routed(Exec(labels), Arrivals(labels), Routes(labels), Values(Begun(labels), Voice))
  {
    if labels != [] {
      var front, l := labels[..|labels| - 1], labels[|labels| - 1];
      VoiceIsRouted(front);
      VoiceBegins(Exec(front), l, Begun(front));
      StepKeepsRouted(Exec(front), l, Arrivals(front), Routes(front), Values(Begun(front), Voice));
    }
  }

  // ---------------------------------------------------------------------------------------------
  // Connections that break, end and are not dialled again

  lemma PacerTakesPress(s: State, g: nat)
    requires g in s.ws.pacers && s.ws.pacers[g] == AtSelect
    ensures var t := Apply(Apply(s, Rtp(Dtmf(0))), Pacer(g, TakeDtmf));
            && g in t.ws.pacers && t.ws.pacers[g] != AtSelect
            && t == s.(q := t.q, ws := s.ws.(pacers := s.ws.pacers[g := t.ws.pacers[g]]))
  {
    var t := Apply(s, Rtp(Dtmf(0)));
    assert t == s.(q := s.q.(dtmf := t.q.dtmf)) && t.q.dtmf != [];
  }

  lemma WriteGone(s: State, g: nat)
    requires g in s.ws.pacers && s.ws.pacers[g] != AtSelect
    ensures Apply(s, Pacer(g, WriteFails)) == s.(ws := s.ws.(pacers := s.ws.pacers - {g}, signals := s.ws.signals + {g}))
  {
  }

  /** A failed write takes the pacer out, whatever it was at; nothing else of the connection is touched. */
  lemma {:induction false} PacerGone(labels: seq<Label>, g: nat) returns (more: seq<Label>)
    requires g in Exec(labels).ws.pacers
    ensures var s, t := Exec(labels), Exec(labels + more);
            t == s.(q := t.q, ws := s.ws.(pacers := s.ws.pacers - {g}, signals := s.ws.signals + {g}))
  {
    var s := Exec(labels);
    if s.ws.pacers[g] == AtSelect {
      var press, take := Rtp(Dtmf(0)), Pacer(g, TakeDtmf);
      ExecTwo(labels, press, take);
      PacerTakesPress(s, g);
      ExecSnoc(labels + [press, take], Pacer(g, WriteFails));
      var t := Exec(labels + [press, take]);
      WriteGone(t, g);
      assert t.ws.pacers - {g} == s.ws.pacers - {g};
      more := [press, take] + [Pacer(g, WriteFails)];
      assert labels + more == labels + [press, take] + [Pacer(g, WriteFails)];
    } else {
      ExecSnoc(labels, Pacer(g, WriteFails));
      WriteGone(s, g);
      more := [Pacer(g, WriteFails)];
    }
  }

  /** Behind the signal of a broken connection run dials again, and greets the bot. */
  lemma Redials(s: State)
    requires s.run == SigWait && Quiet(s.ws) && !s.streamClosed && !s.sessionDone
    ensures Apply(Apply(Apply(Apply(s, Run(WaitDone)), Run(LoadAfterSignal)), Run(Reconnect(true))), Run(Rehandshake(true)))
            == s.(run := LoopTop, log := s.log + [BotStart])
  {
    RedialsFrom(s.(run := SigFlag));
    assert Apply(s, Run(WaitDone)) == s.(run := SigFlag);
  }

  lemma RedialsFrom(s: State)
    requires s.run == SigFlag && !s.streamClosed && !s.sessionDone
    ensures Apply(Apply(Apply(s, Run(LoadAfterSignal)), Run(Reconnect(true))), Run(Rehandshake(true)))
            == s.(run := LoopTop, log := s.log + [BotStart])
  {
    assert Apply(s, Run(LoadAfterSignal)) == s.(run := Reconnecting);
    assert Apply(s.(run := Reconnecting), Run(Reconnect(true))) == s.(run := Handshaking);
  }

  lemma Breaks(s: State, g: nat)
    requires s.run == Selecting && !WsDone(s) && g in s.ws.readers && s.ws.readers[g] == InRead && s.ws.conn == g
    ensures var t := Apply(Apply(s, Reader(g, NetError)), Run(SelectSignal));
            && t == s.(run := SigWait, ws := t.ws) && t.ws.wg == s.ws.wg
            && t.ws.pacers == s.ws.pacers && forall h :: h in t.ws.readers ==> h in s.ws.readers && h != g
  {
    var t := Apply(s, Reader(g, NetError));
    assert t == ReaderLeaves(s, g) && g in t.ws.signals;
  }

  /** In every run: a connection that breaks while stream and session are open can be replaced, and the bot
      is then greeted anew. */
  lemma {:induction false} BrokenConnectionIsReplaced(labels: seq<Label>, g: nat) returns (more: seq<Label>)
    requires var s := Exec(labels);
             && s.run == Selecting && !s.streamClosed && !WsDone(s)
             && g in s.ws.readers && s.ws.readers[g] == InRead && g in s.ws.pacers
    ensures var s, t := Exec(labels), Exec(labels + [Reader(g, NetError), Run(SelectSignal)] + more);
            t.run == LoopTop && t.log == s.log + [BotStart] && Quiet(t.ws) && t.ws.wg == s.ws.wg
  {
    ExecInv(labels);
    ExecTwo(labels, Reader(g, NetError), Run(SelectSignal));
    Breaks(Exec(labels), g);
    var broken := labels + [Reader(g, NetError), Run(SelectSignal)];
    var gone := PacerGone(broken, g);
    var redial := [Run(WaitDone), Run(LoadAfterSignal), Run(Reconnect(true)), Run(Rehandshake(true))];
    ExecFour(broken + gone, redial[0], redial[1], redial[2], redial[3]);
    Redials(Exec(broken + gone));
    more := gone + redial;
    assert broken + more == broken + gone + redial;
  }

  /** run has greeted the bot and is not dialling it again. */
  predicate Settled(pc: RunPc) {
    pc != NotStarted && pc != HaveContexts && pc != Reconnecting && pc != Handshaking
  }

  lemma OneMoreUngreeted(s: State, l: Label)
    requires s.streamClosed && Settled(s.run)
    ensures var t := Apply(s, l);
            t.streamClosed && Settled(t.run) && (t.log == s.log || exists e :: e != BotStart && t.log == s.log + [e])
  {
    if l.Run? {
      RunUngreeted(s, l.r);
    } else if Step(s, l).Some? {
      var t := Step(s, l).value;
      assert t.log != s.log ==> t.log == s.log + [t.log[|s.log|]];
    }
  }

  lemma RunUngreeted(s: State, r: RunLabel)
    requires s.streamClosed && Settled(s.run)
    ensures var t := Apply(s, Run(r));
            t.streamClosed && Settled(t.run) && (t.log == s.log || t.log == s.log + [BotStop])
  {
  }

  /** Once the stream is closed, and no reconnect is under way, the bot is never dialled or greeted again. */
  lemma {:induction false} ClosedStreamIsNotRedialled(labels: seq<Label>, more: seq<Label>)
    requires Exec(labels).streamClosed && Settled(Exec(labels).run)
    ensures var s, t := Exec(labels), Exec(labels + more);
            && t.streamClosed && Settled(t.run)
            && s.log <= t.log && forall i :: |s.log| <= i < |t.log| ==> t.log[i] != BotStart
  {
    if more == [] {
      assert labels + more == labels;
    } else {
      var n := |more| - 1;
      ClosedStreamIsNotRedialled(labels, more[..n]);
      assert labels + more == (labels + more[..n]) + [more[n]];
      ExecSnoc(labels + more[..n], more[n]);
      OneMoreUngreeted(Exec(labels + more[..n]), more[n]);
    }
  }

  lemma ReaderOfEndedLeaves(s: State) returns (r: Label)
    requires s.sessionDone && s.ws.conn in s.ws.deadlines && forall h :: h in s.ws.readers ==> h == s.ws.conn
    ensures Apply(s, r) == s.(ws := s.ws.(readers := map[]))
  {
    var g := s.ws.conn;
    r := Reader(g, if g in s.ws.readers && s.ws.readers[g] == AtLoopTop then Top else DeadlineHit);
    assert Without(s.ws.readers, g) == map[];
    assert g !in s.ws.readers ==> s.ws.readers == map[];
  }

  lemma PacerOfEndedLeaves(s: State) returns (p: Label)
    requires s.sessionDone && forall h :: h in s.ws.pacers ==> h == s.ws.conn
    ensures Apply(s, p) == s.(ws := s.ws.(pacers := map[], signals := Apply(s, p).ws.signals))
  {
    var g := s.ws.conn;
    p := Pacer(g, if g in s.ws.pacers && s.ws.pacers[g] == AtSelect then PacerExit else WriteFails);
    assert s.ws.pacers - {g} == map[];
    assert g !in s.ws.pacers ==> s.ws.pacers == map[];
  }

  /** Once both have left, run sees to the stop event. */
  lemma EndStops(s: State)
    requires s.run == EndWait && Quiet(s.ws)
    ensures Apply(Apply(Apply(s, Run(WaitDone)), Run(LoadAtEnd)), Run(StopAtEnd))
         == s.(run := Ended, log := if s.streamClosed then s.log else s.log + [BotStop])
  {
    var a := Apply(s, Run(WaitDone));
    assert a == s.(run := EndLoad);
    assert Apply(a, Run(LoadAtEnd)) == s.(run := EndStop(s.streamClosed));
  }

  /** In every run: when the session is over its goroutines can leave, the reader by its deadline, the pacer by
      its context or a failed write; run can end, and the bot is told unless CloseStream has seen to that. */
  lemma {:induction false} SessionEndIsAnnounced(labels: seq<Label>) returns (more: seq<Label>)
    requires Exec(labels).run == Selecting && Exec(labels).sessionDone
    ensures var s, t := Exec(labels), Exec(labels + [Run(SelectEnd)] + more);
            && t.run == Ended && Quiet(t.ws)
            && t.log == if s.streamClosed then s.log else s.log + [BotStop]
  {
    ExecInv(labels);
    ExecSnoc(labels, Run(SelectEnd));
    var end := labels + [Run(SelectEnd)];
    var s := Exec(end);
    assert s == Exec(labels).(run := EndWait, ws := SetDeadline(Exec(labels).ws));
    var r := ReaderOfEndedLeaves(s);
    var p := PacerOfEndedLeaves(Apply(s, r));
    EndStops(Apply(Apply(s, r), p));
    ExecFour(end, r, p, Run(WaitDone), Run(LoadAtEnd));
    ExecSnoc(end + [r, p, Run(WaitDone), Run(LoadAtEnd)], Run(StopAtEnd));
    more := [r, p, Run(WaitDone), Run(LoadAtEnd)] + [Run(StopAtEnd)];
    assert end + more == end + [r, p, Run(WaitDone), Run(LoadAtEnd)] + [Run(StopAtEnd)];
  }

  /** run gives up, and takes the session with it, when the first handshake or the reconnecting fails; a
      parked run waits for the end of the session. */
  lemma {:induction false} RunGivesUp(labels: seq<Label>)
    ensures var s := Exec(labels);
            && (s.run == HaveContexts ==> Exec(labels + [Run(Handshake(false))]) == s.(run := Ended, sessionDone := true))
            && (s.run == Reconnecting ==> Exec(labels + [Run(Reconnect(false))]) == s.(run := Ended, sessionDone := true))
            && (s.run == Handshaking ==> Exec(labels + [Run(Rehandshake(false))]) == s.(run := Reconnecting))
            && (s.run == Parked ==> Exec(labels + [Run(Unpark)]) == if s.sessionDone then s.(run := Ended) else s)
            && (s.run == LoopTop && s.streamClosed ==> Exec(labels + [Run(CheckClosed)]) == s.(run := Parked))
  {
    ExecSnoc(labels, Run(Handshake(false)));
    ExecSnoc(labels, Run(Reconnect(false)));
    ExecSnoc(labels, Run(Rehandshake(false)));
    ExecSnoc(labels, Run(Unpark));
    ExecSnoc(labels, Run(CheckClosed));
  }

  /** A run whose stream was closed under it leaves its select and parks, without a word to the bot. */
  lemma {:induction false} ClosedStreamParksRun(labels: seq<Label>)
    requires var s := Exec(labels); s.run == Selecting && s.streamClosed && WsDone(s) && Quiet(s.ws)
    ensures Exec(labels + [Run(SelectGate), Run(WaitDone)] + [Run(CheckClosed)]) == Exec(labels).(run := Parked)
  {
    ExecTwo(labels, Run(SelectGate), Run(WaitDone));
    ExecSnoc(labels + [Run(SelectGate), Run(WaitDone)], Run(CheckClosed));
    assert Apply(Exec(labels), Run(SelectGate)) == Exec(labels).(run := GateWait);
  }

  /** A stop event of the bot ends the session, and its reader. */
  lemma {:induction false} BotMayStop(labels: seq<Label>, g: nat)
    requires g in Exec(labels).ws.readers && Exec(labels).ws.readers[g] == InRead
    ensures var t := Exec(labels + [Reader(g, StopMessage)]);
            t.sessionDone && g !in t.ws.readers && t.log == Exec(labels).log
  {
    ExecSnoc(labels, Reader(g, StopMessage));
  }

  // ---------------------------------------------------------------------------------------------
  // Invitations

  /** The steps of a dial that must have been taken for it to be here. */
  ghost predicate Earned(labels: seq<Label>, t: nat, pc: DialPc) {
    && Dial(t, NewDial) in labels
    && (pc != EnterClose ==> Dial(t, DialLabel.Enter) in labels)
    && (pc == AtLeg || pc == AtGuard || pc == AtInvite || pc == Ringing ==> Dial(t, Port(true)) in labels)
    && (pc == AtGuard || pc == AtInvite || pc == Ringing ==> Dial(t, InstallLeg) in labels)
    && (pc == AtInvite || pc == Ringing ==> Dial(t, Guard(true)) in labels)
  }

  ghost predicate AllEarned(s: State, labels: seq<Label>) {
    && (forall t :: t in s.dials ==> Earned(labels, t, s.dials[t]))
    && (forall t :: Invite(t) in s.log ==> Earned(labels, t, Ringing) && t in s.dials && (s.dials[t] == Ringing || s.dials[t] == DialOver))
  }

  lemma EarnedStays(labels: seq<Label>, l: Label, t: nat, pc: DialPc)
    requires Earned(labels, t, pc)
    ensures Earned(labels + [l], t, pc)
  {
  }

  lemma DialMoves(s: State, labels: seq<Label>, t: nat, d: DialLabel)
    requires t in s.dials ==> Earned(labels, t, s.dials[t])
    ensures var u := Apply(s, Dial(t, d));
            && (t in u.dials ==> Earned(labels + [Dial(t, d)], t, u.dials[t]))
            && (t in s.dials ==> t in u.dials)
            && (t in s.dials && (s.dials[t] == Ringing || s.dials[t] == DialOver) ==> u.dials[t] == Ringing || u.dials[t] == DialOver)
            && (u.log == s.log || (u.log == s.log + [Invite(t)] && t in u.dials && u.dials[t] == Ringing))
  {
    assert Dial(t, d) in labels + [Dial(t, d)];
    if t in s.dials {
      EarnedStays(labels, Dial(t, d), t, s.dials[t]);
    }
  }

  lemma DialLeavesOthers(s: State, t: nat, d: DialLabel, k: nat)
    requires k != t
    ensures var u := Apply(s, Dial(t, d)); (k in u.dials <==> k in s.dials) && (k in s.dials ==> u.dials[k] == s.dials[k])
  {
  }

  lemma DialEarns(s: State, labels: seq<Label>, t: nat, d: DialLabel)
    requires AllEarned(s, labels)
    ensures AllEarned(Apply(s, Dial(t, d)), labels + [Dial(t, d)])
  {
    var u, all := Apply(s, Dial(t, d)), labels + [Dial(t, d)];
    DialMoves(s, labels, t, d);
    forall k | k in u.dials
      ensures Earned(all, k, u.dials[k])
    {
      if k != t {
        DialLeavesOthers(s, t, d, k);
        EarnedStays(labels, Dial(t, d), k, s.dials[k]);
      }
    }
    forall k | Invite(k) in u.log
      ensures Earned(all, k, Ringing) && k in u.dials && (u.dials[k] == Ringing || u.dials[k] == DialOver)
    {
      if Invite(k) in s.log {
        EarnedStays(labels, Dial(t, d), k, Ringing);
        if k != t {
          DialLeavesOthers(s, t, d, k);
        }
      }
    }
  }

  lemma OthersEarn(s: State, labels: seq<Label>, l: Label)
    requires AllEarned(s, labels) && !l.Dial?
    requires Apply(s, l).dials == s.dials && forall t :: Invite(t) in Apply(s, l).log ==> Invite(t) in s.log
    ensures AllEarned(Apply(s, l), labels + [l])
  {
    forall k | k in s.dials
      ensures Earned(labels + [l], k, s.dials[k])
    {
      EarnedStays(labels, l, k, s.dials[k]);
    }
    forall k | Invite(k) in s.log
      ensures Earned(labels + [l], k, Ringing)
    {
      EarnedStays(labels, l, k, Ringing);
    }
  }

  /** A callee is only invited by a dial that has been through the gate, has a port and a leg, and has found
      the call alive. */
  lemma {:induction false} InviteIsEarned(labels: seq<Label>)
    ensures AllEarned(Exec(labels), labels)
  {
    if labels != [] {
      var front, l := labels[..|labels| - 1], labels[|labels| - 1];
      InviteIsEarned(front);
      StepEarns(Exec(front), front, l);
      assert labels == front + [l];
    }
  }

  lemma SnocNoInvite(log: seq<Event>, e: Event)
    requires !e.Invite?
    ensures forall k :: Invite(k) in log + [e] ==> Invite(k) in log
  {
  }

  lemma NoInvite(s: State, l: Label)
    requires !l.Dial?
    ensures var t := Apply(s, l); t.dials == s.dials && forall k :: Invite(k) in t.log ==> Invite(k) in s.log
  {
    SnocNoInvite(s.log, BotStart);
    SnocNoInvite(s.log, BotStop);
    match l
    case Run(r) => RunLeavesAlone(s, r);
    case Pacer(g, p) =>
      PacerLeavesAlone(s, g, p);
      if g in s.ws.pacers && s.ws.pacers[g] != AtSelect {
        SnocNoInvite(s.log, Written(s.ws.pacers[g]));
      }
    case Reader(g, m) => ReaderLeavesAlone(s, g, m);
    case CloseStream => CloseLeavesAlone(s);
    case _ =>
  }

  lemma StepEarns(s: State, labels: seq<Label>, l: Label)
    requires AllEarned(s, labels)
    ensures AllEarned(Apply(s, l), labels + [l])
  {
    if l.Dial? {
      DialEarns(s, labels, l.t, l.d);
    } else {
      NoInvite(s, l);
      OthersEarn(s, labels, l);
    }
  }

  /** The callee's answer turns a call that dials out into a forwarded one. */
  lemma {:induction false} AnswerForwards(labels: seq<Label>, t: nat)
    requires t in Exec(labels).dials && Exec(labels).dials[t] == Ringing
    ensures var s, u := Exec(labels), Exec(labels + [Dial(t, Answered)]);
            && u.cell == (if s.cell == DialingOut then Forwarding else s.cell)
            && t in u.dials && u.dials[t] == DialOver && u.log == s.log
  {
    ExecSnoc(labels, Dial(t, Answered));
  }

  // ---------------------------------------------------------------------------------------------
  // What the bot hears

  /** How a write that has begun ends with this step: whether it went through. */
  function Ends(s: State, l: Label): Option<bool> {
    if !(l.Pacer? && l.g in s.ws.pacers && s.ws.pacers[l.g] != AtSelect) then None
    else
      match l.p
      case WriteDone => Some(true)
      case WriteFails => Some(false)
      case WriteDeadlineHit => if l.g in s.ws.writeDeadlines then Some(false) else None
      case _ => None
  }

  function Endings(labels: seq<Label>): seq<bool> {
    if labels == [] then []
    else Plus(Endings(labels[..|labels| - 1]), Ends(Exec(labels[..|labels| - 1]), labels[|labels| - 1]))
  }

  /** A key press, or a mark from rtpPacer or from the bot, that finds fewer than ten waiting. */
  function Offers(s: State, l: Label): Option<Event> {
    match l
    case Rtp(Dtmf(digit)) => if |s.q.dtmf| < 10 then Some(BotDtmf(digit)) else None
    case Rtp(EchoFromPacer(name)) => if |s.q.markEcho| < 10 then Some(BotMark(name)) else None
    case Reader(g, MarkMessage(name)) =>
      if g in s.ws.readers && s.ws.readers[g] == InRead && |s.q.markEcho| < 10 then Some(BotMark(name)) else None
    case _ => None
  }

  function Offered(labels: seq<Label>): seq<Event> {
    if labels == [] then []
    else Plus(Offered(labels[..|labels| - 1]), Offers(Exec(labels[..|labels| - 1]), labels[|labels| - 1]))
  }

  /** What the bot has been sent of the call. */
  function Exposed(log: seq<Event>): seq<Event> {
    if log == [] then []
    else if Exposes(log[|log| - 1]) then Exposed(log[..|log| - 1]) + [log[|log| - 1]] else Exposed(log[..|log| - 1])
  }

  /** The writes that went through. */
  function Completed(begun: seq<Event>, ends: seq<bool>): seq<Event>
    requires |ends| <= |begun|
  {
    if ends == [] then []
    else
      var n := |ends| - 1;
      if ends[n] then Completed(begun, ends[..n]) + [begun[n]] else Completed(begun, ends[..n])
  }

  /** A pacer inside a write is at the write that began last; every other one has ended. */
  ghost predicate InWrite(pacers: map<nat, PacerPc>, begun: seq<Event>, ends: seq<bool>) {
    if exists g :: g in pacers && pacers[g] != AtSelect then
      && |begun| == |ends| + 1
      && (forall g :: g in pacers && pacers[g] != AtSelect ==> Written(pacers[g]) == begun[|ends|])
    else |begun| == |ends|
  }

  ghost predicate Heard(s: State, offered: seq<Event>, begun: seq<Event>, ends: seq<bool>) {
    && InWrite(s.ws.pacers, begun, ends)
    && Exposed(s.log) == Completed(begun, ends)
    && Values(begun, Key) + s.q.dtmf == Values(offered, Key)
    && Values(begun, Mark) + s.q.markEcho == Values(offered, Mark)
    && |s.q.dtmf| <= 10 && |s.q.markEcho| <= 10
  }

  lemma {:induction false} CompletedStays(begun: seq<Event>, e: Event, ends: seq<bool>)
    requires |ends| <= |begun|
    ensures Completed(begun + [e], ends) == Completed(begun, ends)
  {
    if ends != [] {
      CompletedStays(begun, e, ends[..|ends| - 1]);
    }
  }

  lemma CompletedSnoc(begun: seq<Event>, ends: seq<bool>, last: bool)
    requires |ends| < |begun|
    ensures Completed(begun, ends + [last])
         == if last then Completed(begun, ends) + [begun[|ends|]] else Completed(begun, ends)
  {
    assert (ends + [last])[..|ends|] == ends;
  }

  lemma ExposedSnoc(log: seq<Event>, e: Event)
    ensures Exposed(log + [e]) == if Exposes(e) then Exposed(log) + [e] else Exposed(log)
  {
    assert (log + [e])[..|log|] == log;
  }

  lemma ValuesOne(e: Event, kind: Kind)
    ensures Values([e], kind) == if !Is(e, kind) then []
                                 else match kind case Voice => [e.frame] case Key => [e.digit] case Mark => [e.name]
  {
    assert [e][..0] == [];
  }

  /** A pacer begins a write: its entry leaves the queue and no other queue changes. */
  lemma BeginTakes(s: State, l: Label)
    requires Begins(s, l).Some?
    ensures var t, e := Apply(s, l), Begins(s, l).value;
            && t.log == s.log
            && l.g in t.ws.pacers && t.ws.pacers == s.ws.pacers[l.g := t.ws.pacers[l.g]]
            && t.ws.pacers[l.g] != AtSelect && Written(t.ws.pacers[l.g]) == e
            && s.q.dtmf == (if e.BotDtmf? then [e.digit] else []) + t.q.dtmf
            && s.q.markEcho == (if e.BotMark? then [e.name] else []) + t.q.markEcho
  {
    match l.p
    case TakeDtmf => assert s.q.dtmf == [s.q.dtmf[0]] + s.q.dtmf[1..];
    case TakeMark => assert s.q.markEcho == [s.q.markEcho[0]] + s.q.markEcho[1..];
    case _ =>
  }

  lemma BeginOccupies(pacers: map<nat, PacerPc>, g: nat, pc: PacerPc, begun: seq<Event>, ends: seq<bool>)
    requires (forall h :: h in pacers ==> h == g) && InWrite(pacers, begun, ends)
    requires g in pacers && pacers[g] == AtSelect && pc != AtSelect
    ensures InWrite(pacers[g := pc], begun + [Written(pc)], ends)
  {
    assert pacers[g := pc][g] != AtSelect;
  }

  lemma BeginKeepsHeard(s: State, l: Label, offered: seq<Event>, begun: seq<Event>, ends: seq<bool>)
    requires Shape(s) && Heard(s, offered, begun, ends) && Begins(s, l).Some?
    ensures Heard(Apply(s, l), offered, begun + [Begins(s, l).value], ends)
  {
    var t, e := Apply(s, l), Begins(s, l).value;
    BeginTakes(s, l);
    BeginOccupies(s.ws.pacers, l.g, t.ws.pacers[l.g], begun, ends);
    ValuesOne(e, Key);
    ValuesOne(e, Mark);
    CompletedStays(begun, e, ends);
    MovesOver(begun, e, Key, s.q.dtmf, t.q.dtmf, Values(offered, Key));
    MovesOver(begun, e, Mark, s.q.markEcho, t.q.markEcho, Values(offered, Mark));
  }

  /** An entry that leaves a queue is the next of those begun. */
  lemma MovesOver(begun: seq<Event>, e: Event, kind: Kind, q: seq<nat>, rest: seq<nat>, all: seq<nat>)
    requires Values(begun, kind) + q == all && q == Values([e], kind) + rest
    ensures Values(begun + [e], kind) + rest == all
  {
    ValuesSnoc(begun, e, kind);
    ValuesOne(e, kind);
    Reassociate(Values(begun, kind), Values([e], kind), rest);
  }

  /** A pacer ends a write: it goes on, with its event in the log, or it leaves. */
  lemma EndLeaves(s: State, l: Label)
    requires Ends(s, l).Some?
    ensures var t := Apply(s, l);
            && t.q == s.q
            && if Ends(s, l).value
               then t.log == s.log + [Written(s.ws.pacers[l.g])] && t.ws.pacers == s.ws.pacers[l.g := AtSelect]
               else t.log == s.log && t.ws.pacers == s.ws.pacers - {l.g}
  {
  }

  lemma EndFrees(pacers: map<nat, PacerPc>, g: nat, begun: seq<Event>, ends: seq<bool>, b: bool)
    requires (forall h :: h in pacers ==> h == g) && InWrite(pacers, begun, ends)
    requires g in pacers && pacers[g] != AtSelect
    ensures |begun| == |ends| + 1 && begun[|ends|] == Written(pacers[g])
    ensures InWrite(pacers[g := AtSelect], begun, ends + [b]) && InWrite(pacers - {g}, begun, ends + [b])
  {
  }

  lemma EndKeepsHeard(s: State, l: Label, offered: seq<Event>, begun: seq<Event>, ends: seq<bool>)
    requires Shape(s) && Heard(s, offered, begun, ends) && Ends(s, l).Some?
    ensures Heard(Apply(s, l), offered, begun, ends + [Ends(s, l).value])
  {
    EndLeaves(s, l);
    EndFrees(s.ws.pacers, l.g, begun, ends, Ends(s, l).value);
    CompletedSnoc(begun, ends, Ends(s, l).value);
    ExposedSnoc(s.log, Written(s.ws.pacers[l.g]));
  }

  /** What is offered joins the end of its queue. */
  lemma OfferJoins(s: State, l: Label)
    requires Offers(s, l).Some?
    ensures var t, e := Apply(s, l), Offers(s, l).value;
            && t.log == s.log && t.ws.pacers == s.ws.pacers
            && t.q.dtmf == (if e.BotDtmf? then s.q.dtmf + [e.digit] else s.q.dtmf)
            && t.q.markEcho == (if e.BotMark? then s.q.markEcho + [e.name] else s.q.markEcho)
            && (e.BotDtmf? ==> |s.q.dtmf| < 10) && (e.BotMark? ==> |s.q.markEcho| < 10)
  {
  }

  lemma JoinsEnd(offered: seq<Event>, e: Event, kind: Kind, front: seq<nat>, q: seq<nat>)
    requires front + q == Values(offered, kind)
    ensures front + (q + Values([e], kind)) == Values(offered + [e], kind)
  {
    ValuesSnoc(offered, e, kind);
    ValuesOne(e, kind);
    Reassociate(front, q, Values([e], kind));
  }

  lemma Reassociate(a: seq<nat>, b: seq<nat>, c: seq<nat>)
    ensures (a + b) + c == a + (b + c)
  {
  }

  lemma OfferKeepsHeard(s: State, l: Label, offered: seq<Event>, begun: seq<Event>, ends: seq<bool>)
    requires Heard(s, offered, begun, ends) && Offers(s, l).Some?
    ensures Heard(Apply(s, l), offered + [Offers(s, l).value], begun, ends)
  {
    var e := Offers(s, l).value;
    OfferJoins(s, l);
    ValuesOne(e, Key);
    ValuesOne(e, Mark);
    JoinsEnd(offered, e, Key, Values(begun, Key), s.q.dtmf);
    JoinsEnd(offered, e, Mark, Values(begun, Mark), s.q.markEcho);
  }

  /** The bot is sent nothing of the call, and no write begins or ends. */
  ghost predicate Unheard(s: State, t: State) {
    && t.q.dtmf == s.q.dtmf && t.q.markEcho == s.q.markEcho
    && Exposed(t.log) == Exposed(s.log)
    && (forall g :: g in t.ws.pacers && t.ws.pacers[g] != AtSelect ==> g in s.ws.pacers && s.ws.pacers[g] == t.ws.pacers[g])
    && (forall g :: g in s.ws.pacers && s.ws.pacers[g] != AtSelect ==> g in t.ws.pacers && s.ws.pacers[g] == t.ws.pacers[g])
  }

  lemma RunSpawnsAtSelect(s: State, r: RunLabel)
    requires Shape(s)
    ensures var t := Apply(s, Run(r)); t.ws.pacers == s.ws.pacers || (Quiet(s.ws) && t.ws.pacers == map[s.ws.wg := AtSelect])
  {
    if r == SpawnPacer && s.run == ConnStored {
      assert s.ws.pacers == map[];
    }
  }

  lemma RunIsUnheard(s: State, r: RunLabel)
    requires Shape(s)
    ensures Unheard(s, Apply(s, Run(r)))
  {
    RunLeavesAlone(s, r);
    RunSpawnsAtSelect(s, r);
    ExposedSnoc(s.log, BotStart);
    ExposedSnoc(s.log, BotStop);
  }

  lemma PacerIsUnheard(s: State, l: Label)
    requires l.Pacer? && Begins(s, l).None? && Ends(s, l).None?
    ensures Unheard(s, Apply(s, l))
  {
  }

  lemma ReaderIsUnheard(s: State, g: nat, m: ReaderLabel)
    requires Offers(s, Reader(g, m)).None? && |s.q.markEcho| <= 10
    ensures Unheard(s, Apply(s, Reader(g, m)))
  {
    ReaderLeavesAlone(s, g, m);
  }

  lemma CloseIsUnheard(s: State)
    ensures Unheard(s, Apply(s, CloseStream))
  {
    CloseLeavesAlone(s);
    ExposedSnoc(s.log, BotStop);
  }

  lemma DialIsUnheard(s: State, t: nat, d: DialLabel)
    ensures Unheard(s, Apply(s, Dial(t, d)))
  {
    DialLeavesAlone(s, t, d);
    ExposedSnoc(s.log, Invite(t));
  }

  lemma RestIsUnheard(s: State, l: Label)
    requires Offers(s, l).None? && !l.Run? && !l.Pacer? && |s.q.dtmf| <= 10 && |s.q.markEcho| <= 10
    ensures Unheard(s, Apply(s, l))
  {
    match l
    case Reader(g, m) => ReaderIsUnheard(s, g, m);
    case CloseStream => CloseIsUnheard(s);
    case Dial(t, d) => DialIsUnheard(s, t, d);
    case _ =>
  }

  /** In every run: the bot is sent exactly what wsPacer began to write and could finish, in that order.
      The key presses and marks begun are those accepted, in order, up to what still waits; they are
      refused only when ten wait. With VoiceIsRouted, nothing else of the call reaches the bot. */
  lemma {:induction false} WhatTheBotHears(labels: seq<Label>)
    ensures Heard(Exec(labels), Offered(labels), Begun(labels), Endings(labels))
  {
    if labels != [] {
      var front, l := labels[..|labels| - 1], labels[|labels| - 1];
      var s := Exec(front);
      ExecInv(front);
      WhatTheBotHears(front);
      if Begins(s, l).Some? {
        BeginKeepsHeard(s, l, Offered(front), Begun(front), Endings(front));
      } else if Ends(s, l).Some? {
        EndKeepsHeard(s, l, Offered(front), Begun(front), Endings(front));
      } else if Offers(s, l).Some? {
        OfferKeepsHeard(s, l, Offered(front), Begun(front), Endings(front));
      } else if l.Run? {
        RunIsUnheard(s, l.r);
      } else if l.Pacer? {
        PacerIsUnheard(s, l);
      } else {
        RestIsUnheard(s, l);
      }
    }
  }

  // ---------------------------------------------------------------------------------------------
  // When the gate is safe

  lemma {:induction false} FreshId(ids: set<nat>) returns (t: nat)
    ensures forall i :: i in ids ==> i < t
    decreases |ids|
  {
    if ids == {} {
      t := 0;
    } else {
      var i :| i in ids;
      var below := FreshId(ids - {i});
      t := if i < below then below else i + 1;
      forall k | k in ids
        ensures k < t
      {
        assert k == i || k in ids - {i};
      }
    }
  }

  /** CloseStream runs to its end while run has not stored the new WaitGroup. */
  lemma CloseGoesOn(s: State)
    requires Shape(s) && s.close == LoadWg && s.run == PassedCheck
    ensures var u := Apply(Apply(s, CloseStream), CloseStream);
            u.close == SendStop && u.run == PassedCheck && u.dials == s.dials
  {
    assert Quiet(s.ws);
  }

  /** CloseStream runs to its end while run has not stored the new WaitGroup. */
  lemma CloseOvertakes(s: State, t: nat)
    requires Shape(s) && s.close == LoadWg && s.run == PassedCheck && t !in s.dials
    ensures var u := Apply(Apply(Apply(Apply(s, CloseStream), CloseStream), CloseStream), Dial(t, NewDial));
            && u.close == Closed && u.run == PassedCheck && u.dials == s.dials[t := EnterClose]
  {
    CloseGoesOn(s);
  }

  lemma DialEnters(s: State, t: nat)
    requires s.close == Closed && s.run == PassedCheck && t in s.dials && s.dials[t] == EnterClose
    ensures var u := Apply(Apply(s, Dial(t, DialLabel.Enter)), Dial(t, Return));
            u.run == PassedCheck && t in u.dials && u.dials[t] == AtPort
  {
  }

  lemma CalleeIsInvited(s: State, t: nat)
    requires t in s.dials && s.dials[t] == AtPort
    ensures var u := Apply(Apply(Apply(Apply(s, Dial(t, Port(true))), Dial(t, InstallLeg)), Dial(t, Guard(true))),
                           Dial(t, SendInvite));
            u.log == s.log + [Invite(t)] && u.run == s.run
  {
  }

  lemma RunSpawnsAfterwards(s: State)
    requires s.run == PassedCheck
    ensures var u := Apply(Apply(Apply(Apply(s, Run(StoreWg)), Run(StoreConn)), Run(SpawnPacer)), Rtp(Dtmf(0)));
            u.log == s.log && u.q.dtmf != [] && s.ws.wg + 1 in u.ws.pacers && u.ws.pacers[s.ws.wg + 1] == AtSelect
  {
  }

  lemma PacerStillWrites(s: State, g: nat)
    requires s.q.dtmf != [] && g in s.ws.pacers && s.ws.pacers[g] == AtSelect
    ensures Apply(Apply(s, Pacer(g, TakeDtmf)), Pacer(g, WriteDone)).log == s.log + [BotDtmf(s.q.dtmf[0])]
  {
  }

  /** CloseStream overtakes run, and the INVITE goes out. */
  lemma {:induction false} OvertakenRunCloses(labels: seq<Label>) returns (t: nat)
    requires Exec(labels).close == LoadWg && Exec(labels).run == PassedCheck
    ensures var u := Exec(labels + [CloseStream, CloseStream, CloseStream, Dial(t, NewDial)]);
            u.close == Closed && u.run == PassedCheck && t in u.dials && u.dials[t] == EnterClose
  {
    ExecInv(labels);
    t := FreshId(Exec(labels).dials.Keys);
    assert t !in Exec(labels).dials;
    CloseOvertakes(Exec(labels), t);
    ExecFour(labels, CloseStream, CloseStream, CloseStream, Dial(t, NewDial));
  }

  lemma {:induction false} ClosedRunInvites(closed: seq<Label>, t: nat) returns (more: seq<Label>, before: seq<Event>)
    requires var s := Exec(closed); s.close == Closed && s.run == PassedCheck && t in s.dials && s.dials[t] == EnterClose
    ensures Exec(closed + more).run == PassedCheck && Exec(closed + more).log == before + [Invite(t)]
  {
    DialEnters(Exec(closed), t);
    ExecTwo(closed, Dial(t, DialLabel.Enter), Dial(t, Return));
    var entered := closed + [Dial(t, DialLabel.Enter), Dial(t, Return)];
    CalleeIsInvited(Exec(entered), t);
    ExecFour(entered, Dial(t, Port(true)), Dial(t, InstallLeg), Dial(t, Guard(true)), Dial(t, SendInvite));
    var last := [Dial(t, Port(true)), Dial(t, InstallLeg), Dial(t, Guard(true)), Dial(t, SendInvite)];
    before := Exec(entered).log;
    more := [Dial(t, DialLabel.Enter), Dial(t, Return)] + last;
    assert closed + more == entered + last;
  }

  lemma {:induction false} OvertakenRunDials(labels: seq<Label>) returns (all: seq<Label>, t: nat, before: seq<Event>)
    requires Exec(labels).close == LoadWg && Exec(labels).run == PassedCheck
    ensures |all| > |labels| && all[..|labels|] == labels && all[|labels|] == CloseStream
    ensures Exec(all).run == PassedCheck && Exec(all).log == before + [Invite(t)]
  {
    t := OvertakenRunCloses(labels);
    var more;
    more, before := ClosedRunInvites(labels + [CloseStream, CloseStream, CloseStream, Dial(t, NewDial)], t);
    all := labels + [CloseStream, CloseStream, CloseStream, Dial(t, NewDial)] + more;
  }

  /** The pacer that run spawns afterwards forwards a key press: Go's select may take a ready queue
      although the context is done. */
  lemma {:induction false} LateRunWrites(labels: seq<Label>) returns (more: seq<Label>, digit: nat)
    requires Exec(labels).run == PassedCheck
    ensures Exec(labels + more).log == Exec(labels).log + [BotDtmf(digit)]
  {
    var g := Exec(labels).ws.wg + 1;
    RunSpawnsAfterwards(Exec(labels));
    ExecFour(labels, Run(StoreWg), Run(StoreConn), Run(SpawnPacer), Rtp(Dtmf(0)));
    var spawned := labels + [Run(StoreWg), Run(StoreConn), Run(SpawnPacer), Rtp(Dtmf(0))];
    digit := Exec(spawned).q.dtmf[0];
    PacerStillWrites(Exec(spawned), g);
    ExecTwo(spawned, Pacer(g, TakeDtmf), Pacer(g, WriteDone));
    more := [Run(StoreWg), Run(StoreConn), Run(SpawnPacer), Rtp(Dtmf(0))] + [Pacer(g, TakeDtmf), Pacer(g, WriteDone)];
    assert labels + more == spawned + [Pacer(g, TakeDtmf), Pacer(g, WriteDone)];
  }

  lemma {:induction false} OvertakenRunWrites(labels: seq<Label>) returns (more: seq<Label>)
    requires Exec(labels).close == LoadWg && Exec(labels).run == PassedCheck
    ensures more != [] && more[0] == CloseStream && !SealedLog(Exec(labels + more).log)
  {
    var dialled, t, before := OvertakenRunDials(labels);
    var late, digit := LateRunWrites(dialled);
    LateWriteShows(before, Exec(dialled + late).log, t, digit);
    more := dialled[|labels|..] + late;
    assert labels + more == dialled + late;
  }

  lemma LateWriteShows(before: seq<Event>, log: seq<Event>, t: nat, digit: nat)
    requires log == before + [Invite(t)] + [BotDtmf(digit)]
    ensures !SealedLog(log)
  {
    assert log[|before|] == Invite(t) && log[|before| + 1] == BotDtmf(digit);
  }

  lemma LoadShuts(s: State)
    requires Sealed(s) && s.close == LoadWg && s.run != PassedCheck
    ensures ShutForGood(Apply(s, CloseStream))
  {
  }

  /** When CloseStream looks for the WaitGroup, the gate holds from there on, whatever happens, if and only
      if run is not between its check of streamClosed and the store of the WaitGroup. */
  lemma {:induction false} GateIsSafeIff(labels: seq<Label>)
    requires Exec(labels).close == LoadWg
    ensures (forall more :: SealedLog(Exec(labels + [CloseStream] + more).log)) <==> Exec(labels).run != PassedCheck
  {
    if Exec(labels).run == PassedCheck {
      var more := OvertakenRunWrites(labels);
      assert labels + more == labels + [CloseStream] + more[1..];
      assert !SealedLog(Exec(labels + [CloseStream] + more[1..]).log);
    } else {
      ExecInv(labels);
      LoadShuts(Exec(labels));
      ExecSnoc(labels, CloseStream);
      StaysSealed(labels + [CloseStream]);
    }
  }

  lemma {:induction false} StaysSealed(labels: seq<Label>)
    requires ShutForGood(Exec(labels))
    ensures forall more :: SealedLog(Exec(labels + more).log)
  {
    forall more
      ensures SealedLog(Exec(labels + more).log)
    {
      GateStaysShut(labels, more);
    }
  }

  // ---------------------------------------------------------------------------------------------
  // When CloseStream can be held up

  /** The deadlines have been set, on the newest connection. */
  predicate OnTime(s: State) {
    && Past(s.close, 4) && s.run != PassedCheck && s.run != WgStored
    && (s.ws.conn > 0 ==> s.ws.conn in s.ws.writeDeadlines)
  }

  lemma RunStaysOnTime(s: State, r: RunLabel)
    requires Shape(s) && OnTime(s) && RunStep(s, r).Some?
    ensures OnTime(RunStep(s, r).value)
  {
  }

  lemma CloseStaysOnTime(s: State)
    requires OnTime(s) && CloseStep(s).Some?
    ensures OnTime(CloseStep(s).value)
  {
  }

  lemma StepStaysOnTime(s: State, l: Label)
    requires Shape(s) && OnTime(s)
    ensures OnTime(Apply(s, l))
  {
    if Step(s, l).Some? {
      match l
      case Run(r) => RunStaysOnTime(s, r);
      case CloseStream => CloseStaysOnTime(s);
      case _ => OthersStandBy(s, l);
    }
  }

  lemma OnTimeIsNotHeldUp(s: State)
    requires Shape(s) && OnTime(s)
    ensures !HeldUp(s)
  {
  }

  lemma {:induction false} OneMoreOnTime(labels: seq<Label>, l: Label)
    requires OnTime(Exec(labels))
    ensures OnTime(Exec(labels + [l]))
  {
    ExecInv(labels);
    StepStaysOnTime(Exec(labels), l);
    ExecSnoc(labels, l);
  }

  lemma {:induction false} StaysOnTime(labels: seq<Label>, more: seq<Label>)
    requires OnTime(Exec(labels))
    ensures OnTime(Exec(labels + more))
  {
    if more == [] {
      assert labels + more == labels;
    } else {
      var front, last := labels + more[..|more| - 1], more[|more| - 1];
      StaysOnTime(labels, more[..|more| - 1]);
      OneMoreOnTime(front, last);
      assert front + [last] == labels + more;
    }
  }

  /** From the store of the WaitGroup on, with the deadlines set before: CloseStream starts to wait. */
  lemma WaitBegins(s: State)
    requires Shape(s) && s.close == LoadWg && s.run == WgStored
    ensures var u := Apply(Apply(s, CloseStream), Run(StoreConn));
            && u.close == WaitWg(s.ws.wg) && u.run == ConnStored && u.ws.pacers == map[] && u.ws.wg == s.ws.wg
            && s.ws.wg !in u.ws.writeDeadlines
  {
    assert s.ws.pacers == map[];
  }

  lemma WaitsWithoutDeadline(s: State)
    requires Shape(s) && s.close == LoadWg && s.run == WgStored
    ensures var u := Apply(Apply(Apply(Apply(s, CloseStream), Run(StoreConn)), Run(SpawnPacer)), Rtp(Dtmf(0)));
            && u.close == WaitWg(s.ws.wg) && u.ws.pacers == map[s.ws.wg := AtSelect]
            && u.q.dtmf != [] && s.ws.wg !in u.ws.writeDeadlines
  {
    WaitBegins(s);
  }

  lemma TakesAndIsHeldUp(s: State, g: nat)
    requires s.close == WaitWg(g) && s.ws.pacers == map[g := AtSelect] && s.q.dtmf != [] && g !in s.ws.writeDeadlines
    ensures HeldUp(Apply(s, Pacer(g, TakeDtmf)))
  {
  }

  lemma {:induction false} StoredHoldsUp(labels: seq<Label>) returns (more: seq<Label>)
    requires Exec(labels).close == LoadWg && Exec(labels).run == WgStored
    ensures HeldUp(Exec(labels + more))
  {
    ExecInv(labels);
    var g := Exec(labels).ws.wg;
    WaitsWithoutDeadline(Exec(labels));
    ExecFour(labels, CloseStream, Run(StoreConn), Run(SpawnPacer), Rtp(Dtmf(0)));
    var waiting := labels + [CloseStream, Run(StoreConn), Run(SpawnPacer), Rtp(Dtmf(0))];
    TakesAndIsHeldUp(Exec(waiting), g);
    ExecSnoc(waiting, Pacer(g, TakeDtmf));
    more := [CloseStream, Run(StoreConn), Run(SpawnPacer), Rtp(Dtmf(0))] + [Pacer(g, TakeDtmf)];
    assert labels + more == waiting + [Pacer(g, TakeDtmf)];
  }

  lemma {:induction false} LateDeadlinesHoldUp(labels: seq<Label>) returns (more: seq<Label>)
    requires Exec(labels).close == LoadWg && (Exec(labels).run == PassedCheck || Exec(labels).run == WgStored)
    ensures HeldUp(Exec(labels + more))
  {
    if Exec(labels).run == PassedCheck {
      ExecSnoc(labels, Run(StoreWg));
      more := StoredHoldsUp(labels + [Run(StoreWg)]);
      assert labels + ([Run(StoreWg)] + more) == labels + [Run(StoreWg)] + more;
      more := [Run(StoreWg)] + more;
    } else {
      more := StoredHoldsUp(labels);
    }
  }

  /** When CloseStream sets its deadlines, it can never be held up by a blocked write afterwards if and only
      if run is not between its check of streamClosed and the store of the connection. */
  lemma {:induction false} NeverHeldUpIff(labels: seq<Label>)
    requires Exec(labels).close == SetDeadlines
    ensures (forall more :: !HeldUp(Exec(labels + [CloseStream] + more)))
       <==> Exec(labels).run != PassedCheck && Exec(labels).run != WgStored
  {
    ExecInv(labels);
    ExecSnoc(labels, CloseStream);
    if Exec(labels).run == PassedCheck || Exec(labels).run == WgStored {
      var more := LateDeadlinesHoldUp(labels + [CloseStream]);
      assert HeldUp(Exec(labels + [CloseStream] + more));
    } else {
      forall more
        ensures !HeldUp(Exec(labels + [CloseStream] + more))
      {
        StaysOnTime(labels + [CloseStream], more);
        ExecInv(labels + [CloseStream] + more);
        OnTimeIsNotHeldUp(Exec(labels + [CloseStream] + more));
      }
    }
  }

  // ---------------------------------------------------------------------------------------------
  // A run that reaches its INVITE

  /** The caller's frame `f` goes through rtpReader's routing into the hands of wsPacer. */
  function Incoming(f: nat): (labels: seq<Label>) {
    [Rtp(Arrives(f)), Rtp(FirstLoad(true)), Rtp(SecondLoad), Pacer(1, TakeMedia)]
  }

  function Start(f: nat): (labels: seq<Label>) {
    [Run(RunLabel.Enter), Run(Handshake(true)), Run(CheckClosed)] +
    [Run(StoreWg), Run(StoreConn), Run(SpawnPacer), Run(SpawnReader)] + [Reader(1, Top)] + Incoming(f) + [Pacer(1, WriteDone)]
  }

  /** <Dial> closes the stream while the reader is blocked and the pacer is held up in a write. */
  function Close(t: nat): (labels: seq<Label>) {
    [Dial(t, NewDial), Dial(t, DialLabel.Enter)] + [CloseStream, CloseStream, CloseStream, CloseStream] +
    [CloseStream, Pacer(1, WriteDeadlineHit), Reader(1, DeadlineHit), CloseStream] + [CloseStream, Dial(t, Return)]
  }

  function Place(t: nat): (labels: seq<Label>) {
    [Dial(t, Port(true)), Dial(t, InstallLeg), Dial(t, Guard(true)), Dial(t, SendInvite)]
  }

  /** The connection is up, its reader blocked in a read. */
  function Up(pacer: PacerPc, log: seq<Event>): State {
    Init().(run := Selecting, log := log,
            ws := Sockets(true, false, 1, 1, map[1 := pacer], map[1 := InRead], {}, {}, {}))
  }

  lemma FrameSteps(s: State, f: nat, log: seq<Event>)
    requires s == Up(AtSelect, log)
    ensures Apply(Apply(Apply(Apply(s, Rtp(Arrives(f))), Rtp(FirstLoad(true))), Rtp(SecondLoad)), Pacer(1, TakeMedia))
         == Up(WritesMedia(f), log)
  {
  }

  lemma {:induction false} FrameIsRouted(labels: seq<Label>, f: nat, log: seq<Event>)
    requires Exec(labels) == Up(AtSelect, log)
    ensures Exec(labels + Incoming(f)) == Up(WritesMedia(f), log)
  {
    FrameSteps(Exec(labels), f, log);
    ExecFour(labels, Rtp(Arrives(f)), Rtp(FirstLoad(true)), Rtp(SecondLoad), Pacer(1, TakeMedia));
  }

  lemma BotIsGreeted(labels: seq<Label>)
    requires labels == [Run(RunLabel.Enter), Run(Handshake(true)), Run(CheckClosed)]
    ensures Exec(labels) == Init().(run := PassedCheck, log := [BotStart], ws := Init().ws.(cancelSet := true))
  {
    ExecTwo([], labels[0], labels[1]);
    ExecSnoc([labels[0], labels[1]], labels[2]);
    assert [] + [labels[0], labels[1]] == [labels[0], labels[1]];
    assert [labels[0], labels[1]] + [labels[2]] == labels;
  }

  lemma TopComesUp(s: State)
    requires s == Init().(run := PassedCheck, log := [BotStart], ws := Init().ws.(cancelSet := true))
    ensures Apply(Apply(Apply(Apply(s, Run(StoreWg)), Run(StoreConn)), Run(SpawnPacer)), Run(SpawnReader))
         == Up(AtSelect, [BotStart]).(ws := Up(AtSelect, []).ws.(readers := map[1 := AtLoopTop]))
  {
  }

  lemma ReaderReads(s: State)
    requires s == Up(AtSelect, [BotStart]).(ws := Up(AtSelect, []).ws.(readers := map[1 := AtLoopTop]))
    ensures Apply(s, Reader(1, Top)) == Up(AtSelect, [BotStart])
  {
  }

  lemma {:induction false} StreamComesUp(labels: seq<Label>)
    requires labels == Start(0)[..8]
    ensures Exec(labels) == Up(AtSelect, [BotStart])
  {
    var top := [Run(StoreWg), Run(StoreConn), Run(SpawnPacer), Run(SpawnReader)];
    BotIsGreeted(Start(0)[..3]);
    TopComesUp(Exec(Start(0)[..3]));
    ExecFour(Start(0)[..3], Run(StoreWg), Run(StoreConn), Run(SpawnPacer), Run(SpawnReader));
    ReaderReads(Exec(Start(0)[..3] + top));
    ExecSnoc(Start(0)[..3] + top, Reader(1, Top));
    assert Start(0)[..3] + top + [Reader(1, Top)] == labels;
  }

  lemma BotHearsTheCaller(f: nat)
    ensures Exec(Start(f)) == Up(AtSelect, [BotStart, BotMedia(f)])
  {
    var up := Start(f)[..8];
    assert up == Start(0)[..8];
    StreamComesUp(up);
    FrameIsRouted(up, f, [BotStart]);
    ExecSnoc(up + Incoming(f), Pacer(1, WriteDone));
    assert up + Incoming(f) + [Pacer(1, WriteDone)] == Start(f);
  }

  /** CloseStream has cancelled the context and set both deadlines. */
  function Cut(f: nat, log: seq<Event>, t: nat): State {
    Up(WritesMedia(f), log).(streamClosed := true, cell := DialingOut, close := LoadWg, dials := map[t := InClose],
                         ws := Sockets(true, true, 1, 1, map[1 := WritesMedia(f)], map[1 := InRead], {1}, {1}, {}))
  }

  lemma CloseIsAsked(labels: seq<Label>, f: nat, log: seq<Event>, t: nat)
    requires Exec(labels) == Up(WritesMedia(f), log)
    ensures Exec(labels + Close(t)[..4]) ==
            Up(WritesMedia(f), log).(streamClosed := true, cell := DialingOut, close := CancelWs, dials := map[t := InClose])
  {
    ExecFour(labels, Dial(t, NewDial), Dial(t, DialLabel.Enter), CloseStream, CloseStream);
    assert Close(t)[..4] == [Dial(t, NewDial), Dial(t, DialLabel.Enter), CloseStream, CloseStream];
  }

  lemma StreamIsCut(labels: seq<Label>, f: nat, log: seq<Event>, t: nat)
    requires Exec(labels) == Up(WritesMedia(f), log)
    ensures Exec(labels + Close(t)[..6]) == Cut(f, log, t)
  {
    CloseIsAsked(labels, f, log, t);
    ExecTwo(labels + Close(t)[..4], CloseStream, CloseStream);
    assert labels + Close(t)[..4] + [CloseStream, CloseStream] == labels + Close(t)[..6];
  }

  lemma PacerIsCut(labels: seq<Label>, f: nat, log: seq<Event>, t: nat)
    requires Exec(labels) == Cut(f, log, t)
    ensures Exec(labels + Close(t)[6..8]) ==
            Cut(f, log, t).(close := WaitWg(1), ws := Sockets(true, true, 1, 1, map[], map[1 := InRead], {1}, {1}, {1}))
  {
    ExecTwo(labels, CloseStream, Pacer(1, WriteDeadlineHit));
    assert Close(t)[6..8] == [CloseStream, Pacer(1, WriteDeadlineHit)];
  }

  function Drained(f: nat, log: seq<Event>, t: nat): State {
    Cut(f, log, t).(close := SendStop, ws := Sockets(true, true, 1, 1, map[], map[], {1}, {1}, {1}))
  }

  lemma ReaderIsCut(s: State, f: nat, log: seq<Event>, t: nat)
    requires s == Cut(f, log, t).(close := WaitWg(1), ws := Sockets(true, true, 1, 1, map[], map[1 := InRead], {1}, {1}, {1}))
    ensures Apply(Apply(s, Reader(1, DeadlineHit)), CloseStream) == Drained(f, log, t)
  {
  }

  lemma {:induction false} StreamIsDrained(labels: seq<Label>, f: nat, log: seq<Event>, t: nat)
    requires Exec(labels) == Cut(f, log, t)
    ensures Exec(labels + Close(t)[6..10]) == Drained(f, log, t)
  {
    PacerIsCut(labels, f, log, t);
    ReaderIsCut(Exec(labels + Close(t)[6..8]), f, log, t);
    ExecTwo(labels + Close(t)[6..8], Reader(1, DeadlineHit), CloseStream);
    assert labels + Close(t)[6..8] + [Reader(1, DeadlineHit), CloseStream] == labels + Close(t)[6..10];
  }

  lemma StopIsSent(s: State, f: nat, log: seq<Event>, t: nat)
    requires s == Drained(f, log, t)
    ensures var u := Apply(Apply(s, CloseStream), Dial(t, Return));
            u.log == log + [BotStop] && u.close == Closed && u.dials == map[t := AtPort]
  {
  }

  lemma {:induction false} StreamIsClosed(labels: seq<Label>, f: nat, log: seq<Event>, t: nat)
    requires Exec(labels) == Up(WritesMedia(f), log)
    ensures var s := Exec(labels + Close(t));
            s.log == log + [BotStop] && s.close == Closed && s.dials == map[t := AtPort]
  {
    StreamIsCut(labels, f, log, t);
    StreamIsDrained(labels + Close(t)[..6], f, log, t);
    var drained := labels + Close(t)[..6] + Close(t)[6..10];
    StopIsSent(Exec(drained), f, log, t);
    ExecTwo(drained, CloseStream, Dial(t, Return));
    assert drained + [CloseStream, Dial(t, Return)] == labels + Close(t);
  }

  lemma {:induction false} NotYetOvertaken(labels: seq<Label>)
    requires !Past(Exec(labels).close, 5)
    ensures !Overtaken(labels)
  {
    if labels != [] {
      var s, l := Exec(labels[..|labels| - 1]), labels[|labels| - 1];
      if Past(s.close, 5) {
        CloseOnlyAdvances(s, l, 5);
      }
      NotYetOvertaken(labels[..|labels| - 1]);
    }
  }

  lemma {:induction false} OneMoreNotOvertaken(labels: seq<Label>, l: Label)
    requires SafelyPast(labels)
    ensures SafelyPast(labels + [l])
  {
    assert (labels + [l])[..|labels|] == labels;
    CloseOnlyAdvances(Exec(labels), l, 5);
  }

  ghost predicate SafelyPast(labels: seq<Label>) {
    !Overtaken(labels) && Past(Exec(labels).close, 5)
  }

  lemma {:induction false} NoMoreOvertaken(labels: seq<Label>, more: seq<Label>)
    requires SafelyPast(labels)
    ensures SafelyPast(labels + more)
    decreases |more|
  {
    if more == [] {
      assert labels + more == labels;
    } else {
      OneMoreNotOvertaken(labels, more[0]);
      NoMoreOvertaken(labels + [more[0]], more[1..]);
      assert labels + [more[0]] + more[1..] == labels + more;
    }
  }

  /** The load of the WaitGroup in this run finds run at its select. */
  lemma {:induction false} CloseIsInTime(labels: seq<Label>, f: nat, log: seq<Event>, t: nat, more: seq<Label>)
    requires Exec(labels) == Up(WritesMedia(f), log)
    ensures !Overtaken(labels + Close(t)[..6] + [CloseStream] + more)
  {
    StreamIsCut(labels, f, log, t);
    var cut := labels + Close(t)[..6];
    NotYetOvertaken(cut);
    ExecSnoc(cut, CloseStream);
    assert (cut + [CloseStream])[..|cut|] == cut;
    NoMoreOvertaken(cut + [CloseStream], more);
  }

  lemma {:induction false} InvitedAfter(labels: seq<Label>, t: nat)
    requires t in Exec(labels).dials && Exec(labels).dials[t] == AtPort
    ensures Exec(labels + Place(t)).log == Exec(labels).log + [Invite(t)]
  {
    ExecFour(labels, Dial(t, Port(true)), Dial(t, InstallLeg), Dial(t, Guard(true)), Dial(t, SendInvite));
    CalleeIsInvited(Exec(labels), t);
  }

  lemma CloseSplits(labels: seq<Label>, t: nat)
    ensures labels + Close(t)[..6] + [CloseStream] + (Close(t)[7..] + Place(t)) == labels + Close(t) + Place(t)
  {
  }

  /** For any frames and any <Dial> there is a run that sends an INVITE, and in which run is not overtaken:
      the bot hears the caller before CloseStream, and the frame the pacer was held up with never reaches
      it. */
  lemma {:induction false} InviteIsReached(f: nat, g: nat, t: nat)
    ensures Exec(Start(f) + Incoming(g) + Close(t) + Place(t)).log == [BotStart, BotMedia(f), BotStop, Invite(t)]
    ensures !Overtaken(Start(f) + Incoming(g) + Close(t) + Place(t))
  {
    BotHearsTheCaller(f);
    FrameIsRouted(Start(f), g, [BotStart, BotMedia(f)]);
    var held := Start(f) + Incoming(g);
    StreamIsClosed(held, g, [BotStart, BotMedia(f)], t);
    InvitedAfter(held + Close(t), t);
    CloseIsInTime(held, g, [BotStart, BotMedia(f)], t, Close(t)[7..] + Place(t));
    CloseSplits(held, t);
  }
}
