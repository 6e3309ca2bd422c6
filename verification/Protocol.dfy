/**
 The session protocol as two endpoints taking atomic steps: what one coroutine
 does between two suspension points. Frames travel write queue -> wire -> reader;
 handlers, timers, the closing coroutine and the application interleave freely.
 */
module Protocol {
  import opened Words
  import opened StringHash
  import opened Framing
  import opened AsyncOps

  const QUEUE_CAPACITY := 256

  // ----- one endpoint -----

  datatype Failure = QueueClosed | TimedOut | ChannelClosed | Remote
  datatype CallPhase = Registered | Awaiting | Returned(body: Bytes) | Failed(why: Failure)
  datatype Call = Call(name: Name, request: Bytes, phase: CallPhase)

  /** A spawned request handler: running, about to send its reply, about to send an error, or over. */
  datatype RunPhase = Running | Replying | Refusing | Finished
  datatype HandlerRun = HandlerRun(at: nat, request: Frame, output: Option<Bytes>, phase: RunPhase)

  /** Where the reader coroutine is suspended. */
  datatype Reader = Idle | Answering(at: nat, thenClose: bool) | Completing(token: Token, result: Result) | Gone

  /** How far close() has got. */
  datatype Teardown = Open | Marked | QueueShut | Swept | StreamShut

  datatype Config = Config(limit: nat, signed: bool)

  /** What a queued reply answers: the position of its request among the frames read, and the handler run if one replied. */
  datatype Origin = Origin(at: nat, run: Option<nat>)

  datatype Endpoint = Endpoint(
    config: Config,
    ops: Ops,
    calls: map<Token, Call>,
    queue: seq<Frame>,
    wire: seq<Frame>,
    writing: bool,
    reader: Reader,
    runs: seq<HandlerRun>,
    strand: seq<Frame>,
    teardown: Teardown,
    sweeping: set<Token>,
    // history
    sent: seq<Frame>,                // accepted by the write queue
    got: seq<Frame>,                 // taken off the wire by the reader
    origin: map<nat, Origin>,        // for each reply in `sent`, what it answers
    applied: seq<Frame>,             // notifications handed to the application
    attempts: seq<(Frame, bool)>,    // notifications the application tried to send, and the answer it got
    completedBy: map<Token, nat>,    // tokens taken by a reply, and its position in `got`
    delivered: set<Token>,           // tokens whose result reached the channel
    swept: set<Token>,               // tokens taken by close()
    sweptAt: Token)                  // the next token when close() swept

  function Fresh(config: Config): Endpoint {
    Endpoint(config, NoOps, map[], [], [], true, Idle, [], [], Open, {}, [], [], map[], [], [], map[], {}, {}, 0)
  }

  predicate QueueOpen(e: Endpoint) {
    e.teardown.Open? || e.teardown.Marked?
  }

  predicate PastSweep(e: Endpoint) {
    e.teardown.Swept? || e.teardown.StreamShut?
  }

  predicate CanPush(e: Endpoint) {
    QueueOpen(e) && |e.queue| < QUEUE_CAPACITY
  }

  function Push(e: Endpoint, f: Frame): Endpoint {
    e.(queue := e.queue + [f], sent := e.sent + [f])
  }

  /** The first close() wins; later ones return at once. */
  function Mark(e: Endpoint): Endpoint {
    e.(teardown := if e.teardown.Open? then Marked else e.teardown)
  }

  function RequestFrame(config: Config, t: Token, call: Call): Frame
    requires t < TWO64
  {
    Frame(Request, CallId(call.name, config.signed), t, call.request)
  }

  const PING := Frame(Ping, 0, 0, [])
  const PONG := Frame(Pong, 0, 0, [])

  function ReplyTo(request: Frame, kind: Kind, body: Bytes): Frame {
    Frame(kind, request.callId, request.token, body)
  }

  predicate IsReply(f: Frame) {
    f.kind.Response? || f.kind.Error?
  }

  function ResultOf(f: Frame): Result {
    if f.kind.Response? then Ok(f.body) else Err
  }

  function SetPhase(e: Endpoint, t: Token, phase: CallPhase): Endpoint
    requires t in e.calls
  {
    e.(calls := e.calls[t := e.calls[t].(phase := phase)])
  }

  function SetRun(e: Endpoint, k: nat, run: HandlerRun): Endpoint
    requires k < |e.runs|
  {
    e.(runs := e.runs[k := run])
  }

  predicate InPhase(e: Endpoint, t: Token, phase: CallPhase) {
    t in e.calls && e.calls[t].phase == phase
  }

  // ----- the calling coroutine: session::call -----

  datatype CallerStep =
    | BeginCall(name: Name, request: Bytes)
    | QueueRequest(token: Token)
    | Receive(token: Token)
    | Timeout(token: Token)

  /** A send on a full queue waits; a send on a closed one fails. */
  predicate CanCall(e: Endpoint, step: CallerStep) {
    match step
    case BeginCall(_, request) => e.ops.next < TWO64 && |request| < TWO64
    case QueueRequest(t) => InPhase(e, t, Registered) && t < TWO64 && (CanPush(e) || !QueueOpen(e))
    case Receive(t) =>
      InPhase(e, t, Awaiting) && t in e.ops.channels && (e.ops.channels[t].buffer != [] || e.ops.channels[t].closed)
    case Timeout(t) => InPhase(e, t, Awaiting)
  }

  function PhaseFor(r: Result): CallPhase {
    match r case Ok(body) => Returned(body) case Err => Failed(Remote)
  }

  function DoCall(e: Endpoint, step: CallerStep): Endpoint
    requires CanCall(e, step)
  {
    match step
    case BeginCall(name, request) =>
      e.(ops := Create(e.ops), calls := e.calls[e.ops.next := Call(name, request, Registered)])
    case QueueRequest(t) =>
      if QueueOpen(e) then SetPhase(Push(e, RequestFrame(e.config, t, e.calls[t])), t, Awaiting)
      else SetPhase(e, t, Failed(QueueClosed))
    case Receive(t) =>
      var channel := e.ops.channels[t];
      if channel.buffer == [] then SetPhase(e, t, Failed(ChannelClosed))
      else
        SetPhase(e.(ops := e.ops.(channels := e.ops.channels[t := channel.(buffer := channel.buffer[1..])])),
                 t, PhaseFor(channel.buffer[0]))
    case Timeout(t) => SetPhase(e, t, Failed(TimedOut))
  }

  // ----- the application: try_ping, try_notify and notify, close -----

  datatype AppStep = TryPing | Notify(callId: Word, payload: Bytes) | Close

  predicate CanAct(e: Endpoint, step: AppStep) {
    match step
    case TryPing => true
    case Notify(_, payload) => |payload| < TWO64
    case Close => e.teardown.Open?
  }

  function NotificationFrame(callId: Word, payload: Bytes): Frame {
    Frame(Notification, callId, 0, payload)
  }

  function DoAct(e: Endpoint, step: AppStep): Endpoint
    requires CanAct(e, step)
  {
    match step
    case TryPing => if CanPush(e) then Push(e, PING) else e
    case Notify(callId, payload) =>
      var f := NotificationFrame(callId, payload);
      if CanPush(e) then Push(e, f).(attempts := e.attempts + [(f, true)])
      else e.(attempts := e.attempts + [(f, false)])
    case Close => Mark(e)
  }

  // ----- the writer coroutine: msg_writer -----

  datatype WriterStep = WriteFrame | WriterExit

  predicate CanWrite(e: Endpoint, step: WriterStep) {
    e.writing && (step.WriteFrame? ==> e.queue != [] && !e.teardown.StreamShut?)
  }

  function DoWrite(e: Endpoint, step: WriterStep): Endpoint
    requires CanWrite(e, step)
  {
    match step
    case WriteFrame => e.(queue := e.queue[1..], wire := e.wire + [e.queue[0]])
    case WriterExit => Mark(e.(writing := false))
  }

  // ----- a request handler: the coroutine dispatch_request spawns -----

  datatype HandlerStep = HandlerDone(output: Option<Bytes>) | SendReply | SendReplyFails | SendRefusal | SendRefusalFails

  predicate CanHandle(e: Endpoint, k: nat, step: HandlerStep) {
    k < |e.runs| &&
    match step
    case HandlerDone(output) => e.runs[k].phase.Running? && (output.Some? ==> |output.value| < TWO64)
    case SendReply => e.runs[k].phase.Replying? && e.runs[k].output.Some? && CanPush(e)
    case SendReplyFails => e.runs[k].phase.Replying?
    case SendRefusal => e.runs[k].phase.Refusing? && CanPush(e)
    case SendRefusalFails => e.runs[k].phase.Refusing?
  }

  /** Queues a reply and records what it answers. */
  function Answer(e: Endpoint, f: Frame, origin: Origin): Endpoint {
    Push(e, f).(origin := e.origin[|e.sent| := origin])
  }

  function DoHandle(e: Endpoint, k: nat, step: HandlerStep): Endpoint
    requires CanHandle(e, k, step)
  {
    var run := e.runs[k];
    match step
    case HandlerDone(output) =>
      SetRun(e, k, run.(output := output, phase := if output.Some? then Replying else Refusing))
    case SendReply =>
      SetRun(Answer(e, ReplyTo(run.request, Response, run.output.value), Origin(run.at, Some(k))), k, run.(phase := Finished))
    case SendReplyFails => SetRun(e, k, run.(phase := Refusing))
    case SendRefusal =>
      SetRun(Answer(e, ReplyTo(run.request, Error, []), Origin(run.at, None)), k, run.(phase := Finished))
    case SendRefusalFails => SetRun(e, k, run.(phase := Finished))
  }

  // ----- the reader coroutine, where it is suspended, and the notification strand -----

  datatype ReaderStep = ReadFails | AnswerError | AnswerErrorFails | SendResult | ApplyNotification

  predicate CanResume(e: Endpoint, step: ReaderStep) {
    match step
    case ReadFails => e.reader.Idle?
    case AnswerError => e.reader.Answering? && e.reader.at < |e.got| && CanPush(e)
    case AnswerErrorFails => e.reader.Answering?
    case SendResult => e.reader.Completing? && e.reader.token in e.ops.channels
    case ApplyNotification => e.strand != []
  }

  function DoResume(e: Endpoint, step: ReaderStep): Endpoint
    requires CanResume(e, step)
  {
    match step
    case ReadFails => Mark(e.(reader := Gone))
    case AnswerError =>
      var answered := Answer(e, ReplyTo(e.got[e.reader.at], Error, []), Origin(e.reader.at, None));
      if e.reader.thenClose then Mark(answered).(reader := Gone) else answered.(reader := Idle)
    case AnswerErrorFails => Mark(e.(reader := Gone))
    case SendResult =>
      e.(ops := Deliver(e.ops, e.reader.token, e.reader.result), reader := Idle, delivered := e.delivered + {e.reader.token})
    case ApplyNotification => e.(strand := e.strand[1..], applied := e.applied + [e.strand[0]])
  }

  // ----- the coroutine inside close(): the write queue first, then the pending calls, then the stream -----

  datatype CloserStep = ShutQueue | Sweep | CloseChannel(token: Token) | ShutStream

  predicate CanClose(e: Endpoint, step: CloserStep) {
    match step
    case ShutQueue => e.teardown.Marked?
    case Sweep => e.teardown.QueueShut?
    case CloseChannel(t) => t in e.sweeping && t in e.ops.channels
    case ShutStream => e.teardown.Swept? && e.sweeping == {}
  }

  function DoClose(e: Endpoint, step: CloserStep): Endpoint
    requires CanClose(e, step)
  {
    match step
    case ShutQueue => e.(teardown := QueueShut)
    case Sweep =>
      e.(teardown := Swept, ops := DetachAll(e.ops), sweeping := e.ops.pending, swept := e.swept + e.ops.pending,
         sweptAt := e.ops.next)
    case CloseChannel(t) => e.(ops := Shut(e.ops, t), sweeping := e.sweeping - {t})
    case ShutStream => e.(teardown := StreamShut)
  }

  // ----- the reader coroutine, on the next frame -----

  /** Whether the reader takes the frame; an oversized request is taken so that it can be answered. */
  predicate Takes(e: Endpoint, f: Frame) {
    Bodiless(f.kind) || f.kind.Request? || |f.body| <= e.config.limit
  }

  /** A request within the size limit and the rate limit gets a handler. */
  predicate Serves(e: Endpoint, f: Frame, allowed: bool) {
    f.kind.Request? && |f.body| <= e.config.limit && allowed
  }

  /** A reply whose token is still pending takes it; any other reply is dropped. */
  predicate Resolves(e: Endpoint, f: Frame) {
    IsReply(f) && f.token in e.ops.pending
  }

  function PongFor(e: Endpoint, f: Frame): seq<Frame> {
    if f.kind.Ping? && CanPush(e) then [PONG] else []
  }

  /** The reader's switch, on a frame it takes; `allowed` is the rate gate's verdict. */
  function Digest(e: Endpoint, f: Frame, allowed: bool): Endpoint {
    var at := |e.got|;
    e.(got := e.got + [f],
       queue := e.queue + PongFor(e, f),
       sent := e.sent + PongFor(e, f),
       strand := if f.kind.Notification? then e.strand + [f] else e.strand,
       runs := if Serves(e, f, allowed) then e.runs + [HandlerRun(at, f, None, Running)] else e.runs,
       ops := if Resolves(e, f) then Detach(e.ops, f.token) else e.ops,
       completedBy := if Resolves(e, f) then e.completedBy[f.token := at] else e.completedBy,
       reader := if f.kind.Request? && !Serves(e, f, allowed) then Answering(at, |f.body| > e.config.limit)
                 else if Resolves(e, f) then Completing(f.token, ResultOf(f))
                 else e.reader)
  }

  // ----- two endpoints -----

  datatype Side = Left | Right

  datatype System = System(left: Endpoint, right: Endpoint) {
    function Mine(side: Side): Endpoint {
      if side.Left? then left else right
    }

    function Peer(side: Side): Endpoint {
      if side.Left? then right else left
    }
  }

  function Both(side: Side, mine: Endpoint, peer: Endpoint): System {
    if side.Left? then System(mine, peer) else System(peer, mine)
  }

  datatype Step =
    | Caller(caller: CallerStep)
    | App(app: AppStep)
    | Writer(writer: WriterStep)
    | Handler(run: nat, handler: HandlerStep)
    | Resume(resume: ReaderStep)
    | Closer(closer: CloserStep)
    | ReadFrame(allowed: bool)

  predicate Enabled(e: Endpoint, peer: Endpoint, step: Step) {
    match step
    case Caller(c) => CanCall(e, c)
    case App(a) => CanAct(e, a)
    case Writer(w) => CanWrite(e, w)
    case Handler(k, h) => CanHandle(e, k, h)
    case Resume(r) => CanResume(e, r)
    case Closer(c) => CanClose(e, c)
    case ReadFrame(_) => e.reader.Idle? && !e.teardown.StreamShut? && peer.wire != []
  }

  /** The effect on the endpoint that takes the step. */
  function After(e: Endpoint, peer: Endpoint, step: Step): Endpoint
    requires Enabled(e, peer, step)
  {
    match step
    case Caller(c) => DoCall(e, c)
    case App(a) => DoAct(e, a)
    case Writer(w) => DoWrite(e, w)
    case Handler(k, h) => DoHandle(e, k, h)
    case Resume(r) => DoResume(e, r)
    case Closer(c) => DoClose(e, c)
    case ReadFrame(allowed) =>
      if Takes(e, peer.wire[0]) then Digest(e, peer.wire[0], allowed) else Mark(e.(reader := Gone))
  }

  /** The effect on its peer: a frame read leaves the wire. */
  function PeerAfter(e: Endpoint, peer: Endpoint, step: Step): Endpoint
    requires Enabled(e, peer, step)
  {
    if step.ReadFrame? && Takes(e, peer.wire[0]) then peer.(wire := peer.wire[1..]) else peer
  }

  datatype Move = Move(side: Side, step: Step)

  predicate CanMove(s: System, m: Move) {
    Enabled(s.Mine(m.side), s.Peer(m.side), m.step)
  }

  function Next(s: System, m: Move): System
    requires CanMove(s, m)
  {
    var mine, peer := s.Mine(m.side), s.Peer(m.side);
    Both(m.side, After(mine, peer, m.step), PeerAfter(mine, peer, m.step))
  }

  /** A run: the moves made and the states passed through. */
  ghost predicate Run(start: System, moves: seq<Move>, states: seq<System>) {
    && |states| == |moves| + 1
    && states[0] == start
    && forall i :: 0 <= i < |moves| ==> CanMove(states[i], moves[i]) && states[i + 1] == Next(states[i], moves[i])
  }

  ghost predicate Reachable(s: System) {
    exists left: Config, right: Config, moves, states ::
      Run(System(Fresh(left), Fresh(right)), moves, states) && states[|moves|] == s
  }
}
