/** One connection endpoint as a value: the fields of a peer, the two
    asynchronous operations it may have in flight, and what each handler does. */
module PeerModel {
  import opened Common
  import opened Protocol

  datatype Config = Config(maxMessageSize: nat, maxSendQueueSize: nat)

  datatype Message =
    | UserMessage(data: Bytes)
    | RequestMessage(id: bv64, data: Bytes)
    | ResponseMessage(id: bv64, data: Bytes)

  /** What a peer enqueues to the dispatcher for its owner. */
  datatype Signal =
    | BecameReady
    | Handed(message: Message)
    | HealthCheckAnswered
    | ErrorOccurred(code: ErrorCode)
    | Closed

  datatype ReadOperation =
    | NotReading
    | ReadingHeader(got: Bytes)
    | ReadingBody(size: nat, got: Bytes)

  /** Socket, readiness, and everything enqueued to the dispatcher so far. */
  datatype Life = Life(open: bool, closedOnExecutor: bool, ready: bool, signals: seq<Signal>)

  /** The write queue and the write in flight; `writing` counts the bytes of the
      front frame already transferred. History: the frames push_frame accepted,
      how many of them were popped, and the bytes moved to the socket. */
  datatype Writer = Writer(
    closeAfterWrite: bool,
    queue: seq<Bytes>,
    writing: Option<nat>,
    accepted: seq<Bytes>,
    popped: nat,
    sent: Bytes)

  /** The read in flight. History: the bytes taken from the socket, and how many
      of them belong to frames the reader is done with. */
  datatype Reader = Reader(started: bool, operation: ReadOperation, consumed: Bytes, handled: nat)

  datatype State = State(life: Life, writer: Writer, reader: Reader)

  const FreshLife := Life(true, false, false, [])
  const FreshWriter := Writer(false, [], None, [], 0, [])
  const FreshReader := Reader(false, NotReading, [], 0)
  const Fresh := State(FreshLife, FreshWriter, FreshReader)

  // ---------------------------------------------------------------- checks

  predicate ValidOutgoingFrame(config: Config, frame: Bytes) {
    && HEADER_SIZE + TYPE_SIZE <= |frame|
    && |frame| == HEADER_SIZE + DecodeUint32(frame[..HEADER_SIZE]) as nat
    && ValidOutgoingSize(config, TypeOf(frame[HEADER_SIZE]), |frame| - HEADER_SIZE)
  }

  predicate ValidOutgoingSize(config: Config, kind: Option<MessageType>, bodySize: nat) {
    if bodySize < TYPE_SIZE then false
    else
      match kind
      case Some(Request) | Some(Response) =>
        TYPE_SIZE + REQUEST_ID_SIZE <= bodySize <= config.maxMessageSize + TYPE_SIZE + REQUEST_ID_SIZE
      case Some(Heartbeat) | Some(UserData) | Some(HealthCheck) | Some(HealthCheckResponse) =>
        bodySize <= config.maxMessageSize + TYPE_SIZE
      case None => false
  }

  predicate ValidIncomingBodySize(config: Config, bodySize: nat) {
    TYPE_SIZE <= bodySize <= config.maxMessageSize + TYPE_SIZE + REQUEST_ID_SIZE
  }

  // -------------------------------------------------------------- handlers

  function Emit(l: Life, signal: Signal): Life {
    l.(signals := l.signals + [signal])
  }

  function Close(l: Life): Life {
    if l.open then Emit(l.(open := false, closedOnExecutor := true), Closed)
    else l.(closedOnExecutor := true)
  }

  function HandleError(l: Life, code: ErrorCode): Life {
    if code == OperationAborted then l else Close(Emit(l, ErrorOccurred(code)))
  }

  function EnsureReady(l: Life): Life {
    if l.ready then l else Emit(l.(ready := true), BecameReady)
  }

  function StartReadingHeader(l: Life, r: Reader): Reader {
    if !l.open then r else r.(operation := ReadingHeader([]))
  }

  function Write(l: Life, w: Writer): Writer {
    if !l.open || w.queue == [] then w else w.(writing := Some(0))
  }

  predicate Accepts(config: Config, s: State, frame: Bytes) {
    s.life.open && ValidOutgoingFrame(config, frame) && |s.writer.queue| < config.maxSendQueueSize
  }

  function Enqueue(l: Life, w: Writer, frame: Bytes): Writer {
    var queued := w.(queue := w.queue + [frame], accepted := w.accepted + [frame]);
    if w.queue == [] then Write(l, queued) else queued
  }

  function PushFrame(config: Config, s: State, frame: Bytes): State {
    if !s.life.open then s
    else if !Accepts(config, s, frame) then s.(life := HandleError(s.life, NoBufferSpace))
    else s.(writer := Enqueue(s.life, s.writer, frame))
  }

  function HeaderRead(config: Config, s: State, error: Option<ErrorCode>): State
    requires s.reader.operation.ReadingHeader?
  {
    var got := s.reader.operation.got;
    var idle := s.(reader := s.reader.(operation := NotReading));
    if error.Some? then
      idle.(life := if error.value == Eof && got == [] then Close(s.life) else HandleError(s.life, error.value))
    else if |got| != HEADER_SIZE then idle.(life := HandleError(s.life, MessageSize))
    else BodyAnnounced(config, idle, DecodeUint32(got) as nat)
  }

  function BodyAnnounced(config: Config, s: State, bodySize: nat): State {
    if !ValidIncomingBodySize(config, bodySize) then s.(life := HandleError(s.life, MessageSize))
    else s.(reader := s.reader.(operation := ReadingBody(bodySize, [])))
  }

  /** The frame has been dealt with and the next header is awaited. */
  function FrameHandled(s: State): State {
    s.(reader := StartReadingHeader(s.life, s.reader.(handled := |s.reader.consumed|)))
  }

  function BodyRead(config: Config, s: State, error: Option<ErrorCode>): State
    requires s.reader.operation.ReadingBody? && TYPE_SIZE <= s.reader.operation.size
  {
    var body := s.reader.operation.got;
    var idle := s.(reader := s.reader.(operation := NotReading));
    if error.Some? then idle.(life := HandleError(s.life, error.value))
    else if |body| != s.reader.operation.size then idle.(life := HandleError(s.life, MessageSize))
    else DispatchBody(config, idle, body)
  }

  function IdentifiedMessage(kind: MessageType, body: Bytes): Message
    requires TYPE_SIZE + REQUEST_ID_SIZE <= |body|
  {
    var id := DecodeUint64(body, TYPE_SIZE);
    var data := body[TYPE_SIZE + REQUEST_ID_SIZE..];
    if kind == Request then RequestMessage(id, data) else ResponseMessage(id, data)
  }

  function DispatchBody(config: Config, s: State, body: Bytes): State
    requires TYPE_SIZE <= |body|
  {
    match TypeOf(body[0])
    case Some(Heartbeat) => FrameHandled(s)
    case Some(UserData) =>
      var readied := EnsureReady(s.life);
      if |body| > config.maxMessageSize + TYPE_SIZE then s.(life := HandleError(readied, MessageSize))
      else FrameHandled(s.(life := Emit(readied, Handed(UserMessage(body[TYPE_SIZE..])))))
    case Some(Request) | Some(Response) =>
      var readied := EnsureReady(s.life);
      if |body| < TYPE_SIZE + REQUEST_ID_SIZE || |body| > config.maxMessageSize + TYPE_SIZE + REQUEST_ID_SIZE then
        s.(life := HandleError(readied, MessageSize))
      else FrameHandled(s.(life := Emit(readied, Handed(IdentifiedMessage(TypeOf(body[0]).value, body)))))
    case Some(HealthCheck) =>
      if s.life.ready then s.(life := HandleError(s.life, OperationNotSupported))
      else PushFrame(config, s.(writer := s.writer.(closeAfterWrite := true)), Frame(HealthCheckResponse, []))
    case Some(HealthCheckResponse) => FrameHandled(s.(life := Emit(s.life, HealthCheckAnswered)))
    case None => s.(life := HandleError(s.life, InvalidArgument))
  }

  function PopFront(w: Writer): Writer
    requires w.queue != []
  {
    w.(writing := None, queue := w.queue[1..], popped := w.popped + 1)
  }

  function FrameWritten(s: State, error: Option<ErrorCode>): State
    requires s.writer.writing.Some? && s.writer.queue != []
  {
    if error.Some? then
      s.(writer := s.writer.(writing := None), life := HandleError(s.life, error.value))
    else
      var popped := PopFront(s.writer);
      if popped.queue == [] && s.writer.closeAfterWrite then s.(writer := popped, life := Close(s.life))
      else s.(writer := Write(s.life, popped))
  }

  // ----------------------------------------------------- transition system

  datatype Event =
    | Start
    | Push(frame: Bytes)
    | AsyncClose
    | BytesArrive(chunk: Bytes)
    | ReadCompletes(readError: Option<ErrorCode>)
    | BytesLeave(count: nat)
    | WriteCompletes(writeError: Option<ErrorCode>)
    | HeartbeatTimer
    | ReadyDeadline
    | DeadlineExpires  // heartbeat, read or write deadline

  function Needed(op: ReadOperation): nat
    requires !op.NotReading?
  {
    if op.ReadingHeader? then HEADER_SIZE else op.size
  }

  /** When an event may happen. A read or write succeeds only with all its bytes
      transferred; it is aborted only by a close; it may still succeed after one.
      Timers may fire at any moment, also after they were cancelled. */
  predicate Enabled(s: State, e: Event) {
    var op := s.reader.operation;
    var w := s.writer;
    match e
    case Start => !s.reader.started
    case BytesArrive(chunk) => s.life.open && !op.NotReading? && |op.got| + |chunk| <= Needed(op)
    case ReadCompletes(error) =>
      && !op.NotReading?
      && (op.ReadingBody? ==> TYPE_SIZE <= op.size)
      && (error.None? ==> |op.got| == Needed(op))
      && (error == Some(OperationAborted) ==> !s.life.open)
    case BytesLeave(count) => s.life.open && w.writing.Some? && w.queue != [] && w.writing.value + count <= |w.queue[0]|
    case WriteCompletes(error) =>
      && w.writing.Some? && w.queue != []
      && (error.None? ==> w.writing.value == |w.queue[0]|)
      && (error == Some(OperationAborted) ==> !s.life.open)
    case _ => true
  }

  function Receive(r: Reader, chunk: Bytes): Reader
    requires !r.operation.NotReading?
  {
    r.(consumed := r.consumed + chunk,
       operation := match r.operation
                    case ReadingHeader(got) => ReadingHeader(got + chunk)
                    case ReadingBody(size, got) => ReadingBody(size, got + chunk))
  }

  function Transfer(w: Writer, count: nat): Writer
    requires w.writing.Some? && w.queue != [] && w.writing.value + count <= |w.queue[0]|
  {
    w.(sent := w.sent + w.queue[0][w.writing.value..w.writing.value + count], writing := Some(w.writing.value + count))
  }

  function Step(config: Config, s: State, e: Event): State {
    if !Enabled(s, e) then s else
    match e
    case Start => s.(reader := StartReadingHeader(s.life, s.reader.(started := true)))
    case Push(frame) => PushFrame(config, s, frame)
    case AsyncClose => s.(life := Close(s.life))
    case BytesArrive(chunk) => s.(reader := Receive(s.reader, chunk))
    case ReadCompletes(error) =>
      if s.reader.operation.ReadingHeader? then HeaderRead(config, s, error) else BodyRead(config, s, error)
    case BytesLeave(count) => s.(writer := Transfer(s.writer, count))
    case WriteCompletes(error) => FrameWritten(s, error)
    case HeartbeatTimer => if s.life.open then PushFrame(config, s, Frame(Heartbeat, [])) else s
    case ReadyDeadline => s.(life := EnsureReady(s.life))
    case DeadlineExpires => s.(life := HandleError(s.life, TimedOut))
  }

  function Run(config: Config, s: State, events: seq<Event>): State
    decreases |events|
  {
    if events == [] then s else Run(config, Step(config, s, events[0]), events[1..])
  }
}
