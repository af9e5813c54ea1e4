/** What every handler of a peer keeps: the write queue discipline, the life
    cycle its owner relies on, and the reader's agreement with the parser. */
module PeerProofs {
  import opened Common
  import opened Protocol
  import opened PeerModel
  import opened PeerFraming

  // ------------------------------------------------------- write discipline

  /** The queue is the accepted frames not yet popped, within its bound, and one
      write, of the front frame, is in flight exactly while an open peer has frames queued. */
  ghost predicate QueueShape(config: Config, open: bool, w: Writer) {
    && w.popped <= |w.accepted|
    && w.queue == w.accepted[w.popped..]
    && |w.queue| <= config.maxSendQueueSize
    && (forall f :: f in w.accepted ==> ValidOutgoingFrame(config, f))
    && (w.writing.Some? ==> w.queue != [] && w.writing.value <= |w.queue[0]|)
    && (open ==> (w.writing.Some? <==> w.queue != []))
  }

  /** The bytes that left are the accepted frames, in order, and on an open peer
      exactly the popped frames and the transferred part of the front one. */
  ghost predicate SentInOrder(open: bool, w: Writer)
    requires w.popped <= |w.accepted|
    requires w.writing.Some? ==> w.queue != [] && w.writing.value <= |w.queue[0]|
  {
    && w.sent <= Concat(w.accepted)
    && (w.writing.Some? ==> w.sent == Concat(w.accepted[..w.popped]) + w.queue[0][..w.writing.value])
    && (open && w.writing.None? ==> w.sent == Concat(w.accepted))
  }

  ghost predicate WriteDiscipline(config: Config, open: bool, w: Writer) {
    QueueShape(config, open, w) && SentInOrder(open, w)
  }

  lemma FrontOfQueue(w: Writer)
    requires w.popped < |w.accepted| && w.queue == w.accepted[w.popped..]
    ensures Concat(w.accepted[..w.popped + 1]) == Concat(w.accepted[..w.popped]) + w.queue[0]
    ensures Concat(w.accepted[..w.popped]) + w.queue[0] <= Concat(w.accepted)
  {
    var before := w.accepted[..w.popped];
    assert w.accepted[..w.popped + 1] == before + [w.queue[0]];
    ConcatAppend(before, w.queue[0]);
    ConcatSplit(w.accepted, w.popped + 1);
  }

  lemma EnqueueKeepsQueueShape(config: Config, s: State, frame: Bytes)
    requires QueueShape(config, s.life.open, s.writer) && Accepts(config, s, frame)
    ensures QueueShape(config, s.life.open, Enqueue(s.life, s.writer, frame))
  {
    hide ValidOutgoingFrame;
    var w, t := s.writer, Enqueue(s.life, s.writer, frame);
    assert t.accepted[t.popped..] == w.accepted[w.popped..] + [frame];
    assert w.queue != [] ==> t.queue[0] == w.queue[0];
  }

  lemma EnqueueKeepsSentInOrder(open: bool, w: Writer, t: Writer, frame: Bytes)
    requires w.popped <= |w.accepted| && w.queue == w.accepted[w.popped..]
    requires w.writing.Some? ==> w.queue != [] && w.writing.value <= |w.queue[0]|
    requires open && (w.writing.Some? <==> w.queue != []) && SentInOrder(open, w)
    requires t == w.(queue := w.queue + [frame], accepted := w.accepted + [frame],
                     writing := if w.queue == [] then Some(0) else w.writing)
    ensures SentInOrder(open, t)
  {
    ConcatAppend(w.accepted, frame);
    assert t.accepted[..t.popped] == w.accepted[..w.popped];
    if w.queue == [] {
      assert w.accepted[..w.popped] == w.accepted;
      assert t.queue[0][..0] == [];
    } else {
      assert t.queue[0] == w.queue[0];
    }
  }

  lemma PushKeepsWriteDiscipline(config: Config, s: State, frame: Bytes)
    requires WriteDiscipline(config, s.life.open, s.writer)
    ensures WriteDiscipline(config, PushFrame(config, s, frame).life.open, PushFrame(config, s, frame).writer)
  {
    hide ValidOutgoingFrame, Concat;
    if Accepts(config, s, frame) {
      EnqueueKeepsQueueShape(config, s, frame);
      EnqueueKeepsSentInOrder(s.life.open, s.writer, Enqueue(s.life, s.writer, frame), frame);
    }
  }

  lemma PopKeepsQueueShape(config: Config, s: State)
    requires QueueShape(config, s.life.open, s.writer) && Enabled(s, WriteCompletes(None))
    ensures QueueShape(config, FrameWritten(s, None).life.open, FrameWritten(s, None).writer)
  {
    hide ValidOutgoingFrame;
    var w := s.writer;
    assert w.queue[1..] == w.accepted[w.popped + 1..];
  }

  lemma PopKeepsSentInOrder(config: Config, s: State)
    requires WriteDiscipline(config, s.life.open, s.writer) && Enabled(s, WriteCompletes(None))
    requires QueueShape(config, FrameWritten(s, None).life.open, FrameWritten(s, None).writer)
    ensures SentInOrder(FrameWritten(s, None).life.open, FrameWritten(s, None).writer)
    ensures PopFront(s.writer).queue == [] ==> FrameWritten(s, None).writer.sent == Concat(s.writer.accepted)
  {
    hide ValidOutgoingFrame;
    var w, t := s.writer, FrameWritten(s, None).writer;
    FrontOfQueue(w);
    assert w.queue[0][..w.writing.value] == w.queue[0];
    if t.queue == [] {
      assert t.accepted[..t.popped] == t.accepted;
    } else {
      assert t.queue[0][..0] == [];
    }
  }

  lemma TransferKeepsWriteDiscipline(config: Config, s: State, count: nat)
    requires WriteDiscipline(config, s.life.open, s.writer) && Enabled(s, BytesLeave(count))
    ensures WriteDiscipline(config, s.life.open, Transfer(s.writer, count))
  {
    hide ValidOutgoingFrame;
    TransferInOrder(s.writer, count);
  }

  lemma TransferInOrder(w: Writer, count: nat)
    requires w.popped < |w.accepted| && w.queue == w.accepted[w.popped..]
    requires w.writing.Some? && w.writing.value + count <= |w.queue[0]|
    requires SentInOrder(true, w)
    ensures SentInOrder(true, Transfer(w, count))
  {
    FrontOfQueue(w);
    PartOfFront(Concat(w.accepted[..w.popped]), w.queue[0], Concat(w.accepted), w.writing.value, count);
  }

  lemma PartOfFront(before: Bytes, front: Bytes, all: Bytes, k: nat, count: nat)
    requires before + front <= all && k + count <= |front|
    ensures before + front[..k] + front[k..k + count] == before + front[..k + count] <= all
  {
    assert front[..k] + front[k..k + count] == front[..k + count];
    assert before + front[..k + count] == (before + front)[..|before| + k + count];
  }

  lemma ReadKeepsWriteDiscipline(config: Config, s: State, error: Option<ErrorCode>)
    requires WriteDiscipline(config, s.life.open, s.writer) && Enabled(s, ReadCompletes(error))
    ensures var t := Step(config, s, ReadCompletes(error)); WriteDiscipline(config, t.life.open, t.writer)
  {
    hide ValidOutgoingFrame;
    var idle := s.(reader := s.reader.(operation := NotReading), writer := s.writer.(closeAfterWrite := true));
    PushKeepsWriteDiscipline(config, idle, Frame(HealthCheckResponse, []));
  }

  lemma StepKeepsWriteDiscipline(config: Config, s: State, e: Event)
    requires WriteDiscipline(config, s.life.open, s.writer)
    ensures WriteDiscipline(config, Step(config, s, e).life.open, Step(config, s, e).writer)
  {
    hide ValidOutgoingFrame;
    if Enabled(s, e) {
      match e
      case Push(frame) => PushKeepsWriteDiscipline(config, s, frame);
      case HeartbeatTimer => PushKeepsWriteDiscipline(config, s, Frame(Heartbeat, []));
      case BytesLeave(count) => TransferKeepsWriteDiscipline(config, s, count);
      case WriteCompletes(error) =>
        if error.None? {
          PopKeepsQueueShape(config, s);
          PopKeepsSentInOrder(config, s);
        }
      case ReadCompletes(error) => ReadKeepsWriteDiscipline(config, s, error);
      case _ =>
    }
  }

  /** A peer that closes because its last write is done closes with every
      accepted frame completely written. */
  lemma CloseAfterWriteLosesNothing(config: Config, s: State)
    requires WriteDiscipline(config, s.life.open, s.writer) && Enabled(s, WriteCompletes(None))
    requires s.life.open && !Step(config, s, WriteCompletes(None)).life.open
    ensures var t := Step(config, s, WriteCompletes(None));
            s.writer.closeAfterWrite && t.writer.queue == [] && t.writer.sent == Concat(s.writer.accepted)
  {
    PopKeepsQueueShape(config, s);
    PopKeepsSentInOrder(config, s);
  }

  // ------------------------------------------------------------- life cycle

  function Count(signals: seq<Signal>, signal: Signal): nat {
    if signals == [] then 0
    else Count(signals[..|signals| - 1], signal) + (if signals[|signals| - 1] == signal then 1 else 0)
  }

  predicate ReadyFirst(signals: seq<Signal>) {
    forall i :: 0 <= i < |signals| && signals[i].Handed? ==> BecameReady in signals[..i]
  }

  /** `ready` and `closed` are each signalled once, exactly when the field says
      so, and no message precedes `ready`. */
  ghost predicate LifeCycle(l: Life) {
    && Count(l.signals, Closed) == (if l.open then 0 else 1)
    && l.closedOnExecutor == !l.open
    && Count(l.signals, BecameReady) == (if l.ready then 1 else 0)
    && (l.ready <==> BecameReady in l.signals)
    && ReadyFirst(l.signals)
  }

  lemma CountAppend(signals: seq<Signal>, signal: Signal, x: Signal)
    ensures Count(signals + [signal], x) == Count(signals, x) + (if x == signal then 1 else 0)
  {
    assert (signals + [signal])[..|signals|] == signals;
  }

  lemma ReadyFirstAppend(signals: seq<Signal>, signal: Signal)
    requires ReadyFirst(signals)
    requires signal.Handed? ==> BecameReady in signals
    ensures ReadyFirst(signals + [signal])
  {
    var extended := signals + [signal];
    forall i | 0 <= i < |extended| && extended[i].Handed?
      ensures BecameReady in extended[..i]
    {
      assert extended[..i] == signals[..i];
      if i == |signals| {
        assert signals[..i] == signals;
      }
    }
  }

  lemma EmitAppends(l: Life, signal: Signal)
    requires ReadyFirst(l.signals) && (signal.Handed? ==> BecameReady in l.signals)
    ensures var t := Emit(l, signal).signals;
            && ReadyFirst(t)
            && Count(t, Closed) == Count(l.signals, Closed) + (if signal == Closed then 1 else 0)
            && Count(t, BecameReady) == Count(l.signals, BecameReady) + (if signal == BecameReady then 1 else 0)
            && (BecameReady in t <==> BecameReady in l.signals || signal == BecameReady)
  {
    hide Count, ReadyFirst;
    CountAppend(l.signals, signal, Closed);
    CountAppend(l.signals, signal, BecameReady);
    ReadyFirstAppend(l.signals, signal);
  }

  lemma EmitKeepsLifeCycle(l: Life, signal: Signal)
    requires LifeCycle(l) && signal != Closed && signal != BecameReady && (signal.Handed? ==> l.ready)
    ensures LifeCycle(Emit(l, signal))
  {
    hide Count, ReadyFirst;
    EmitAppends(l, signal);
  }

  lemma CloseKeepsLifeCycle(l: Life)
    requires LifeCycle(l)
    ensures LifeCycle(Close(l))
  {
    hide Count, ReadyFirst;
    EmitAppends(l, Closed);
  }

  lemma ErrorKeepsLifeCycle(l: Life, code: ErrorCode)
    requires LifeCycle(l)
    ensures LifeCycle(HandleError(l, code))
  {
    EmitKeepsLifeCycle(l, ErrorOccurred(code));
    CloseKeepsLifeCycle(Emit(l, ErrorOccurred(code)));
  }

  lemma ReadyKeepsLifeCycle(l: Life)
    requires LifeCycle(l)
    ensures LifeCycle(EnsureReady(l)) && EnsureReady(l).ready
  {
    hide Count, ReadyFirst;
    EmitAppends(l, BecameReady);
  }

  lemma DispatchKeepsLifeCycle(config: Config, s: State, body: Bytes)
    requires LifeCycle(s.life) && TYPE_SIZE <= |body|
    ensures LifeCycle(DispatchBody(config, s, body).life)
  {
    hide IdentifiedMessage, ValidOutgoingFrame, ReadyFirst, LifeCycle;
    var readied := EnsureReady(s.life);
    ReadyKeepsLifeCycle(s.life);
    match TypeOf(body[0])
    case Some(UserData) =>
      ErrorKeepsLifeCycle(readied, MessageSize);
      EmitKeepsLifeCycle(readied, Handed(UserMessage(body[TYPE_SIZE..])));
    case Some(Request) | Some(Response) =>
      ErrorKeepsLifeCycle(readied, MessageSize);
      if TYPE_SIZE + REQUEST_ID_SIZE <= |body| {
        EmitKeepsLifeCycle(readied, Handed(IdentifiedMessage(TypeOf(body[0]).value, body)));
      }
    case Some(HealthCheck) =>
      ErrorKeepsLifeCycle(s.life, OperationNotSupported);
      ErrorKeepsLifeCycle(s.life, NoBufferSpace);
    case Some(HealthCheckResponse) => EmitKeepsLifeCycle(s.life, HealthCheckAnswered);
    case Some(Heartbeat) =>
    case None => ErrorKeepsLifeCycle(s.life, InvalidArgument);
  }

  lemma StepKeepsLifeCycle(config: Config, s: State, e: Event)
    requires LifeCycle(s.life)
    ensures LifeCycle(Step(config, s, e).life)
  {
    hide ValidOutgoingFrame, DispatchBody, LifeCycle;
    if Enabled(s, e) {
      CloseKeepsLifeCycle(s.life);
      match e
      case Push(frame) => ErrorKeepsLifeCycle(s.life, NoBufferSpace);
      case HeartbeatTimer => ErrorKeepsLifeCycle(s.life, NoBufferSpace);
      case DeadlineExpires => ErrorKeepsLifeCycle(s.life, TimedOut);
      case ReadyDeadline => ReadyKeepsLifeCycle(s.life);
      case WriteCompletes(error) => ErrorKeepsLifeCycle(s.life, if error.Some? then error.value else TimedOut);
      case ReadCompletes(error) =>
        ErrorKeepsLifeCycle(s.life, if error.Some? then error.value else MessageSize);
        if s.reader.operation.ReadingBody? && error.None? {
          DispatchKeepsLifeCycle(config, s.(reader := s.reader.(operation := NotReading)), s.reader.operation.got);
        }
      case _ =>
    }
  }

  // ----------------------------------------------------------------- reader

  function Messages(signals: seq<Signal>): seq<Message> {
    if signals == [] then []
    else
      var earlier := Messages(signals[..|signals| - 1]);
      match signals[|signals| - 1]
      case Handed(message) => earlier + [message]
      case _ => earlier
  }

  lemma MessagesOfEmit(l: Life, signal: Signal)
    ensures Messages(Emit(l, signal).signals)
         == (if signal.Handed? then Messages(l.signals) + [signal.message] else Messages(l.signals))
  {
    assert (l.signals + [signal])[..|l.signals|] == l.signals;
  }

  lemma ClosingHandsNothingOver(l: Life, code: ErrorCode)
    ensures Messages(Close(l).signals) == Messages(l.signals)
    ensures Messages(HandleError(l, code).signals) == Messages(l.signals)
    ensures Messages(EnsureReady(l).signals) == Messages(l.signals)
  {
    MessagesOfEmit(l, ErrorOccurred(code));
    MessagesOfEmit(l.(open := false, closedOnExecutor := true), Closed);
    MessagesOfEmit(Emit(l, ErrorOccurred(code)).(open := false, closedOnExecutor := true), Closed);
    MessagesOfEmit(l.(ready := true), BecameReady);
  }

  /** The messages handed over are those the parser finds in the handled bytes,
      and an active read holds exactly the bytes consumed since. */
  ghost predicate ReaderAgrees(config: Config, messages: seq<Message>, r: Reader) {
    && r.handled <= |r.consumed|
    && Clean(config, r.consumed[..r.handled])
    && messages == Parse(config, r.consumed[..r.handled])
    && (!r.started ==> r.operation.NotReading? && r.consumed == [])
    && match r.operation
       case NotReading => true
       case ReadingHeader(got) => got == r.consumed[r.handled..] && |got| <= HEADER_SIZE
       case ReadingBody(size, got) =>
         && ValidIncomingBodySize(config, size)
         && r.handled + HEADER_SIZE <= |r.consumed|
         && DecodeUint32(r.consumed[r.handled..r.handled + HEADER_SIZE]) as nat == size
         && got == r.consumed[r.handled + HEADER_SIZE..] && |got| <= size
  }

  /** Handling one complete continuing frame extends the clean prefix by it. */
  lemma FrameExtendsClean(config: Config, bytes: Bytes, frame: Bytes)
    requires Clean(config, bytes)
    requires HasFrame(config, frame) && FirstFrameSize(config, frame) == |frame|
    requires FirstVerdict(config, frame).Continue?
    ensures Clean(config, bytes + frame)
    ensures Parse(config, bytes + frame) == Parse(config, bytes) + FirstVerdict(config, frame).messages
  {
    hide HasFrame, FirstVerdict;
    assert frame[|frame|..] == [];
    EmptyStream(config);
    assert Clean(config, frame);
    assert Parse(config, frame) == FirstVerdict(config, frame).messages + [];
    ParseAfterClean(config, bytes, frame);
  }

  lemma CompleteBodyIsFrame(config: Config, messages: seq<Message>, r: Reader)
    requires ReaderAgrees(config, messages, r)
    requires r.operation.ReadingBody? && |r.operation.got| == r.operation.size
    ensures var frame := r.consumed[r.handled..];
            && HasFrame(config, frame) && FirstFrameSize(config, frame) == |frame|
            && FirstVerdict(config, frame) == Judge(config, r.operation.got)
            && r.consumed == r.consumed[..r.handled] + frame
  {
    hide DecodeUint32, Judge;
    var frame := r.consumed[r.handled..];
    assert frame[..HEADER_SIZE] == r.consumed[r.handled..r.handled + HEADER_SIZE];
    assert frame[HEADER_SIZE..|frame|] == r.operation.got;
  }

  lemma DispatchFollowsJudge(config: Config, s: State, body: Bytes)
    requires s.reader.operation == NotReading && TYPE_SIZE <= |body|
    ensures var t := DispatchBody(config, s, body);
            match Judge(config, body)
            case Continue(messages) =>
              && t.reader == StartReadingHeader(s.life, s.reader.(handled := |s.reader.consumed|))
              && Messages(t.life.signals) == Messages(s.life.signals) + messages
            case Stop => t.reader == s.reader && Messages(t.life.signals) == Messages(s.life.signals)
  {
    hide IdentifiedMessage, ValidOutgoingFrame, DecodeUint32;
    var readied := EnsureReady(s.life);
    match TypeOf(body[0])
    case Some(UserData) =>
      ClosingHandsNothingOver(s.life, MessageSize);
      ClosingHandsNothingOver(readied, MessageSize);
      MessagesOfEmit(readied, Handed(UserMessage(body[TYPE_SIZE..])));
    case Some(Request) | Some(Response) =>
      ClosingHandsNothingOver(s.life, MessageSize);
      ClosingHandsNothingOver(readied, MessageSize);
      if TYPE_SIZE + REQUEST_ID_SIZE <= |body| {
        MessagesOfEmit(readied, Handed(IdentifiedMessage(TypeOf(body[0]).value, body)));
      }
    case Some(HealthCheck) =>
      ClosingHandsNothingOver(s.life, OperationNotSupported);
      ClosingHandsNothingOver(s.life, NoBufferSpace);
    case Some(HealthCheckResponse) => MessagesOfEmit(s.life, HealthCheckAnswered);
    case Some(Heartbeat) =>
    case None => ClosingHandsNothingOver(s.life, InvalidArgument);
  }

  lemma BodyKeepsReaderAgrees(config: Config, s: State)
    requires ReaderAgrees(config, Messages(s.life.signals), s.reader)
    requires s.reader.operation.ReadingBody? && |s.reader.operation.got| == s.reader.operation.size
    ensures var t := BodyRead(config, s, None); ReaderAgrees(config, Messages(t.life.signals), t.reader)
  {
    hide Judge, HasFrame, FirstVerdict, DispatchBody, DecodeUint32;
    var r := s.reader;
    var frame := r.consumed[r.handled..];
    CompleteBodyIsFrame(config, Messages(s.life.signals), r);
    DispatchFollowsJudge(config, s.(reader := r.(operation := NotReading)), r.operation.got);
    if Judge(config, r.operation.got).Continue? {
      FrameExtendsClean(config, r.consumed[..r.handled], frame);
      assert r.consumed[..|r.consumed|] == r.consumed;
      assert r.consumed[|r.consumed|..] == [];
    }
  }

  lemma AnnouncedKeepsReaderAgrees(config: Config, s: State, bodySize: nat)
    requires ReaderAgrees(config, Messages(s.life.signals), s.reader) && s.reader.operation.NotReading?
    requires s.reader.started
    requires s.reader.handled + HEADER_SIZE == |s.reader.consumed|
    requires DecodeUint32(s.reader.consumed[s.reader.handled..s.reader.handled + HEADER_SIZE]) as nat == bodySize
    ensures var t := BodyAnnounced(config, s, bodySize); ReaderAgrees(config, Messages(t.life.signals), t.reader)
  {
    hide DecodeUint32, HasFrame, Clean, Parse, Messages;
    ClosingHandsNothingOver(s.life, MessageSize);
    assert s.reader.consumed[s.reader.handled + HEADER_SIZE..] == [];
  }

  lemma HeaderKeepsReaderAgrees(config: Config, s: State)
    requires ReaderAgrees(config, Messages(s.life.signals), s.reader)
    requires s.reader.operation.ReadingHeader? && |s.reader.operation.got| == HEADER_SIZE
    ensures var t := HeaderRead(config, s, None); ReaderAgrees(config, Messages(t.life.signals), t.reader)
  {
    hide DecodeUint32, HasFrame, Clean, Parse, Messages, BodyAnnounced;
    var idle := s.(reader := s.reader.(operation := NotReading));
    HeaderIsConsumed(s.reader.consumed, s.reader.handled, s.reader.operation.got);
    AnnouncedKeepsReaderAgrees(config, idle, DecodeUint32(s.reader.operation.got) as nat);
  }

  lemma HeaderIsConsumed(consumed: Bytes, handled: nat, got: Bytes)
    requires handled <= |consumed| && got == consumed[handled..] && |got| == HEADER_SIZE
    ensures handled + HEADER_SIZE == |consumed| && consumed[handled..handled + HEADER_SIZE] == got
  {
  }

  lemma ReceiveKeepsReaderAgrees(config: Config, s: State, chunk: Bytes)
    requires ReaderAgrees(config, Messages(s.life.signals), s.reader) && Enabled(s, BytesArrive(chunk))
    ensures ReaderAgrees(config, Messages(s.life.signals), Receive(s.reader, chunk))
  {
    hide DecodeUint32, HasFrame, Clean, Parse;
    var r, t := s.reader, Receive(s.reader, chunk);
    assert t.consumed[..t.handled] == r.consumed[..r.handled];
    if r.operation.ReadingBody? {
      assert t.consumed[t.handled..t.handled + HEADER_SIZE] == r.consumed[r.handled..r.handled + HEADER_SIZE];
    }
  }

  lemma StepKeepsReaderAgrees(config: Config, s: State, e: Event)
    requires ReaderAgrees(config, Messages(s.life.signals), s.reader)
    ensures var t := Step(config, s, e); ReaderAgrees(config, Messages(t.life.signals), t.reader)
  {
    hide DecodeUint32, HasFrame, Clean, Parse, ValidOutgoingFrame, DispatchBody, Messages, Frame;
    if Enabled(s, e) {
      ClosingHandsNothingOver(s.life, NoBufferSpace);
      match e
      case ReadCompletes(error) =>
        if error.None? {
          if s.reader.operation.ReadingBody? {
            BodyKeepsReaderAgrees(config, s);
          } else {
            HeaderKeepsReaderAgrees(config, s);
          }
        } else {
          ClosingHandsNothingOver(s.life, error.value);
        }
      case WriteCompletes(error) => ClosingHandsNothingOver(s.life, if error.Some? then error.value else TimedOut);
      case DeadlineExpires => ClosingHandsNothingOver(s.life, TimedOut);
      case BytesArrive(chunk) => ReceiveKeepsReaderAgrees(config, s, chunk);
      case Start =>
        assert s.reader.consumed[s.reader.handled..] == [];
      case _ =>
    }
  }

  /** Chunking does not matter: however the bytes arrived, a reader still waiting
      for more has handed over exactly what the parser finds in all of them. */
  lemma WaitingReaderHasParsedEverything(config: Config, messages: seq<Message>, r: Reader)
    requires ReaderAgrees(config, messages, r)
    requires !r.operation.NotReading? && |r.operation.got| < Needed(r.operation)
    ensures messages == Parse(config, r.consumed)
  {
    hide DecodeUint32, Clean;
    var rest := r.consumed[r.handled..];
    if r.operation.ReadingBody? {
      assert rest[..HEADER_SIZE] == r.consumed[r.handled..r.handled + HEADER_SIZE];
    }
    assert !HasFrame(config, rest);
    assert r.consumed == r.consumed[..r.handled] + rest;
    ParseAfterClean(config, r.consumed[..r.handled], rest);
  }

  // ------------------------------------------------------------ whole runs

  ghost predicate PeerInvariant(config: Config, s: State) {
    && WriteDiscipline(config, s.life.open, s.writer)
    && LifeCycle(s.life)
    && ReaderAgrees(config, Messages(s.life.signals), s.reader)
  }

  lemma StepKeepsPeerInvariant(config: Config, s: State, e: Event)
    requires PeerInvariant(config, s)
    ensures PeerInvariant(config, Step(config, s, e))
  {
    hide Step, WriteDiscipline, LifeCycle, ReaderAgrees;
    StepKeepsWriteDiscipline(config, s, e);
    StepKeepsLifeCycle(config, s, e);
    StepKeepsReaderAgrees(config, s, e);
  }

  lemma FreshPeerInvariant(config: Config)
    ensures PeerInvariant(config, Fresh)
  {
    EmptyStream(config);
  }

  /** Whatever happens to a peer, in whatever order, the three invariants hold. */
  lemma {:induction false} EveryRunKeepsPeerInvariant(config: Config, s: State, events: seq<Event>)
    requires PeerInvariant(config, s)
    ensures PeerInvariant(config, Run(config, s, events))
    decreases |events|
  {
    hide Step, PeerInvariant;
    if events != [] {
      StepKeepsPeerInvariant(config, s, events[0]);
      EveryRunKeepsPeerInvariant(config, Step(config, s, events[0]), events[1..]);
    }
  }
}
