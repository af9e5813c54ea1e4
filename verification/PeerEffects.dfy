/** What each event does to an open peer, as its owner and its remote end notice it:
    which frames are accepted, what is signalled, and when the connection ends. */
module PeerEffects {
  import opened Common
  import opened Protocol
  import opened PeerModel
  import opened PeerFraming
  import opened PeerProofs

  /** The connection ended with an error, told after `before`. */
  predicate EndedWith(s: State, t: State, before: seq<Signal>, code: ErrorCode) {
    !t.life.open && t.life.closedOnExecutor && t.life.signals == s.life.signals + before + [ErrorOccurred(code), Closed]
  }

  /** The connection ended without one. */
  predicate EndedQuietly(s: State, t: State) {
    !t.life.open && t.life.closedOnExecutor && t.life.signals == s.life.signals + [Closed]
  }

  // ------------------------------------------------------------------ pushing

  /** A frame is accepted, last, exactly if the peer is open, the frame valid and the queue
      has room; any other frame ends an open connection; a closed peer ignores every frame. */
  predicate Pushed(config: Config, s: State, t: State, frame: Bytes) {
    if !s.life.open then t == s
    else if ValidOutgoingFrame(config, frame) && |s.writer.queue| < config.maxSendQueueSize then
      && t.life == s.life && t.reader == s.reader
      && t.writer.accepted == s.writer.accepted + [frame] && t.writer.queue == s.writer.queue + [frame]
      && t.writer.closeAfterWrite == s.writer.closeAfterWrite
    else EndedWith(s, t, [], NoBufferSpace) && t.writer == s.writer
  }

  lemma PushAcceptsExactly(config: Config, s: State, frame: Bytes)
    ensures Pushed(config, s, Step(config, s, Push(frame)), frame)
  {
    hide ValidOutgoingFrame;
    assert s.life.signals + [] == s.life.signals;
  }

  /** The heartbeat timer pushes a heartbeat, by the same rule. */
  lemma HeartbeatIsPushed(config: Config, s: State)
    ensures Pushed(config, s, Step(config, s, HeartbeatTimer), FrameOf(Beat))
  {
    hide ValidOutgoingFrame;
    assert s.life.signals + [] == s.life.signals;
  }

  // ------------------------------------------------------------- other events

  lemma StartAwaitsHeader(config: Config, s: State)
    requires !s.reader.started && s.life.open
    ensures var t := Step(config, s, Start);
            t.reader.started && t.reader.operation == ReadingHeader([]) && t.life == s.life && t.writer == s.writer
  {
  }

  lemma CloseEnds(config: Config, s: State)
    ensures var t := Step(config, s, AsyncClose);
            && t.writer == s.writer && t.reader == s.reader
            && if s.life.open then EndedQuietly(s, t) else !t.life.open && t.life.signals == s.life.signals
  {
  }

  lemma DeadlineEnds(config: Config, s: State)
    requires s.life.open
    ensures EndedWith(s, Step(config, s, DeadlineExpires), [], TimedOut)
  {
    assert s.life.signals + [] == s.life.signals;
  }

  /** The ready deadline makes the peer ready, once, and ends nothing. */
  lemma ReadyDeadlineReadies(config: Config, s: State)
    ensures var t := Step(config, s, ReadyDeadline);
            && t.life.ready && t.life.open == s.life.open && t.writer == s.writer && t.reader == s.reader
            && t.life.signals == s.life.signals + if s.life.ready then [] else [BecameReady]
  {
    assert s.life.signals + [] == s.life.signals;
  }

  // --------------------------------------------------------- failed operations

  /** The end of an operation that failed: a clean end of the stream between two frames
      closes quietly, anything else tells its error first. */
  lemma FailedReadEnds(config: Config, s: State, code: ErrorCode)
    requires s.life.open && Enabled(s, ReadCompletes(Some(code)))
    ensures var t := Step(config, s, ReadCompletes(Some(code)));
            if s.reader.operation == ReadingHeader([]) && code == Eof then EndedQuietly(s, t)
            else EndedWith(s, t, [], code)
  {
    assert s.life.signals + [] == s.life.signals;
  }

  lemma FailedWriteEnds(config: Config, s: State, code: ErrorCode)
    requires s.life.open && Enabled(s, WriteCompletes(Some(code)))
    ensures var t := Step(config, s, WriteCompletes(Some(code)));
            EndedWith(s, t, [], code) && t.writer.popped == s.writer.popped && t.writer.queue == s.writer.queue
  {
    assert s.life.signals + [] == s.life.signals;
  }

  /** A written frame leaves the queue, and the connection ends only after the last one
      of a peer that was asked to close then. */
  lemma WrittenFrameLeaves(config: Config, s: State)
    requires s.life.open && Enabled(s, WriteCompletes(None))
    ensures var t := Step(config, s, WriteCompletes(None));
            && t.writer.queue == s.writer.queue[1..] && t.writer.popped == s.writer.popped + 1
            && (if s.writer.closeAfterWrite && |s.writer.queue| == 1 then EndedQuietly(s, t) else t.life == s.life)
  {
  }

  // ------------------------------------------------------------- bytes moving

  lemma BytesAreReceived(config: Config, s: State, chunk: Bytes)
    requires Enabled(s, BytesArrive(chunk))
    ensures var t := Step(config, s, BytesArrive(chunk));
            t.reader.consumed == s.reader.consumed + chunk && t.life == s.life && t.writer == s.writer
  {
  }

  lemma BytesAreSent(config: Config, s: State, count: nat)
    requires Enabled(s, BytesLeave(count))
    ensures var t := Step(config, s, BytesLeave(count));
            && |t.writer.sent| == |s.writer.sent| + count && t.writer.queue == s.writer.queue
            && t.writer.writing == Some(s.writer.writing.value + count) && t.life == s.life && t.reader == s.reader
  {
  }

  // --------------------------------------------------------------- whole frames

  /** A complete header announces a body, or ends the connection. */
  lemma HeaderAnnounces(config: Config, s: State)
    requires s.life.open && s.reader.operation.ReadingHeader? && |s.reader.operation.got| == HEADER_SIZE
    ensures var t := Step(config, s, ReadCompletes(None));
            var size := BigEndianValue(s.reader.operation.got);
            if TYPE_SIZE <= size <= config.maxMessageSize + TYPE_SIZE + REQUEST_ID_SIZE then
              t == s.(reader := s.reader.(operation := ReadingBody(size, [])))
            else EndedWith(s, t, [], MessageSize)
  {
    hide DecodeUint32;
    DecodeUint32IsBigEndian(s.reader.operation.got);
    assert s.life.signals + [] == s.life.signals;
  }

  /** What a message makes the peer signal first. */
  function Readying(s: State): seq<Signal> {
    if s.life.ready then [] else [BecameReady]
  }

  predicate BodyComplete(s: State, body: Bytes) {
    s.life.open && TYPE_SIZE <= |body| && s.reader.operation == ReadingBody(|body|, body)
  }

  /** The peer went on to the next header, having signalled just this. */
  predicate WentOn(s: State, t: State, signals: seq<Signal>) {
    && t.life.open && t.life.signals == s.life.signals + signals && t.writer == s.writer
    && t.reader.operation == ReadingHeader([])
  }

  /** A body the reader goes on after is handed over as exactly its messages, the first of
      all preceded by `ready`; a heartbeat signals nothing. */
  lemma BodyIsHandedOver(config: Config, s: State, body: Bytes)
    requires BodyComplete(s, body) && Judge(config, body).Continue?
    ensures var t := Step(config, s, ReadCompletes(None));
            var messages := Judge(config, body).messages;
            && |messages| <= 1
            && (messages != [] ==> WentOn(s, t, Readying(s) + [Handed(messages[0])]) && t.life.ready)
            && (TypeOf(body[0]) == Some(Heartbeat) ==> WentOn(s, t, []))
            && (TypeOf(body[0]) == Some(HealthCheckResponse) ==> WentOn(s, t, [HealthCheckAnswered]))
  {
    hide DecodeUint64, ValidOutgoingFrame;
    assert s.life.signals + [] == s.life.signals;
    assert Readying(s) == [] ==> forall m :: Readying(s) + [Handed(m)] == [Handed(m)];
    assert forall m :: s.life.signals + (Readying(s) + [Handed(m)]) == s.life.signals + Readying(s) + [Handed(m)];
  }

  /** A body of an unknown type, or a message of the wrong size, ends the connection. */
  lemma BadBodyEnds(config: Config, s: State, body: Bytes)
    requires BodyComplete(s, body) && Judge(config, body).Stop? && TypeOf(body[0]) != Some(HealthCheck)
    ensures var t := Step(config, s, ReadCompletes(None));
            if TypeOf(body[0]).None? then EndedWith(s, t, [], InvalidArgument)
            else EndedWith(s, t, Readying(s), MessageSize)
  {
    hide DecodeUint64, ValidOutgoingFrame;
    assert s.life.signals + [] == s.life.signals;
  }

  /** A health check is answered by a peer that is not ready, which then closes; a ready
      peer rejects it. */
  lemma HealthCheckIsAnswered(config: Config, s: State, body: Bytes)
    requires BodyComplete(s, body) && TypeOf(body[0]) == Some(HealthCheck)
    ensures var t := Step(config, s, ReadCompletes(None));
            if s.life.ready then EndedWith(s, t, [], OperationNotSupported)
            else if ValidOutgoingFrame(config, FrameOf(Reply)) && |s.writer.queue| < config.maxSendQueueSize then
              && t.life == s.life && t.writer.closeAfterWrite && t.reader.operation.NotReading?
              && t.writer.accepted == s.writer.accepted + [FrameOf(Reply)]
              && t.writer.queue == s.writer.queue + [FrameOf(Reply)]
            else EndedWith(s, t, [], NoBufferSpace)
  {
    hide DecodeUint64, ValidOutgoingFrame;
    assert s.life.signals + [] == s.life.signals;
  }

  // ---------------------------------------------------------- always listening

  /** A started, open peer always has a read outstanding, unless it answered a health
      check and only waits for its answer to be written; so it notices every disconnect. */
  predicate Listening(s: State) {
    s.reader.started && s.life.open && !s.writer.closeAfterWrite ==> !s.reader.operation.NotReading?
  }

  lemma DispatchKeepsListening(config: Config, s: State, body: Bytes)
    requires TYPE_SIZE <= |body|
    ensures var t := DispatchBody(config, s, body);
            t.life.open && !t.writer.closeAfterWrite ==> !t.reader.operation.NotReading?
  {
    hide ValidOutgoingFrame, DecodeUint64;
  }

  lemma StepKeepsListening(config: Config, s: State, e: Event)
    requires Listening(s)
    ensures Listening(Step(config, s, e))
  {
    hide ValidOutgoingFrame, DecodeUint32, DispatchBody;
    var r := s.reader;
    if r.operation.ReadingBody? && |r.operation.got| == r.operation.size >= TYPE_SIZE {
      DispatchKeepsListening(config, s.(reader := r.(operation := NotReading)), r.operation.got);
    }
  }

  lemma {:induction false} EveryRunKeepsListening(config: Config, s: State, events: seq<Event>)
    requires Listening(s)
    ensures Listening(Run(config, s, events))
    decreases |events|
  {
    hide Step, Listening;
    if events != [] {
      StepKeepsListening(config, s, events[0]);
      EveryRunKeepsListening(config, Step(config, s, events[0]), events[1..]);
    }
  }

  /** In every run of a started peer: whenever it is open and not about to close by itself,
      a failure of the connection can be noticed, and noticing it ends the peer. */
  lemma EveryDisconnectIsNoticed(config: Config, events: seq<Event>, code: ErrorCode)
    requires var s := Run(config, Fresh, events);
             s.reader.started && s.life.open && !s.writer.closeAfterWrite && code != OperationAborted
    ensures var s := Run(config, Fresh, events);
            var t := Step(config, s, ReadCompletes(Some(code)));
            && Enabled(s, ReadCompletes(Some(code)))
            && (EndedQuietly(s, t) || EndedWith(s, t, [], code))
  {
    hide Run;
    var s := Run(config, Fresh, events);
    EveryRunKeepsListening(config, Fresh, events);
    FreshPeerInvariant(config);
    EveryRunKeepsPeerInvariant(config, Fresh, events);
    FailedReadEnds(config, s, code);
  }
}
