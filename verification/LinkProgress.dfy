/** Whatever one end accepted can still be handed over at the other: from every reachable
    state of a link whose receiver is reading, some continuation delivers all of it. */
module LinkProgress {
  import opened Common
  import opened Protocol
  import opened PeerModel
  import opened PeerFraming
  import opened PeerProofs
  import opened PeerEffects
  import opened Link

  lemma {:induction false} RunSplit(
    leftConfig: Config, rightConfig: Config, k: Link, first: seq<LinkEvent>, second: seq<LinkEvent>
  )
    ensures LinkRun(leftConfig, rightConfig, k, first + second)
         == LinkRun(leftConfig, rightConfig, LinkRun(leftConfig, rightConfig, k, first), second)
    decreases |first|
  {
    hide LinkStep;
    if first == [] {
      assert first + second == second;
    } else {
      assert (first + second)[1..] == first[1..] + second;
      RunSplit(leftConfig, rightConfig, LinkStep(leftConfig, rightConfig, k, first[0]), first[1..], second);
    }
  }

  /** `t` is reached from `k` by some run. */
  ghost predicate Reaches(leftConfig: Config, rightConfig: Config, k: Link, t: Link) {
    exists events :: LinkRun(leftConfig, rightConfig, k, events) == t
  }

  lemma ReachesTwice(leftConfig: Config, rightConfig: Config, k: Link, t: Link, u: Link)
    requires Reaches(leftConfig, rightConfig, k, t) && Reaches(leftConfig, rightConfig, t, u)
    ensures Reaches(leftConfig, rightConfig, k, u)
  {
    hide LinkRun;
    var first :| LinkRun(leftConfig, rightConfig, k, first) == t;
    var second :| LinkRun(leftConfig, rightConfig, t, second) == u;
    RunSplit(leftConfig, rightConfig, k, first, second);
    assert LinkRun(leftConfig, rightConfig, k, first + second) == u;
  }

  lemma ReachesStep(leftConfig: Config, rightConfig: Config, k: Link, e: LinkEvent)
    ensures Reaches(leftConfig, rightConfig, k, LinkStep(leftConfig, rightConfig, k, e))
  {
    hide LinkStep;
    assert [e][1..] == [];
    assert LinkRun(leftConfig, rightConfig, k, [e]) == LinkStep(leftConfig, rightConfig, k, e);
  }

  lemma ReachesSelf(leftConfig: Config, rightConfig: Config, k: Link)
    ensures Reaches(leftConfig, rightConfig, k, k)
  {
    assert LinkRun(leftConfig, rightConfig, k, []) == k;
  }

  lemma ReachedKeepsInvariant(leftConfig: Config, rightConfig: Config, k: Link, t: Link)
    requires LinkInvariant(leftConfig, rightConfig, k) && Reaches(leftConfig, rightConfig, k, t)
    ensures LinkInvariant(leftConfig, rightConfig, t)
  {
    hide LinkRun, LinkInvariant;
    var events :| LinkRun(leftConfig, rightConfig, k, events) == t;
    EveryRunKeepsLinkInvariant(leftConfig, rightConfig, k, events);
  }

  // ------------------------------------------------------------- sending side

  /** The rest of the front frame leaves and its write completes. */
  lemma FrontLeaves(config: Config, s: State)
    requires WriteDiscipline(config, s.life.open, s.writer) && s.life.open && s.writer.queue != []
    ensures s.writer.writing.Some? && s.writer.writing.value <= |s.writer.queue[0]|
    ensures var left := Step(config, s, BytesLeave(|s.writer.queue[0]| - s.writer.writing.value));
            var t := Step(config, left, WriteCompletes(None));
            && t.writer.accepted == s.writer.accepted && t.writer.queue == s.writer.queue[1..]
            && (!t.life.open ==> t.writer.queue == [] && t.writer.sent == Concat(t.writer.accepted))
  {
    hide ValidOutgoingFrame;
    var e := BytesLeave(|s.writer.queue[0]| - s.writer.writing.value);
    var left := Step(config, s, e);
    StepKeepsWriteDiscipline(config, s, e);
    BytesAreSent(config, s, |s.writer.queue[0]| - s.writer.writing.value);
    WrittenFrameLeaves(config, left);
    var t := Step(config, left, WriteCompletes(None));
    assert t.writer.accepted == s.writer.accepted;
    if !t.life.open {
      CloseAfterWriteLosesNothing(config, left);
    }
  }

  predicate AllSent(w: Writer) {
    w.sent == Concat(w.accepted)
  }

  /** An open end can write everything it accepted. */
  lemma {:induction false} EverythingCanLeave(leftConfig: Config, rightConfig: Config, k: Link)
    requires LinkInvariant(leftConfig, rightConfig, k) && k.left.life.open
    ensures exists t :: Reaches(leftConfig, rightConfig, k, t) && AllSent(t.left.writer)
                     && t.left.writer.accepted == k.left.writer.accepted && t.right == k.right
    decreases |k.left.writer.queue|
  {
    hide Step, LinkInvariant, Reaches, Concat, ReaderAgrees, LifeCycle;
    LeftDiscipline(leftConfig, rightConfig, k);
    if k.left.writer.queue == [] {
      ReachesSelf(leftConfig, rightConfig, k);
    } else {
      FrontLeaves(leftConfig, k.left);
      var e := BytesLeave(|k.left.writer.queue[0]| - k.left.writer.writing.value);
      var m := LinkStep(leftConfig, rightConfig, k, AtLeft(e));
      var t := LinkStep(leftConfig, rightConfig, m, AtLeft(WriteCompletes(None)));
      ReachesStep(leftConfig, rightConfig, k, AtLeft(e));
      ReachesStep(leftConfig, rightConfig, m, AtLeft(WriteCompletes(None)));
      ReachesTwice(leftConfig, rightConfig, k, m, t);
      ReachedKeepsInvariant(leftConfig, rightConfig, k, t);
      if t.left.life.open {
        EverythingCanLeave(leftConfig, rightConfig, t);
        var u :| Reaches(leftConfig, rightConfig, t, u) && AllSent(u.left.writer)
                 && u.left.writer.accepted == t.left.writer.accepted && u.right == t.right;
        ReachesTwice(leftConfig, rightConfig, k, t, u);
      }
    }
  }

  lemma LeftDiscipline(leftConfig: Config, rightConfig: Config, k: Link)
    requires LinkInvariant(leftConfig, rightConfig, k)
    ensures WriteDiscipline(leftConfig, k.left.life.open, k.left.writer)
    ensures k.left.life.open && k.left.writer.queue == [] ==> AllSent(k.left.writer)
  {
    hide ReaderAgrees, LifeCycle, ValidOutgoingFrame, Concat;
  }

  // ----------------------------------------------------------- receiving side

  /** What follows a clean prefix of a clean stream is clean. */
  lemma {:induction false} CleanRest(config: Config, bytes: Bytes, more: Bytes)
    requires Clean(config, bytes) && Clean(config, bytes + more)
    ensures Clean(config, more)
    decreases |bytes|
  {
    hide HasFrame, FirstVerdict;
    if bytes == [] {
      assert bytes + more == more;
    } else {
      FirstFrameStable(config, bytes, more);
      CleanRest(config, bytes[FirstFrameSize(config, bytes)..], more);
    }
  }

  predicate NoCheck(frames: seq<Bytes>) {
    forall f :: f in frames && HEADER_SIZE < |f| ==> TypeOf(f[HEADER_SIZE]) != Some(HealthCheck)
  }

  /** Valid frames other than health checks form a clean stream. */
  lemma {:induction false} AcceptedIsClean(config: Config, frames: seq<Bytes>)
    requires (forall f :: f in frames ==> ValidOutgoingFrame(config, f)) && NoCheck(frames)
    ensures Clean(config, Concat(frames))
  {
    if frames == [] {
      EmptyStream(config);
    } else {
      var f := frames[0];
      assert f in frames;
      GateAgreesWithReceiver(config, f);
      CleanFrame(config, f);
      AcceptedIsClean(config, frames[1..]);
      ParseAfterClean(config, f, Concat(frames[1..]));
    }
  }

  /** A receiver somewhere in a clean stream of which it has the first bytes. */
  ghost predicate InStream(config: Config, s: State, stream: Bytes) {
    && PeerInvariant(config, s)
    && s.life.open && !s.reader.operation.NotReading?
    && Clean(config, stream) && s.reader.consumed <= stream
  }

  lemma RestOfStream(config: Config, s: State, stream: Bytes)
    requires InStream(config, s, stream)
    ensures s.reader.handled <= |s.reader.consumed|
    ensures Clean(config, stream[s.reader.handled..])
  {
    hide ValidOutgoingFrame, Clean, DecodeUint32;
    var r := s.reader;
    assert stream == r.consumed[..r.handled] + stream[r.handled..];
    CleanRest(config, r.consumed[..r.handled], stream[r.handled..]);
  }

  /** A complete header in a clean stream announces a body. */
  lemma HeaderCompletes(config: Config, s: State, stream: Bytes)
    requires InStream(config, s, stream)
    requires s.reader.operation.ReadingHeader? && |s.reader.operation.got| == HEADER_SIZE
    ensures var t := Step(config, s, ReadCompletes(None));
            && InStream(config, t, stream) && t.reader.operation.ReadingBody?
            && t.reader.handled == s.reader.handled && t.reader.consumed == s.reader.consumed
  {
    hide PeerInvariant, Clean, Step, BigEndianValue;
    StepKeepsPeerInvariant(config, s, ReadCompletes(None));
    HeaderAnnounces(config, s);
    HeaderInStream(config, s, stream);
  }

  lemma HeaderInStream(config: Config, s: State, stream: Bytes)
    requires InStream(config, s, stream)
    requires s.reader.operation.ReadingHeader? && |s.reader.operation.got| == HEADER_SIZE
    ensures TYPE_SIZE <= BigEndianValue(s.reader.operation.got) <= config.maxMessageSize + TYPE_SIZE + REQUEST_ID_SIZE
  {
    hide WriteDiscipline, LifeCycle, Clean, DecodeUint32, FirstVerdict, BigEndianValue;
    RestOfStream(config, s, stream);
    var rest := stream[s.reader.handled..];
    assert rest[..HEADER_SIZE] == s.reader.operation.got;
    CleanHasFrame(config, rest);
    DecodeUint32IsBigEndian(s.reader.operation.got);
  }

  lemma CleanHasFrame(config: Config, bytes: Bytes)
    requires Clean(config, bytes) && bytes != []
    ensures HasFrame(config, bytes) && FirstVerdict(config, bytes).Continue?
  {
  }

  /** A complete body in a clean stream is dealt with, and the next header awaited. */
  lemma BodyCompletes(config: Config, s: State, stream: Bytes)
    requires InStream(config, s, stream)
    requires s.reader.operation.ReadingBody? && |s.reader.operation.got| == s.reader.operation.size
    ensures var t := Step(config, s, ReadCompletes(None));
            && InStream(config, t, stream) && t.reader.operation == ReadingHeader([])
            && s.reader.handled < t.reader.handled && t.reader.consumed == s.reader.consumed
  {
    hide PeerInvariant, Clean, Judge, Step;
    StepKeepsPeerInvariant(config, s, ReadCompletes(None));
    var body := s.reader.operation.got;
    BodyInStream(config, s, stream);
    BodyIsHandedOver(config, s, body);
    GoesOnOrHandsOver(config, body);
    CompletionHandles(config, s);
  }

  /** A completed read consumes nothing, and leaves nothing unhandled if the next header is awaited. */
  lemma CompletionHandles(config: Config, s: State)
    ensures var r, t := s.reader, Step(config, s, ReadCompletes(None));
            && t.reader.consumed == r.consumed
            && (r.operation.ReadingBody? && t.reader.operation.ReadingHeader? && Enabled(s, ReadCompletes(None)) ==>
                  t.reader.handled == |r.consumed|)
  {
    hide Judge;
  }

  lemma GoesOnOrHandsOver(config: Config, body: Bytes)
    requires TYPE_SIZE <= |body| && Judge(config, body).Continue?
    ensures Judge(config, body).messages != [] || TypeOf(body[0]) == Some(Heartbeat)
         || TypeOf(body[0]) == Some(HealthCheckResponse)
  {
    hide DecodeUint64;
  }

  lemma BodyInStream(config: Config, s: State, stream: Bytes)
    requires InStream(config, s, stream)
    requires s.reader.operation.ReadingBody? && |s.reader.operation.got| == s.reader.operation.size
    ensures BodyComplete(s, s.reader.operation.got) && Judge(config, s.reader.operation.got).Continue?
    ensures |s.reader.consumed| == s.reader.handled + HEADER_SIZE + s.reader.operation.size
  {
    hide WriteDiscipline, LifeCycle, Clean, DecodeUint32, Judge, HasFrame, FirstVerdict;
    RestOfStream(config, s, stream);
    CompleteBodyIsFrame(config, Messages(s.life.signals), s.reader);
    var r := s.reader;
    var frame, tail := r.consumed[r.handled..], stream[|r.consumed|..];
    assert stream[r.handled..] == frame + tail;
    FirstFrameStable(config, frame, tail);
    CleanHasFrame(config, frame + tail);
  }

  /** How far the receiver still is from the end of the stream. */
  function Distance(s: State, stream: Bytes): nat
    requires s.reader.handled <= |stream| && !s.reader.operation.NotReading?
  {
    2 * (|stream| - s.reader.handled) + if s.reader.operation.ReadingHeader? then 1 else 0
  }

  /** Bytes that arrive keep the receiver in the stream and change nothing else. */
  lemma ArrivalStaysInStream(config: Config, s: State, stream: Bytes, chunk: Bytes)
    requires InStream(config, s, stream) && Enabled(s, BytesArrive(chunk))
    requires s.reader.consumed + chunk <= stream
    ensures var t := Step(config, s, BytesArrive(chunk));
            && InStream(config, t, stream) && t.reader.handled == s.reader.handled && t.life == s.life
            && t.reader.consumed == s.reader.consumed + chunk
            && t.reader.operation.ReadingHeader? == s.reader.operation.ReadingHeader?
            && Needed(t.reader.operation) == Needed(s.reader.operation)
            && |t.reader.operation.got| == |s.reader.operation.got| + |chunk|
  {
    hide PeerInvariant, Clean;
    StepKeepsPeerInvariant(config, s, BytesArrive(chunk));
  }

  lemma GotWithinNeeded(config: Config, s: State, stream: Bytes)
    requires InStream(config, s, stream)
    ensures |s.reader.operation.got| <= Needed(s.reader.operation)
    ensures s.reader.handled <= |s.reader.consumed| <= |stream|
  {
    hide WriteDiscipline, LifeCycle, Clean, DecodeUint32;
  }

  ghost predicate CanArrive(leftConfig: Config, rightConfig: Config, k: Link, stream: Bytes) {
    && k.left.writer.sent == stream && InStream(rightConfig, k.right, stream)
  }

  /** The receiver takes what its read needs, or all there is. */
  lemma TakeBytes(leftConfig: Config, rightConfig: Config, k: Link, stream: Bytes)
    returns (t: Link, count: nat)
    requires CanArrive(leftConfig, rightConfig, k, stream)
    ensures CanArrive(leftConfig, rightConfig, t, stream) && t.left == k.left
    ensures Reaches(leftConfig, rightConfig, k, t)
    ensures t.right.reader.handled == k.right.reader.handled
    ensures t.right.reader.operation.ReadingHeader? == k.right.reader.operation.ReadingHeader?
    ensures || |t.right.reader.operation.got| == Needed(t.right.reader.operation)
            || (Waiting(t.right.reader) && t.right.reader.consumed == stream)
  {
    hide InStream, PeerInvariant;
    var s := k.right;
    GotWithinNeeded(rightConfig, s, stream);
    ReadingNow(rightConfig, s, stream);
    var missing, there := Needed(s.reader.operation) - |s.reader.operation.got|, |stream| - |s.reader.consumed|;
    count := if missing <= there then missing else there;
    var chunk := InTransit(k.left, s)[..count];
    assert s.reader.consumed + chunk <= stream;
    ArrivalStaysInStream(rightConfig, s, stream, chunk);
    t := LinkStep(leftConfig, rightConfig, k, ToRight(count));
    ReachesStep(leftConfig, rightConfig, k, ToRight(count));
    ReadingNow(rightConfig, t.right, stream);
    if count == there {
      assert s.reader.consumed + chunk == stream;
    }
  }

  lemma ReadingNow(config: Config, s: State, stream: Bytes)
    requires InStream(config, s, stream)
    ensures s.life.open && !s.reader.operation.NotReading? && s.reader.consumed <= stream
  {
  }

  /** Everything sent can arrive and be dealt with. */
  lemma {:induction false} EverythingCanArrive(leftConfig: Config, rightConfig: Config, k: Link, stream: Bytes)
    requires CanArrive(leftConfig, rightConfig, k, stream)
    requires k.right.reader.handled <= |stream| && !k.right.reader.operation.NotReading?
    ensures exists t :: Reaches(leftConfig, rightConfig, k, t) && t.left == k.left
                     && Waiting(t.right.reader) && t.right.reader.consumed == stream
    decreases Distance(k.right, stream)
  {
    hide Step, InStream, Reaches;
    var t, count := TakeBytes(leftConfig, rightConfig, k, stream);
    if !Waiting(t.right.reader) || t.right.reader.consumed != stream {
      var e := AtRight(ReadCompletes(None));
      var u := LinkStep(leftConfig, rightConfig, t, e);
      GotWithinNeeded(rightConfig, t.right, stream);
      ReadingNow(rightConfig, t.right, stream);
      if t.right.reader.operation.ReadingHeader? {
        HeaderCompletes(rightConfig, t.right, stream);
      } else {
        BodyCompletes(rightConfig, t.right, stream);
      }
      GotWithinNeeded(rightConfig, u.right, stream);
      ReachesStep(leftConfig, rightConfig, t, e);
      ReachesTwice(leftConfig, rightConfig, k, t, u);
      EverythingCanArrive(leftConfig, rightConfig, u, stream);
      var v :| Reaches(leftConfig, rightConfig, u, v) && v.left == u.left
               && Waiting(v.right.reader) && v.right.reader.consumed == stream;
      ReachesTwice(leftConfig, rightConfig, k, u, v);
    }
  }

  // ------------------------------------------------------------- main result

  /** From every reachable state in which the sender is open, and the receiver open, started
      and not about to close by itself: if no health check was accepted, some continuation
      without a push hands over every message the sender accepted. */
  lemma EverythingCanBeDelivered(leftConfig: Config, rightConfig: Config, events: seq<LinkEvent>)
    requires leftConfig.maxMessageSize == rightConfig.maxMessageSize
    requires var k := LinkRun(leftConfig, rightConfig, Link(Fresh, Fresh), events);
             && k.left.life.open && k.right.life.open && k.right.reader.started && !k.right.writer.closeAfterWrite
             && NoCheck(k.left.writer.accepted)
    ensures var k := LinkRun(leftConfig, rightConfig, Link(Fresh, Fresh), events);
            exists t :: && Reaches(leftConfig, rightConfig, k, t)
                        && t.left.writer.accepted == k.left.writer.accepted
                        && (forall f :: f in t.left.writer.accepted ==> ValidOutgoingFrame(rightConfig, f))
                        && Messages(t.right.life.signals) == MessagesOf(rightConfig, t.left.writer.accepted)
  {
    hide LinkRun, LinkStep, LinkInvariant, ValidOutgoingFrame, Reaches, Concat, Parse, Clean, MessagesOf, Messages,
         Waiting;
    var start := Link(Fresh, Fresh);
    var k := LinkRun(leftConfig, rightConfig, start, events);
    FreshLinkInvariant(leftConfig, rightConfig);
    EveryRunKeepsLinkInvariant(leftConfig, rightConfig, start, events);
    EverythingCanLeave(leftConfig, rightConfig, k);
    var sent :| Reaches(leftConfig, rightConfig, k, sent) && AllSent(sent.left.writer)
                && sent.left.writer.accepted == k.left.writer.accepted && sent.right == k.right;
    ReachedKeepsInvariant(leftConfig, rightConfig, k, sent);
    RightListens(leftConfig, rightConfig, events);
    StreamToRight(leftConfig, rightConfig, sent);
    var stream := Concat(sent.left.writer.accepted);
    GotWithinNeeded(rightConfig, sent.right, stream);
    ReadingNow(rightConfig, sent.right, stream);
    EverythingCanArrive(leftConfig, rightConfig, sent, stream);
    var t :| Reaches(leftConfig, rightConfig, sent, t) && t.left == sent.left
             && Waiting(t.right.reader) && t.right.reader.consumed == stream;
    ReachesTwice(leftConfig, rightConfig, k, sent, t);
    ReachedKeepsInvariant(leftConfig, rightConfig, sent, t);
    ArrivedIsHandedOver(leftConfig, rightConfig, t);
  }

  lemma FreshLinkInvariant(leftConfig: Config, rightConfig: Config)
    ensures LinkInvariant(leftConfig, rightConfig, Link(Fresh, Fresh))
  {
    FreshPeerInvariant(leftConfig);
    FreshPeerInvariant(rightConfig);
  }

  lemma {:induction false} RightKeepsListening(
    leftConfig: Config, rightConfig: Config, k: Link, events: seq<LinkEvent>
  )
    requires Listening(k.right)
    ensures Listening(LinkRun(leftConfig, rightConfig, k, events).right)
    decreases |events|
  {
    hide Step, Listening;
    if events != [] {
      var t := LinkStep(leftConfig, rightConfig, k, events[0]);
      match events[0] {
        case AtRight(event) => StepKeepsListening(rightConfig, k.right, event);
        case ToRight(count) =>
          if |k.right.reader.consumed| + count <= |k.left.writer.sent| {
            StepKeepsListening(rightConfig, k.right, BytesArrive(InTransit(k.left, k.right)[..count]));
          }
        case _ =>
      }
      RightKeepsListening(leftConfig, rightConfig, t, events[1..]);
    }
  }

  lemma RightListens(leftConfig: Config, rightConfig: Config, events: seq<LinkEvent>)
    ensures Listening(LinkRun(leftConfig, rightConfig, Link(Fresh, Fresh), events).right)
  {
    RightKeepsListening(leftConfig, rightConfig, Link(Fresh, Fresh), events);
  }

  lemma StreamToRight(leftConfig: Config, rightConfig: Config, k: Link)
    requires LinkInvariant(leftConfig, rightConfig, k) && leftConfig.maxMessageSize == rightConfig.maxMessageSize
    requires AllSent(k.left.writer) && NoCheck(k.left.writer.accepted)
    requires k.right.life.open && !k.right.reader.operation.NotReading?
    ensures CanArrive(leftConfig, rightConfig, k, Concat(k.left.writer.accepted))
  {
    hide ValidOutgoingFrame, LifeCycle, ReaderAgrees, Concat, Clean, NoCheck;
    SameGate(leftConfig, rightConfig, k.left.writer.accepted);
    AcceptedIsClean(rightConfig, k.left.writer.accepted);
  }

  lemma ArrivedIsHandedOver(leftConfig: Config, rightConfig: Config, k: Link)
    requires LinkInvariant(leftConfig, rightConfig, k) && leftConfig.maxMessageSize == rightConfig.maxMessageSize
    requires Waiting(k.right.reader) && k.right.reader.consumed == Concat(k.left.writer.accepted)
    ensures forall f :: f in k.left.writer.accepted ==> ValidOutgoingFrame(rightConfig, f)
    ensures Messages(k.right.life.signals) == MessagesOf(rightConfig, k.left.writer.accepted)
  {
    hide ValidOutgoingFrame, LifeCycle, ReaderAgrees, Waiting;
    SameGate(leftConfig, rightConfig, k.left.writer.accepted);
    HandedOverIsPrefix(rightConfig, k.left.writer, k.right);
  }
}
