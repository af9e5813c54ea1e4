/** Two peers on one connection: what the receiver hands over is a FIFO prefix
    of what the sender accepted, for every interleaving of both ends. */
module Link {
  import opened Common
  import opened Protocol
  import opened PeerModel
  import opened PeerFraming
  import opened PeerProofs
  import opened PeerEffects

  datatype Link = Link(left: State, right: State)

  /** Handlers of either end, and the transfer of `count` further bytes to an end.
      Bytes not transferred before an end closes may never be. */
  datatype LinkEvent =
    | AtLeft(event: Event)
    | AtRight(event: Event)
    | ToRight(count: nat)
    | ToLeft(count: nat)

  /** The bytes on their way from a sender to a receiver. */
  function InTransit(sender: State, receiver: State): Bytes
    requires |receiver.reader.consumed| <= |sender.writer.sent|
  {
    sender.writer.sent[|receiver.reader.consumed|..]
  }

  function Transferred(config: Config, sender: State, receiver: State, count: nat): State {
    if |receiver.reader.consumed| + count <= |sender.writer.sent| then
      Step(config, receiver, BytesArrive(InTransit(sender, receiver)[..count]))
    else receiver
  }

  function LinkStep(leftConfig: Config, rightConfig: Config, k: Link, e: LinkEvent): Link {
    match e
    case AtLeft(event) => if event.BytesArrive? then k else k.(left := Step(leftConfig, k.left, event))
    case AtRight(event) => if event.BytesArrive? then k else k.(right := Step(rightConfig, k.right, event))
    case ToRight(count) => k.(right := Transferred(rightConfig, k.left, k.right, count))
    case ToLeft(count) => k.(left := Transferred(leftConfig, k.right, k.left, count))
  }

  function LinkRun(leftConfig: Config, rightConfig: Config, k: Link, events: seq<LinkEvent>): Link
    decreases |events|
  {
    if events == [] then k
    else LinkRun(leftConfig, rightConfig, LinkStep(leftConfig, rightConfig, k, events[0]), events[1..])
  }

  ghost predicate LinkInvariant(leftConfig: Config, rightConfig: Config, k: Link) {
    && PeerInvariant(leftConfig, k.left)
    && PeerInvariant(rightConfig, k.right)
    && k.right.reader.consumed <= k.left.writer.sent
    && k.left.reader.consumed <= k.right.writer.sent
  }

  lemma SentOnlyGrows(config: Config, s: State, e: Event)
    ensures s.writer.sent <= Step(config, s, e).writer.sent
    ensures s.writer.accepted <= Step(config, s, e).writer.accepted
  {
    hide ValidOutgoingFrame, DecodeUint32;
  }

  lemma ConsumedOnlyByArrival(config: Config, s: State, e: Event)
    ensures !e.BytesArrive? ==> Step(config, s, e).reader.consumed == s.reader.consumed
  {
    hide ValidOutgoingFrame, DecodeUint32;
  }

  lemma TransferKeepsOrder(config: Config, sender: State, receiver: State, count: nat)
    requires receiver.reader.consumed <= sender.writer.sent
    ensures Transferred(config, sender, receiver, count).reader.consumed <= sender.writer.sent
    ensures Transferred(config, sender, receiver, count).writer == receiver.writer
  {
    hide ValidOutgoingFrame, DecodeUint32;
    if |receiver.reader.consumed| + count <= |sender.writer.sent| {
      var chunk := InTransit(sender, receiver)[..count];
      assert receiver.reader.consumed + chunk == sender.writer.sent[..|receiver.reader.consumed| + count];
    }
  }

  lemma LinkStepKeepsInvariant(leftConfig: Config, rightConfig: Config, k: Link, e: LinkEvent)
    requires LinkInvariant(leftConfig, rightConfig, k)
    ensures LinkInvariant(leftConfig, rightConfig, LinkStep(leftConfig, rightConfig, k, e))
  {
    hide Step, PeerInvariant;
    match e
    case AtLeft(event) =>
      StepKeepsPeerInvariant(leftConfig, k.left, event);
      SentOnlyGrows(leftConfig, k.left, event);
      ConsumedOnlyByArrival(leftConfig, k.left, event);
    case AtRight(event) =>
      StepKeepsPeerInvariant(rightConfig, k.right, event);
      SentOnlyGrows(rightConfig, k.right, event);
      ConsumedOnlyByArrival(rightConfig, k.right, event);
    case ToRight(count) =>
      TransferKeepsOrder(rightConfig, k.left, k.right, count);
      if |k.right.reader.consumed| + count <= |k.left.writer.sent| {
        StepKeepsPeerInvariant(rightConfig, k.right, BytesArrive(InTransit(k.left, k.right)[..count]));
      }
    case ToLeft(count) =>
      TransferKeepsOrder(leftConfig, k.right, k.left, count);
      if |k.left.reader.consumed| + count <= |k.right.writer.sent| {
        StepKeepsPeerInvariant(leftConfig, k.left, BytesArrive(InTransit(k.right, k.left)[..count]));
      }
  }

  lemma {:induction false} EveryRunKeepsLinkInvariant(
    leftConfig: Config, rightConfig: Config, k: Link, events: seq<LinkEvent>
  )
    requires LinkInvariant(leftConfig, rightConfig, k)
    ensures LinkInvariant(leftConfig, rightConfig, LinkRun(leftConfig, rightConfig, k, events))
    decreases |events|
  {
    hide LinkStep, LinkInvariant;
    if events != [] {
      LinkStepKeepsInvariant(leftConfig, rightConfig, k, events[0]);
      EveryRunKeepsLinkInvariant(leftConfig, rightConfig, LinkStep(leftConfig, rightConfig, k, events[0]), events[1..]);
    }
  }

  lemma SameGate(c: Config, d: Config, frames: seq<Bytes>)
    requires c.maxMessageSize == d.maxMessageSize
    requires forall f :: f in frames ==> ValidOutgoingFrame(c, f)
    ensures forall f :: f in frames ==> ValidOutgoingFrame(d, f)
  {
    hide DecodeUint32;
  }

  /** The handed-over messages are a prefix of the sent ones, and all of them once
      the receiver waits for more bytes after reading every accepted one. */
  lemma HandedOverIsPrefix(config: Config, sender: Writer, receiver: State)
    requires forall f :: f in sender.accepted ==> ValidOutgoingFrame(config, f)
    requires sender.sent <= Concat(sender.accepted)
    requires receiver.reader.consumed <= sender.sent
    requires ReaderAgrees(config, Messages(receiver.life.signals), receiver.reader)
    ensures Messages(receiver.life.signals) <= MessagesOf(config, sender.accepted)
    ensures Waiting(receiver.reader) && receiver.reader.consumed == Concat(sender.accepted)
        ==> Messages(receiver.life.signals) == MessagesOf(config, sender.accepted)
  {
    hide ValidOutgoingFrame, Clean, Parse;
    var stream := Concat(sender.accepted);
    var r := receiver.reader;
    var handled := r.consumed[..r.handled];
    assert handled + stream[r.handled..] == stream;
    ParseMonotone(config, handled, stream[r.handled..]);
    ParseConcat(config, sender.accepted);
    if Waiting(r) {
      WaitingReaderHasParsedEverything(config, Messages(receiver.life.signals), r);
    }
  }

  predicate Waiting(r: Reader) {
    !r.operation.NotReading? && |r.operation.got| < Needed(r.operation)
  }

  /** End to end, over every run of a connection between peers with the same size
      limit: each side is handed, in order and unchanged, a prefix of the messages
      the other side's push_frame accepted, and all of them once it has read
      every accepted byte and waits for more. */
  lemma DeliveryIsFifo(leftConfig: Config, rightConfig: Config, events: seq<LinkEvent>)
    requires leftConfig.maxMessageSize == rightConfig.maxMessageSize
    ensures var k := LinkRun(leftConfig, rightConfig, Link(Fresh, Fresh), events);
            && DeliversInOrder(rightConfig, k.left, k.right)
            && DeliversInOrder(leftConfig, k.right, k.left)
  {
    hide LinkStep, ValidOutgoingFrame, ReaderAgrees, LifeCycle;
    var start := Link(Fresh, Fresh);
    FreshPeerInvariant(leftConfig);
    FreshPeerInvariant(rightConfig);
    EveryRunKeepsLinkInvariant(leftConfig, rightConfig, start, events);
    var k := LinkRun(leftConfig, rightConfig, start, events);
    SameGate(leftConfig, rightConfig, k.left.writer.accepted);
    SameGate(rightConfig, leftConfig, k.right.writer.accepted);
    HandedOverIsPrefix(rightConfig, k.left.writer, k.right);
    HandedOverIsPrefix(leftConfig, k.right.writer, k.left);
  }

  ghost predicate DeliversInOrder(config: Config, sender: State, receiver: State) {
    && (forall f :: f in sender.writer.accepted ==> ValidOutgoingFrame(config, f))
    && Messages(receiver.life.signals) <= MessagesOf(config, sender.writer.accepted)
    && (Waiting(receiver.reader) && receiver.reader.consumed == Concat(sender.writer.accepted)
        ==> Messages(receiver.life.signals) == MessagesOf(config, sender.writer.accepted))
  }

  // --------------------------------------------------------- what was given

  /** The frame of something a peer can be given to send. */
  ghost predicate Built(frame: Bytes) {
    exists given :: frame == FrameOf(given)
  }

  /** Every frame pushed at either end was built by one of the frame makers. */
  ghost predicate PushesBuilt(events: seq<LinkEvent>) {
    forall e :: e in events && (e.AtLeft? || e.AtRight?) && e.event.Push? ==> Built(e.event.frame)
  }

  ghost predicate AcceptedBuilt(s: State) {
    forall f :: f in s.writer.accepted ==> Built(f)
  }

  lemma StepAccepts(config: Config, s: State, e: Event)
    ensures var t := Step(config, s, e);
            || t.writer.accepted == s.writer.accepted
            || (e.Push? && t.writer.accepted == s.writer.accepted + [e.frame])
            || t.writer.accepted == s.writer.accepted + [FrameOf(Beat)]
            || t.writer.accepted == s.writer.accepted + [FrameOf(Reply)]
  {
    hide ValidOutgoingFrame, DecodeUint32, Frame;
  }

  lemma StepKeepsBuilt(config: Config, s: State, e: Event)
    requires AcceptedBuilt(s) && (e.Push? ==> Built(e.frame))
    ensures AcceptedBuilt(Step(config, s, e))
  {
    hide Step, FrameOf;
    StepAccepts(config, s, e);
    assert Built(FrameOf(Beat)) && Built(FrameOf(Reply));
  }

  lemma LinkStepKeepsBuilt(leftConfig: Config, rightConfig: Config, k: Link, e: LinkEvent)
    requires AcceptedBuilt(k.left) && AcceptedBuilt(k.right) && PushesBuilt([e])
    ensures var t := LinkStep(leftConfig, rightConfig, k, e); AcceptedBuilt(t.left) && AcceptedBuilt(t.right)
  {
    hide Step, AcceptedBuilt, Built;
    assert e in [e];
    match e
    case AtLeft(event) => StepKeepsBuilt(leftConfig, k.left, event);
    case AtRight(event) => StepKeepsBuilt(rightConfig, k.right, event);
    case ToRight(count) =>
      if |k.right.reader.consumed| + count <= |k.left.writer.sent| {
        StepKeepsBuilt(rightConfig, k.right, BytesArrive(InTransit(k.left, k.right)[..count]));
      }
    case ToLeft(count) =>
      if |k.left.reader.consumed| + count <= |k.right.writer.sent| {
        StepKeepsBuilt(leftConfig, k.left, BytesArrive(InTransit(k.right, k.left)[..count]));
      }
  }

  lemma {:induction false} RunKeepsBuilt(leftConfig: Config, rightConfig: Config, k: Link, events: seq<LinkEvent>)
    requires AcceptedBuilt(k.left) && AcceptedBuilt(k.right) && PushesBuilt(events)
    ensures var t := LinkRun(leftConfig, rightConfig, k, events); AcceptedBuilt(t.left) && AcceptedBuilt(t.right)
    decreases |events|
  {
    hide LinkStep, AcceptedBuilt, Built;
    if events != [] {
      assert events[0] in events && forall e :: e in events[1..] ==> e in events;
      LinkStepKeepsBuilt(leftConfig, rightConfig, k, events[0]);
      RunKeepsBuilt(leftConfig, rightConfig, LinkStep(leftConfig, rightConfig, k, events[0]), events[1..]);
    }
  }

  lemma {:induction false} GivenOf(frames: seq<Bytes>)
    requires forall f :: f in frames ==> Built(f)
    ensures exists given :: FramesOf(given) == frames
  {
    hide FrameOf;
    if frames == [] {
      assert FramesOf([]) == frames;
    } else {
      assert frames[0] in frames;
      var first :| frames[0] == FrameOf(first);
      GivenOf(frames[1..]);
      var rest :| FramesOf(rest) == frames[1..];
      assert ([first] + rest)[1..] == rest;
      assert FramesOf([first] + rest) == [frames[0]] + frames[1..] == frames;
    }
  }

  // ----------------------------------------------------- what was pushed

  /** The frame a push hands to an open end that has room for it. */
  function PushWithRoom(config: Config, s: State, e: Event): seq<Bytes> {
    if e.Push? && s.life.open && ValidOutgoingFrame(config, e.frame) && |s.writer.queue| < config.maxSendQueueSize then
      [e.frame]
    else []
  }

  function PushesAtLeft(leftConfig: Config, rightConfig: Config, k: Link, events: seq<LinkEvent>): seq<Bytes>
    decreases |events|
  {
    if events == [] then []
    else
      (if events[0].AtLeft? then PushWithRoom(leftConfig, k.left, events[0].event) else [])
      + PushesAtLeft(leftConfig, rightConfig, LinkStep(leftConfig, rightConfig, k, events[0]), events[1..])
  }

  function PushesAtRight(leftConfig: Config, rightConfig: Config, k: Link, events: seq<LinkEvent>): seq<Bytes>
    decreases |events|
  {
    if events == [] then []
    else
      (if events[0].AtRight? then PushWithRoom(rightConfig, k.right, events[0].event) else [])
      + PushesAtRight(leftConfig, rightConfig, LinkStep(leftConfig, rightConfig, k, events[0]), events[1..])
  }

  predicate CarriesMessage(frame: Bytes) {
    && HEADER_SIZE < |frame|
    && var kind := TypeOf(frame[HEADER_SIZE]);
       kind == Some(UserData) || kind == Some(Request) || kind == Some(Response)
  }

  /** The frames among these that carry messages. */
  function MessageFramesIn(frames: seq<Bytes>): seq<Bytes> {
    if frames == [] then []
    else (if CarriesMessage(frames[0]) then [frames[0]] else []) + MessageFramesIn(frames[1..])
  }

  lemma {:induction false} MessageFramesAppend(frames: seq<Bytes>, more: seq<Bytes>)
    ensures MessageFramesIn(frames + more) == MessageFramesIn(frames) + MessageFramesIn(more)
  {
    hide CarriesMessage;
    if frames == [] {
      assert frames + more == more;
    } else {
      assert (frames + more)[1..] == frames[1..] + more;
      MessageFramesAppend(frames[1..], more);
    }
  }

  lemma OneFrame(frame: Bytes)
    ensures MessageFramesIn([frame]) == if CarriesMessage(frame) then [frame] else []
  {
    assert [frame][1..] == [];
  }

  lemma ControlCarriesNone()
    ensures !CarriesMessage(FrameOf(Beat)) && !CarriesMessage(FrameOf(Reply)) && !CarriesMessage(FrameOf(Check))
  {
    HeaderOfFrame(Heartbeat, []);
    HeaderOfFrame(HealthCheckResponse, []);
    HeaderOfFrame(HealthCheck, []);
    TypeOfCode(Heartbeat, Heartbeat.Code());
    TypeOfCode(HealthCheckResponse, HealthCheckResponse.Code());
    TypeOfCode(HealthCheck, HealthCheck.Code());
  }

  /** A step accepts the message it pushes, if there is room, and no other. */
  lemma StepAcceptsPush(config: Config, s: State, e: Event)
    ensures MessageFramesIn(Step(config, s, e).writer.accepted)
         == MessageFramesIn(s.writer.accepted) + MessageFramesIn(PushWithRoom(config, s, e))
  {
    hide Step, FrameOf, CarriesMessage, MessageFramesIn, ValidOutgoingFrame;
    ControlCarriesNone();
    OneFrame(FrameOf(Beat));
    OneFrame(FrameOf(Reply));
    MessageFramesAppend(s.writer.accepted, [FrameOf(Beat)]);
    MessageFramesAppend(s.writer.accepted, [FrameOf(Reply)]);
    MessageFramesAppend(s.writer.accepted, []);
    assert s.writer.accepted + [] == s.writer.accepted;
    if e.Push? {
      PushAcceptsExactly(config, s, e.frame);
      MessageFramesAppend(s.writer.accepted, [e.frame]);
    } else {
      StepAccepts(config, s, e);
    }
  }

  lemma LinkStepAcceptsPushes(leftConfig: Config, rightConfig: Config, k: Link, e: LinkEvent)
    ensures var t := LinkStep(leftConfig, rightConfig, k, e);
            && MessageFramesIn(t.left.writer.accepted)
               == MessageFramesIn(k.left.writer.accepted)
                  + MessageFramesIn(if e.AtLeft? then PushWithRoom(leftConfig, k.left, e.event) else [])
            && MessageFramesIn(t.right.writer.accepted)
               == MessageFramesIn(k.right.writer.accepted)
                  + MessageFramesIn(if e.AtRight? then PushWithRoom(rightConfig, k.right, e.event) else [])
  {
    hide Step, MessageFramesIn, ValidOutgoingFrame;
    MessageFramesAppend(k.left.writer.accepted, []);
    MessageFramesAppend(k.right.writer.accepted, []);
    assert k.left.writer.accepted + [] == k.left.writer.accepted;
    assert k.right.writer.accepted + [] == k.right.writer.accepted;
    match e
    case AtLeft(event) => StepAcceptsPush(leftConfig, k.left, event);
    case AtRight(event) => StepAcceptsPush(rightConfig, k.right, event);
    case ToRight(count) =>
      if |k.right.reader.consumed| + count <= |k.left.writer.sent| {
        StepAcceptsPush(rightConfig, k.right, BytesArrive(InTransit(k.left, k.right)[..count]));
      }
    case ToLeft(count) =>
      if |k.left.reader.consumed| + count <= |k.right.writer.sent| {
        StepAcceptsPush(leftConfig, k.left, BytesArrive(InTransit(k.right, k.left)[..count]));
      }
  }

  /** Over a run, what an end accepts to send is exactly what was pushed while it was open
      and had room, in order, apart from its own heartbeats and health-check answers. */
  lemma {:induction false} RunAcceptsPushes(leftConfig: Config, rightConfig: Config, k: Link, events: seq<LinkEvent>)
    ensures var t := LinkRun(leftConfig, rightConfig, k, events);
            && MessageFramesIn(t.left.writer.accepted)
               == MessageFramesIn(k.left.writer.accepted)
                  + MessageFramesIn(PushesAtLeft(leftConfig, rightConfig, k, events))
            && MessageFramesIn(t.right.writer.accepted)
               == MessageFramesIn(k.right.writer.accepted)
                  + MessageFramesIn(PushesAtRight(leftConfig, rightConfig, k, events))
    decreases |events|
  {
    hide LinkStep, PushWithRoom, MessageFramesIn;
    if events == [] {
      NoMessageFrames();
    } else {
      var e, next := events[0], LinkStep(leftConfig, rightConfig, k, events[0]);
      var rest := events[1..];
      LinkStepAcceptsPushes(leftConfig, rightConfig, k, e);
      RunAcceptsPushes(leftConfig, rightConfig, next, rest);
      MessageFramesAppend(if e.AtLeft? then PushWithRoom(leftConfig, k.left, e.event) else [],
                          PushesAtLeft(leftConfig, rightConfig, next, rest));
      MessageFramesAppend(if e.AtRight? then PushWithRoom(rightConfig, k.right, e.event) else [],
                          PushesAtRight(leftConfig, rightConfig, next, rest));
    }
  }

  lemma NoMessageFrames()
    ensures MessageFramesIn([]) == []
  {
  }

  /** The messages among what was given. */
  function SentOnly(given: seq<Outgoing>): seq<Outgoing> {
    if given == [] then [] else (if given[0].Sent? then [given[0]] else []) + SentOnly(given[1..])
  }

  lemma SentCarries(message: Message)
    ensures CarriesMessage(FrameOf(Sent(message)))
  {
    hide BytesOfUint64;
    match message
    case UserMessage(data) =>
      HeaderOfFrame(UserData, data);
      TypeOfCode(UserData, UserData.Code());
    case RequestMessage(id, data) =>
      HeaderOfFrame(Request, BytesOfUint64(id) + data);
      TypeOfCode(Request, Request.Code());
    case ResponseMessage(id, data) =>
      HeaderOfFrame(Response, BytesOfUint64(id) + data);
      TypeOfCode(Response, Response.Code());
  }

  lemma FramesCons(first: Outgoing, rest: seq<Outgoing>)
    ensures FramesOf([first] + rest) == [FrameOf(first)] + FramesOf(rest)
  {
    hide FrameOf;
    assert ([first] + rest)[1..] == rest;
  }

  lemma {:induction false} SentAreMessageFrames(given: seq<Outgoing>)
    ensures FramesOf(SentOnly(given)) == MessageFramesIn(FramesOf(given))
  {
    hide FrameOf, CarriesMessage, FramesOf, MessageFramesIn;
    if given == [] {
      NothingSent();
    } else {
      var first, rest := given[0], given[1..];
      assert given == [first] + rest;
      FramesCons(first, rest);
      FramesCons(first, SentOnly(rest));
      MessageFramesAppend([FrameOf(first)], FramesOf(rest));
      OneFrame(FrameOf(first));
      ControlCarriesNone();
      SentAreMessageFrames(rest);
      if first.Sent? {
        SentCarries(first.message);
        assert SentOnly(given) == [first] + SentOnly(rest);
      } else {
        assert SentOnly(given) == SentOnly(rest);
        assert MessageFramesIn(FramesOf(given)) == MessageFramesIn(FramesOf(rest));
      }
    }
  }

  lemma NothingSent()
    ensures FramesOf([]) == [] && MessageFramesIn([]) == []
  {
  }

  /** What the sender was given and accepted, namely the messages pushed while it was open
      and had room, and what of it the receiver handed over. */
  ghost predicate DeliversGiven(sender: State, receiver: State, pushes: seq<Bytes>, given: seq<Outgoing>) {
    && sender.writer.accepted == FramesOf(given)
    && FramesOf(SentOnly(given)) == MessageFramesIn(pushes)
    && Messages(receiver.life.signals) <= MessagesGiven(given)
    && (Waiting(receiver.reader) && receiver.reader.consumed == Concat(sender.writer.accepted)
        ==> Messages(receiver.life.signals) == MessagesGiven(given))
  }

  lemma DeliveredAsGiven(config: Config, sender: State, receiver: State, pushes: seq<Bytes>)
    requires AcceptedBuilt(sender) && DeliversInOrder(config, sender, receiver)
    requires MessageFramesIn(sender.writer.accepted) == MessageFramesIn(pushes)
    ensures exists given :: DeliversGiven(sender, receiver, pushes, given)
  {
    hide ValidOutgoingFrame, FrameOf, MessagesOf, MessagesGiven, Messages, Concat, Waiting, MessageFramesIn, SentOnly;
    GivenOf(sender.writer.accepted);
    var given :| FramesOf(given) == sender.writer.accepted;
    MessagesOfFrames(config, given);
    SentAreMessageFrames(given);
    assert DeliversGiven(sender, receiver, pushes, given);
  }

  /** End to end in the senders' terms: when only messages, heartbeats and health checks
      are pushed, each side is handed a prefix, in order and unchanged, of the messages the
      other side accepted, and these are exactly those pushed while it was open and had room. */
  lemma DeliveryIsFifoOfMessages(leftConfig: Config, rightConfig: Config, events: seq<LinkEvent>)
    requires leftConfig.maxMessageSize == rightConfig.maxMessageSize && PushesBuilt(events)
    ensures var start := Link(Fresh, Fresh);
            var k := LinkRun(leftConfig, rightConfig, start, events);
            && (exists given ::
                  DeliversGiven(k.left, k.right, PushesAtLeft(leftConfig, rightConfig, start, events), given))
            && (exists given ::
                  DeliversGiven(k.right, k.left, PushesAtRight(leftConfig, rightConfig, start, events), given))
  {
    hide LinkStep, LinkRun, Built, DeliversInOrder, DeliversGiven, PushesAtLeft, PushesAtRight;
    var start := Link(Fresh, Fresh);
    DeliveryIsFifo(leftConfig, rightConfig, events);
    RunKeepsBuilt(leftConfig, rightConfig, start, events);
    RunAcceptsPushes(leftConfig, rightConfig, start, events);
    NoMessageFrames();
    var k := LinkRun(leftConfig, rightConfig, start, events);
    DeliveredAsGiven(rightConfig, k.left, k.right, PushesAtLeft(leftConfig, rightConfig, start, events));
    DeliveredAsGiven(leftConfig, k.right, k.left, PushesAtRight(leftConfig, rightConfig, start, events));
  }
}
