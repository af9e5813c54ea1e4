/** The frame stream: a reference parser over plain bytes, the sender's size
    gate, and the proof that the receiver accepts whatever the gate lets out. */
module PeerFraming {
  import opened Common
  import opened Protocol
  import opened PeerModel

  /** What a complete body means to the reader: stop, or go on with at most one message. */
  datatype Verdict = Stop | Continue(messages: seq<Message>)

  function Judge(config: Config, body: Bytes): Verdict
    requires TYPE_SIZE <= |body|
  {
    match TypeOf(body[0])
    case Some(Heartbeat) | Some(HealthCheckResponse) => Continue([])
    case Some(UserData) =>
      if |body| <= config.maxMessageSize + TYPE_SIZE then Continue([UserMessage(body[TYPE_SIZE..])]) else Stop
    case Some(Request) | Some(Response) =>
      if TYPE_SIZE + REQUEST_ID_SIZE <= |body| <= config.maxMessageSize + TYPE_SIZE + REQUEST_ID_SIZE then
        Continue([IdentifiedMessage(TypeOf(body[0]).value, body)])
      else Stop
    case Some(HealthCheck) | None => Stop
  }

  predicate HasFrame(config: Config, bytes: Bytes) {
    && HEADER_SIZE <= |bytes|
    && var size := DecodeUint32(bytes[..HEADER_SIZE]) as nat;
       ValidIncomingBodySize(config, size) && HEADER_SIZE + size <= |bytes|
  }

  function FirstFrameSize(config: Config, bytes: Bytes): (size: nat)
    requires HasFrame(config, bytes)
    ensures HEADER_SIZE + TYPE_SIZE <= size <= |bytes|
  {
    HEADER_SIZE + DecodeUint32(bytes[..HEADER_SIZE]) as nat
  }

  function FirstVerdict(config: Config, bytes: Bytes): Verdict
    requires HasFrame(config, bytes)
  {
    Judge(config, bytes[HEADER_SIZE..FirstFrameSize(config, bytes)])
  }

  /** The messages a byte stream carries, up to the first incomplete, invalid or closing frame. */
  function Parse(config: Config, bytes: Bytes): seq<Message>
    decreases |bytes|
  {
    if !HasFrame(config, bytes) || FirstVerdict(config, bytes).Stop? then []
    else FirstVerdict(config, bytes).messages + Parse(config, bytes[FirstFrameSize(config, bytes)..])
  }

  /** The bytes are exactly a sequence of frames the reader reads past. */
  predicate Clean(config: Config, bytes: Bytes)
    decreases |bytes|
  {
    bytes == []
    || (HasFrame(config, bytes)
        && FirstVerdict(config, bytes).Continue?
        && Clean(config, bytes[FirstFrameSize(config, bytes)..]))
  }

  lemma FirstFrameStable(config: Config, bytes: Bytes, more: Bytes)
    requires HasFrame(config, bytes)
    ensures HasFrame(config, bytes + more)
    ensures FirstFrameSize(config, bytes + more) == FirstFrameSize(config, bytes)
    ensures FirstVerdict(config, bytes + more) == FirstVerdict(config, bytes)
    ensures (bytes + more)[FirstFrameSize(config, bytes)..] == bytes[FirstFrameSize(config, bytes)..] + more
  {
    assert (bytes + more)[..HEADER_SIZE] == bytes[..HEADER_SIZE];
    var size := FirstFrameSize(config, bytes);
    assert (bytes + more)[HEADER_SIZE..size] == bytes[HEADER_SIZE..size];
  }

  lemma EmptyStream(config: Config)
    ensures Clean(config, []) && Parse(config, []) == []
  {
    assert !HasFrame(config, []);
  }

  /** Parsing distributes over a clean prefix. */
  lemma {:induction false} ParseAfterClean(config: Config, bytes: Bytes, more: Bytes)
    requires Clean(config, bytes)
    ensures Parse(config, bytes + more) == Parse(config, bytes) + Parse(config, more)
    ensures Clean(config, more) ==> Clean(config, bytes + more)
    decreases |bytes|
  {
    hide HasFrame, FirstVerdict;
    if bytes == [] {
      assert bytes + more == more;
      EmptyStream(config);
    } else {
      FirstFrameStable(config, bytes, more);
      ParseAfterClean(config, bytes[FirstFrameSize(config, bytes)..], more);
    }
  }

  /** More bytes never take back or change a message. */
  lemma {:induction false} ParseMonotone(config: Config, bytes: Bytes, more: Bytes)
    ensures Parse(config, bytes) <= Parse(config, bytes + more)
    decreases |bytes|
  {
    hide HasFrame, FirstVerdict;
    if HasFrame(config, bytes) && FirstVerdict(config, bytes).Continue? {
      FirstFrameStable(config, bytes, more);
      ParseMonotone(config, bytes[FirstFrameSize(config, bytes)..], more);
    }
  }

  // ---------------------------------------------------------- the size gate

  lemma Wrapped(size: nat, decoded: nat)
    requires decoded == size % UINT32_RANGE
    ensures decoded == size <==> size < UINT32_RANGE
  {
  }

  lemma GateOfBuiltFrame(config: Config, frame: Bytes, kind: MessageType, size: nat)
    requires |frame| == HEADER_SIZE + TYPE_SIZE + size
    requires DecodeUint32(frame[..HEADER_SIZE]) as nat == (TYPE_SIZE + size) % UINT32_RANGE
    requires frame[HEADER_SIZE] == kind.Code()
    ensures ValidOutgoingFrame(config, frame)
       <==> TYPE_SIZE + size < UINT32_RANGE && ValidOutgoingSize(config, Some(kind), TYPE_SIZE + size)
  {
    hide DecodeUint32;
    TypeOfCode(kind, frame[HEADER_SIZE]);
    Wrapped(TYPE_SIZE + size, DecodeUint32(frame[..HEADER_SIZE]) as nat);
  }

  /** The gate lets a user-data frame out exactly when its payload is within the
      limit and the header did not wrap. */
  lemma UserDataGateIsExact(config: Config, data: Bytes)
    ensures ValidOutgoingFrame(config, UserDataFrame(data))
       <==> |data| <= config.maxMessageSize && TYPE_SIZE + |data| < UINT32_RANGE
  {
    HeaderOfFrame(UserData, data);
    GateOfBuiltFrame(config, UserDataFrame(data), UserData, |data|);
  }

  lemma RequestGateIsExact(config: Config, id: bv64, data: Bytes)
    ensures ValidOutgoingFrame(config, RequestFrame(id, data))
       <==> |data| <= config.maxMessageSize && TYPE_SIZE + REQUEST_ID_SIZE + |data| < UINT32_RANGE
    ensures ValidOutgoingFrame(config, ResponseFrame(id, data)) <==> ValidOutgoingFrame(config, RequestFrame(id, data))
  {
    var body := BytesOfUint64(id) + data;
    HeaderOfFrame(Request, body);
    HeaderOfFrame(Response, body);
    GateOfBuiltFrame(config, RequestFrame(id, data), Request, |body|);
    GateOfBuiltFrame(config, ResponseFrame(id, data), Response, |body|);
  }

  /** A frame that passes the sender's gate passes the receiver's checks under the same limit. */
  lemma GateAgreesWithReceiver(config: Config, frame: Bytes)
    requires ValidOutgoingFrame(config, frame)
    ensures HasFrame(config, frame) && FirstFrameSize(config, frame) == |frame|
    ensures FirstVerdict(config, frame).Stop? <==> TypeOf(frame[HEADER_SIZE]) == Some(HealthCheck)
  {
    assert frame[HEADER_SIZE..|frame|][0] == frame[HEADER_SIZE];
  }

  // ------------------------------------------------- the encoders, inverted

  function MessageFrame(message: Message): Bytes {
    match message
    case UserMessage(data) => UserDataFrame(data)
    case RequestMessage(id, data) => RequestFrame(id, data)
    case ResponseMessage(id, data) => ResponseFrame(id, data)
  }

  predicate Sendable(config: Config, message: Message) {
    ValidOutgoingFrame(config, MessageFrame(message))
  }

  lemma MessageFrameParses(config: Config, message: Message)
    requires Sendable(config, message)
    ensures HasFrame(config, MessageFrame(message))
    ensures FirstVerdict(config, MessageFrame(message)) == Continue([message])
  {
    match message {
      case UserMessage(data) => UserDataBody(config, data);
      case RequestMessage(id, data) => IdentifiedBody(config, Request, id, data);
      case ResponseMessage(id, data) => IdentifiedBody(config, Response, id, data);
    }
  }

  lemma UserDataBody(config: Config, data: Bytes)
    requires ValidOutgoingFrame(config, UserDataFrame(data))
    ensures HasFrame(config, UserDataFrame(data))
    ensures FirstVerdict(config, UserDataFrame(data)) == Continue([UserMessage(data)])
  {
    hide DecodeUint32, Judge;
    var frame := UserDataFrame(data);
    HeaderOfFrame(UserData, data);
    UserDataGateIsExact(config, data);
    GateAgreesWithReceiver(config, frame);
    BodyOfUserData(config, frame[HEADER_SIZE..|frame|], data);
  }

  lemma BodyOfUserData(config: Config, body: Bytes, data: Bytes)
    requires body == [UserData.Code()] + data
    ensures Judge(config, body) == if |data| <= config.maxMessageSize then Continue([UserMessage(data)]) else Stop
  {
    assert body[TYPE_SIZE..] == data;
  }

  lemma IdentifiedBody(config: Config, kind: MessageType, id: bv64, data: Bytes)
    requires kind == Request || kind == Response
    requires ValidOutgoingFrame(config, Frame(kind, BytesOfUint64(id) + data))
    ensures var frame := Frame(kind, BytesOfUint64(id) + data);
            && HasFrame(config, frame)
            && FirstVerdict(config, frame)
            == Continue([if kind == Request then RequestMessage(id, data) else ResponseMessage(id, data)])
  {
    hide DecodeUint32, DecodeUint64, BytesOfUint64, Judge;
    var payload := BytesOfUint64(id) + data;
    var frame := Frame(kind, payload);
    HeaderOfFrame(kind, payload);
    GateAgreesWithReceiver(config, frame);
    BodyOfIdentified(config, frame[HEADER_SIZE..|frame|], kind, id, data);
  }

  lemma BodyOfIdentified(config: Config, body: Bytes, kind: MessageType, id: bv64, data: Bytes)
    requires kind == Request || kind == Response
    requires body == [kind.Code()] + (BytesOfUint64(id) + data)
    requires |body| <= config.maxMessageSize + TYPE_SIZE + REQUEST_ID_SIZE
    ensures Judge(config, body)
         == Continue([if kind == Request then RequestMessage(id, data) else ResponseMessage(id, data)])
  {
    TypeOfCode(kind, body[0]);
    assert body == [kind.Code()] + BytesOfUint64(id) + data;
    Uint64RoundTrip(id, [kind.Code()], data);
    assert body[TYPE_SIZE + REQUEST_ID_SIZE..] == data;
  }

  function Concat(frames: seq<Bytes>): Bytes {
    if frames == [] then [] else frames[0] + Concat(frames[1..])
  }

  function Encode(messages: seq<Message>): Bytes {
    if messages == [] then [] else MessageFrame(messages[0]) + Encode(messages[1..])
  }

  /** Parsing inverts encoding. */
  lemma {:induction false} ParseInvertsEncode(config: Config, messages: seq<Message>)
    requires forall m :: m in messages ==> Sendable(config, m)
    ensures Parse(config, Encode(messages)) == messages
    ensures Clean(config, Encode(messages))
  {
    if messages != [] {
      var frame := MessageFrame(messages[0]);
      MessageFrameParses(config, messages[0]);
      CleanFrame(config, frame);
      ParseInvertsEncode(config, messages[1..]);
      ParseAfterClean(config, frame, Encode(messages[1..]));
      assert messages == [messages[0]] + messages[1..];
    }
  }

  lemma CleanFrame(config: Config, frame: Bytes)
    requires ValidOutgoingFrame(config, frame)
    ensures HasFrame(config, frame)
    ensures Clean(config, frame) <==> FirstVerdict(config, frame).Continue?
    ensures FirstVerdict(config, frame).Continue? ==> Parse(config, frame) == FirstVerdict(config, frame).messages
  {
    GateAgreesWithReceiver(config, frame);
    assert frame[|frame|..] == [];
    EmptyStream(config);
  }

  lemma {:induction false} ConcatAppend(frames: seq<Bytes>, frame: Bytes)
    ensures Concat(frames + [frame]) == Concat(frames) + frame
  {
    if frames == [] {
      assert frames + [frame] == [frame];
      assert Concat([frame]) == frame + Concat([]);
    } else {
      assert (frames + [frame])[1..] == frames[1..] + [frame];
      ConcatAppend(frames[1..], frame);
    }
  }

  lemma {:induction false} ConcatSplit(frames: seq<Bytes>, k: nat)
    requires k <= |frames|
    ensures Concat(frames) == Concat(frames[..k]) + Concat(frames[k..])
  {
    if k == 0 {
      assert frames[..0] == [] && frames[0..] == frames;
    } else {
      ConcatSplit(frames[1..], k - 1);
      assert frames[..k][1..] == frames[1..][..k - 1];
      assert frames[k..] == frames[1..][k - 1..];
    }
  }

  /** The messages of accepted frames, as the sender's caller meant them: each
      frame's own message, up to a health check, after which a reader hands over nothing. */
  function MessagesOf(config: Config, frames: seq<Bytes>): seq<Message>
    requires forall f :: f in frames ==> ValidOutgoingFrame(config, f)
  {
    if frames == [] then []
    else
      GateAgreesWithReceiver(config, frames[0]);
      match FirstVerdict(config, frames[0])
      case Stop => []
      case Continue(messages) => messages + MessagesOf(config, frames[1..])
  }

  lemma {:induction false} ParseConcat(config: Config, frames: seq<Bytes>)
    requires forall f :: f in frames ==> ValidOutgoingFrame(config, f)
    ensures Parse(config, Concat(frames)) == MessagesOf(config, frames)
  {
    if frames != [] {
      CleanFrame(config, frames[0]);
      GateAgreesWithReceiver(config, frames[0]);
      FirstFrameStable(config, frames[0], Concat(frames[1..]));
      ParseConcat(config, frames[1..]);
      if FirstVerdict(config, frames[0]).Continue? {
        ParseAfterClean(config, frames[0], Concat(frames[1..]));
      }
    }
  }

  /** Everything a peer is ever given to push: a message, or one of its own control frames. */
  datatype Outgoing = Sent(message: Message) | Beat | Reply | Check

  function FrameOf(given: Outgoing): Bytes {
    match given
    case Sent(message) => MessageFrame(message)
    case Beat => Frame(Heartbeat, [])
    case Reply => Frame(HealthCheckResponse, [])
    case Check => Frame(HealthCheck, [])
  }

  function FramesOf(given: seq<Outgoing>): seq<Bytes> {
    if given == [] then [] else [FrameOf(given[0])] + FramesOf(given[1..])
  }

  /** The messages given, in order, up to a health check, after which a receiver only answers. */
  function MessagesGiven(given: seq<Outgoing>): seq<Message> {
    if given == [] || given[0].Check? then []
    else (if given[0].Sent? then [given[0].message] else []) + MessagesGiven(given[1..])
  }

  lemma ControlFrameParses(config: Config, given: Outgoing)
    requires !given.Sent? && ValidOutgoingFrame(config, FrameOf(given))
    ensures HasFrame(config, FrameOf(given))
    ensures FirstVerdict(config, FrameOf(given)) == if given.Check? then Stop else Continue([])
  {
    var kind := if given.Beat? then Heartbeat else if given.Reply? then HealthCheckResponse else HealthCheck;
    HeaderOfFrame(kind, []);
    TypeOfCode(kind, FrameOf(given)[HEADER_SIZE]);
    GateAgreesWithReceiver(config, FrameOf(given));
  }

  /** Frames built from what was given carry exactly the given messages, whatever
      heartbeats and health-check answers lie between them. */
  lemma {:induction false} MessagesOfFrames(config: Config, given: seq<Outgoing>)
    requires forall f :: f in FramesOf(given) ==> ValidOutgoingFrame(config, f)
    ensures MessagesOf(config, FramesOf(given)) == MessagesGiven(given)
  {
    hide ValidOutgoingFrame, Frame, FirstVerdict;
    if given != [] {
      var frames := FramesOf(given);
      assert frames[0] == FrameOf(given[0]) && frames[1..] == FramesOf(given[1..]);
      if given[0].Sent? {
        MessageFrameParses(config, given[0].message);
      } else {
        ControlFrameParses(config, given[0]);
      }
      MessagesOfFrames(config, given[1..]);
    }
  }
}
