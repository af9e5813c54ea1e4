/** The peer class: handlers that update its fields in place, each proved to do
    what the model's function of the same name says and to keep the invariant. */
module Peer {
  import opened Common
  import opened Protocol
  import PeerModel
  import PeerProofs

  datatype ReadPhase = Idle | Header | Body

  class Peer {
    const config: PeerModel.Config
    var socketIsOpen: bool
    var closedOnExecutor: bool
    var ready: bool
    var closeAfterWrite: bool
    // bytes received so far into the header and body buffers
    var readPhase: ReadPhase
    var readHeader: Bytes
    var readBody: Bytes
    var readBodySize: nat
    var writeQueue: seq<Bytes>
    var writing: Option<nat>
    // what the peer enqueued to the dispatcher
    var signals: seq<PeerModel.Signal>

    ghost var started: bool
    ghost var accepted: seq<Bytes>
    ghost var popped: nat
    ghost var sent: Bytes
    ghost var consumed: Bytes
    ghost var handled: nat

    ghost function Life(): PeerModel.Life
      reads this
    {
      PeerModel.Life(socketIsOpen, closedOnExecutor, ready, signals)
    }

    ghost function Writer(): PeerModel.Writer
      reads this
    {
      PeerModel.Writer(closeAfterWrite, writeQueue, writing, accepted, popped, sent)
    }

    ghost function Reader(): PeerModel.Reader
      reads this
    {
      var operation :=
        match readPhase
        case Idle => PeerModel.NotReading
        case Header => PeerModel.ReadingHeader(readHeader)
        case Body => PeerModel.ReadingBody(readBodySize, readBody);
      PeerModel.Reader(started, operation, consumed, handled)
    }

    ghost function View(): PeerModel.State
      reads this
    {
      PeerModel.State(Life(), Writer(), Reader())
    }

    ghost predicate Valid()
      reads this
    {
      PeerProofs.PeerInvariant(config, View())
    }

    constructor (config: PeerModel.Config)
      ensures this.config == config
      ensures View() == PeerModel.Fresh
      ensures Valid()
    {
      this.config := config;
      socketIsOpen, closedOnExecutor, ready, closeAfterWrite := true, false, false, false;
      readPhase, readHeader, readBody, readBodySize := Idle, [], [], 0;
      writeQueue, writing, signals := [], None, [];
      started, accepted, popped, sent, consumed, handled := false, [], 0, [], [], 0;
      new;
      PeerProofs.FreshPeerInvariant(config);
    }

    method EnsureReady()
      modifies `ready, `signals
      ensures View() == old(View()).(life := PeerModel.EnsureReady(old(Life())))
    {
      if ready {
        return;
      }
      ready := true;
      signals := signals + [PeerModel.BecameReady];
    }

    method Close()
      modifies `socketIsOpen, `closedOnExecutor, `signals
      ensures View() == old(View()).(life := PeerModel.Close(old(Life())))
    {
      var socketWasOpen := socketIsOpen;
      closedOnExecutor := true;
      socketIsOpen := false;
      if socketWasOpen {
        signals := signals + [PeerModel.Closed];
      }
    }

    method HandleError(code: ErrorCode)
      modifies `socketIsOpen, `closedOnExecutor, `signals
      ensures View() == old(View()).(life := PeerModel.HandleError(old(Life()), code))
    {
      if code == OperationAborted {
        return;
      }
      signals := signals + [PeerModel.ErrorOccurred(code)];
      Close();
    }

    method ReadHeader()
      requires readPhase == Idle
      modifies `readPhase, `readHeader
      ensures View() == old(View()).(reader := PeerModel.StartReadingHeader(old(Life()), old(Reader())))
    {
      if !socketIsOpen {
        return;
      }
      readPhase := Header;
      readHeader := [];
    }

    method Start()
      requires Valid() && !started
      modifies this
      ensures View() == PeerModel.Step(config, old(View()), PeerModel.Start)
      ensures Valid()
    {
      PeerProofs.StepKeepsPeerInvariant(config, View(), PeerModel.Start);
      started := true;
      ReadHeader();
    }

    method BytesArrive(chunk: Bytes)
      requires Valid() && PeerModel.Enabled(View(), PeerModel.BytesArrive(chunk))
      modifies this
      ensures View() == PeerModel.Step(config, old(View()), PeerModel.BytesArrive(chunk))
      ensures Valid()
    {
      hide PeerProofs.PeerInvariant, PeerModel.PushFrame;
      PeerProofs.StepKeepsPeerInvariant(config, View(), PeerModel.BytesArrive(chunk));
      if readPhase == Header {
        readHeader := readHeader + chunk;
      } else {
        readBody := readBody + chunk;
      }
      consumed := consumed + chunk;
    }

    method HeaderRead(error: Option<ErrorCode>)
      requires readPhase == Header
      modifies this
      ensures View() == PeerModel.HeaderRead(config, old(View()), error)
    {
      hide DecodeUint32;
      readPhase := Idle;
      if error.Some? {
        if error.value == Eof && |readHeader| == 0 {
          Close();
          return;
        }
        HandleError(error.value);
        return;
      }
      if |readHeader| != HEADER_SIZE {
        HandleError(MessageSize);
        return;
      }
      ReadBody(DecodeUint32(readHeader) as nat);
    }

    method ReadBody(bodySize: nat)
      requires readPhase == Idle
      modifies this
      ensures View() == PeerModel.BodyAnnounced(config, old(View()), bodySize)
    {
      if bodySize < TYPE_SIZE || bodySize > config.maxMessageSize + TYPE_SIZE + REQUEST_ID_SIZE {
        HandleError(MessageSize);
        return;
      }
      readBodySize := bodySize;
      readBody := [];
      readPhase := Body;
    }

    /** The end of a read iteration: the frame is done with, the next header is awaited. */
    method FrameHandled()
      requires readPhase == Idle
      modifies `readPhase, `readHeader, `handled
      ensures View() == PeerModel.FrameHandled(old(View()))
    {
      handled := |consumed|;
      ReadHeader();
    }

    method BodyRead(error: Option<ErrorCode>)
      requires readPhase == Body && TYPE_SIZE <= readBodySize
      modifies this
      ensures View() == PeerModel.BodyRead(config, old(View()), error)
    {
      hide PeerModel.DispatchBody;
      readPhase := Idle;
      if error.Some? {
        HandleError(error.value);
        return;
      }
      if |readBody| != readBodySize {
        HandleError(MessageSize);
        return;
      }
      DispatchBody();
    }

    method ReadCompletes(error: Option<ErrorCode>)
      requires Valid() && PeerModel.Enabled(View(), PeerModel.ReadCompletes(error))
      modifies this
      ensures View() == PeerModel.Step(config, old(View()), PeerModel.ReadCompletes(error))
      ensures Valid()
    {
      hide PeerProofs.PeerInvariant, PeerModel.HeaderRead, PeerModel.BodyRead;
      PeerProofs.StepKeepsPeerInvariant(config, View(), PeerModel.ReadCompletes(error));
      if readPhase == Header {
        HeaderRead(error);
      } else {
        BodyRead(error);
      }
    }

    method DispatchBody()
      requires readPhase == Idle && TYPE_SIZE <= |readBody|
      modifies this
      ensures View() == PeerModel.DispatchBody(config, old(View()), old(readBody))
    {
      hide PeerModel.ValidOutgoingFrame, PeerModel.IdentifiedMessage, PeerModel.PushFrame;
      match TypeOf(readBody[0]) {
        case Some(Heartbeat) =>
          FrameHandled();
        case Some(UserData) =>
          EnsureReady();
          if |readBody| > config.maxMessageSize + TYPE_SIZE {
            HandleError(MessageSize);
            return;
          }
          signals := signals + [PeerModel.Handed(PeerModel.UserMessage(readBody[TYPE_SIZE..]))];
          FrameHandled();
        case Some(Request) | Some(Response) =>
          EnsureReady();
          if |readBody| < TYPE_SIZE + REQUEST_ID_SIZE
             || |readBody| > config.maxMessageSize + TYPE_SIZE + REQUEST_ID_SIZE
          {
            HandleError(MessageSize);
            return;
          }
          var message := PeerModel.IdentifiedMessage(TypeOf(readBody[0]).value, readBody);
          signals := signals + [PeerModel.Handed(message)];
          FrameHandled();
        case Some(HealthCheck) =>
          if ready {
            HandleError(OperationNotSupported);
          } else {
            closeAfterWrite := true;
            var frame := MakeFrame(HealthCheckResponse, []);
            Push(frame);
          }
        case Some(HealthCheckResponse) =>
          signals := signals + [PeerModel.HealthCheckAnswered];
          FrameHandled();
        case None =>
          HandleError(InvalidArgument);
      }
    }

    method Write()
      modifies `writing
      ensures View() == old(View()).(writer := PeerModel.Write(old(Life()), old(Writer())))
    {
      if !socketIsOpen || writeQueue == [] {
        return;
      }
      writing := Some(0);
    }

    method Push(frame: Bytes)
      modifies `socketIsOpen, `closedOnExecutor, `signals, `writeQueue, `accepted, `writing
      ensures View() == PeerModel.PushFrame(config, old(View()), frame)
    {
      hide PeerModel.ValidOutgoingFrame;
      if !socketIsOpen {
        return;
      }
      if !PeerModel.ValidOutgoingFrame(config, frame) || |writeQueue| >= config.maxSendQueueSize {
        HandleError(NoBufferSpace);
        return;
      }
      var wasEmpty := writeQueue == [];
      writeQueue := writeQueue + [frame];
      accepted := accepted + [frame];
      if wasEmpty {
        Write();
      }
    }

    method PushFrame(frame: Bytes)
      requires Valid()
      modifies this
      ensures View() == PeerModel.Step(config, old(View()), PeerModel.Push(frame))
      ensures Valid()
    {
      hide PeerProofs.PeerInvariant, PeerModel.PushFrame;
      PeerProofs.StepKeepsPeerInvariant(config, View(), PeerModel.Push(frame));
      Push(frame);
    }

    method BytesLeave(count: nat)
      requires Valid() && PeerModel.Enabled(View(), PeerModel.BytesLeave(count))
      modifies this
      ensures View() == PeerModel.Step(config, old(View()), PeerModel.BytesLeave(count))
      ensures Valid()
    {
      hide PeerProofs.PeerInvariant, PeerModel.PushFrame;
      PeerProofs.StepKeepsPeerInvariant(config, View(), PeerModel.BytesLeave(count));
      sent := sent + writeQueue[0][writing.value..writing.value + count];
      writing := Some(writing.value + count);
    }

    method FrameWritten(error: Option<ErrorCode>)
      requires writing.Some? && writeQueue != []
      modifies this
      ensures View() == PeerModel.FrameWritten(old(View()), error)
    {
      writing := None;
      if error.Some? {
        HandleError(error.value);
        return;
      }
      writeQueue := writeQueue[1..];
      popped := popped + 1;
      if writeQueue == [] && closeAfterWrite {
        Close();
        return;
      }
      Write();
    }

    method WriteCompletes(error: Option<ErrorCode>)
      requires Valid() && PeerModel.Enabled(View(), PeerModel.WriteCompletes(error))
      modifies this
      ensures View() == PeerModel.Step(config, old(View()), PeerModel.WriteCompletes(error))
      ensures Valid()
    {
      hide PeerProofs.PeerInvariant, PeerModel.FrameWritten;
      PeerProofs.StepKeepsPeerInvariant(config, View(), PeerModel.WriteCompletes(error));
      FrameWritten(error);
    }
  }
}
