/** The server's session layer assumes little of its peers; every run of the peer
    model meets it. */
module PeerSignals {
  import opened Common
  import Peer = PeerModel
  import Proofs = PeerProofs
  import Server = ServerModel

  /** A peer's signal as the server's slots see it; nothing is connected to a health
      check's answer on an accepted peer. */
  function Announced(signal: Peer.Signal): Option<Server.Signal> {
    match signal
    case BecameReady => Some(Server.Ready)
    case Handed(UserMessage(data)) => Some(Server.Data(data))
    case Handed(RequestMessage(id, data)) => Some(Server.Request(id as nat, data))
    case Handed(ResponseMessage(id, data)) => Some(Server.Response(id as nat, data))
    case HealthCheckAnswered => None
    case ErrorOccurred(code) => Some(Server.Error(code))
    case Closed => Some(Server.Closing)
  }

  /** What the server's history of the peer records of these signals. */
  function Emitted(signals: seq<Peer.Signal>): seq<Server.Signal>
    decreases |signals|
  {
    if signals == [] then []
    else
      var last := Announced(signals[|signals| - 1]);
      Emitted(signals[..|signals| - 1]) + if last.Some? && !last.value.Response? then [last.value] else []
  }

  lemma {:induction false} EmittedMarks(signals: seq<Peer.Signal>)
    ensures Server.Ready in Emitted(signals) <==> Peer.BecameReady in signals
    ensures Server.Closing in Emitted(signals) <==> Peer.Closed in signals
    decreases |signals|
  {
    if signals != [] {
      EmittedMarks(signals[..|signals| - 1]);
      assert signals == signals[..|signals| - 1] + [signals[|signals| - 1]];
    }
  }

  lemma {:induction false} CountedOnce(signals: seq<Peer.Signal>, x: Peer.Signal, i: nat)
    requires i < |signals| && signals[i] == x && Proofs.Count(signals, x) <= 1
    ensures x !in signals[..i]
    decreases |signals|
  {
    var before := signals[..|signals| - 1];
    if i == |signals| - 1 {
      NotCounted(before, x);
    } else {
      assert before[..i] == signals[..i];
      CountedOnce(before, x, i);
    }
  }

  lemma {:induction false} NotCounted(signals: seq<Peer.Signal>, x: Peer.Signal)
    requires Proofs.Count(signals, x) == 0
    ensures x !in signals
    decreases |signals|
  {
    if signals != [] {
      NotCounted(signals[..|signals| - 1], x);
      assert signals == signals[..|signals| - 1] + [signals[|signals| - 1]];
    }
  }

  /** Whatever happens to a peer, each signal it enqueues is one the server's model lets
      it emit next: ready once, nothing handed over before it, and one close. */
  lemma PeersMayEmitWhatTheySignal(config: Peer.Config, events: seq<Peer.Event>, i: nat, token: nat)
    requires i < |Peer.Run(config, Peer.Fresh, events).life.signals|
    ensures var signals := Peer.Run(config, Peer.Fresh, events).life.signals;
            var next := Announced(signals[i]);
            var r := Server.PeerRecord(token, Emitted(signals[..i]), {}, [], None, false, false);
            if next == Some(Server.Closing) then r.Open() else next.Some? ==> Server.MayEmit(r, next.value)
  {
    hide Peer.Run, Proofs.WriteDiscipline, Proofs.ReaderAgrees;
    var life := Peer.Run(config, Peer.Fresh, events).life;
    Proofs.FreshPeerInvariant(config);
    Proofs.EveryRunKeepsPeerInvariant(config, Peer.Fresh, events);
    EmittedMarks(life.signals[..i]);
    if life.signals[i] == Peer.BecameReady || life.signals[i] == Peer.Closed {
      CountedOnce(life.signals, life.signals[i], i);
    }
  }

  /** A late ready is real: a peer closed before its ready deadline signals its end first. */
  lemma ReadyDeadlineAfterClose(config: Peer.Config)
    ensures Peer.Run(config, Peer.Fresh, [Peer.AsyncClose, Peer.ReadyDeadline]).life.signals
         == [Peer.Closed, Peer.BecameReady]
    ensures Emitted([Peer.Closed, Peer.BecameReady]) == [Server.Closing, Server.Ready]
  {
    var closed := Peer.Step(config, Peer.Fresh, Peer.AsyncClose);
    assert closed.life.signals == [Peer.Closed];
    assert [Peer.AsyncClose, Peer.ReadyDeadline][1..] == [Peer.ReadyDeadline] && [Peer.ReadyDeadline][1..] == [];
    assert Peer.Run(config, closed, [Peer.ReadyDeadline]) == Peer.Step(config, closed, Peer.ReadyDeadline);
    assert [Peer.Closed, Peer.BecameReady][..1] == [Peer.Closed] && [Peer.Closed][..0] == [];
    assert Emitted([Peer.Closed]) == [Server.Closing];
  }
}
