/** What the user of the server is told when a verified peer's signals are handled
    in order, and that no data handed over before the close is missing from it. */
module ServerNarrative {
  import opened Common
  import opened Queues
  import opened Requests
  import opened ServerModel

  datatype Exposure = Hidden | Shown | Gone

  /** Whether the user can see the peer once these signals have been handled. */
  function ExposureAfter(signals: seq<Signal>): Exposure
    decreases |signals|
  {
    if signals == [] then Hidden else NextExposure(ExposureAfter(signals[..|signals| - 1]), signals[|signals| - 1])
  }

  function NextExposure(before: Exposure, signal: Signal): Exposure {
    if signal.Ready? then Shown else if signal.Closing? && before.Shown? then Gone else before
  }

  function NotesFor(before: Exposure, p: PeerId, signal: Signal): seq<UserNote> {
    if signal.Ready? then [PeerConnected(p)]
    else if !before.Shown? then []
    else if signal.Closing? then [PeerClosed(p)]
    else [PeerSignalled(p, signal)]
  }

  /** What the user is told of a verified peer whose signals are handled in this order. */
  function Narrative(p: PeerId, signals: seq<Signal>): seq<UserNote>
    decreases |signals|
  {
    if signals == [] then []
    else
      var before := signals[..|signals| - 1];
      Narrative(p, before) + NotesFor(ExposureAfter(before), p, signals[|signals| - 1])
  }

  lemma NarrativeAppend(p: PeerId, signals: seq<Signal>, signal: Signal)
    ensures Narrative(p, signals + [signal]) == Narrative(p, signals) + NotesFor(ExposureAfter(signals), p, signal)
    ensures ExposureAfter(signals + [signal]) == NextExposure(ExposureAfter(signals), signal)
  {
    assert (signals + [signal])[..|signals|] == signals;
  }

  // -------------------------------------------------------------------- data

  predicate IsData(signal: Signal) {
    signal.Data? || signal.Request?
  }

  /** The user data and requests among the signals, in order. */
  function DataIn(signals: seq<Signal>): seq<Signal>
    decreases |signals|
  {
    if signals == [] then []
    else DataIn(signals[..|signals| - 1]) + if IsData(signals[|signals| - 1]) then [signals[|signals| - 1]] else []
  }

  /** The user data and requests the user was handed, in order. */
  function DataTold(notes: seq<UserNote>): seq<Signal>
    decreases |notes|
  {
    if notes == [] then []
    else
      var last := notes[|notes| - 1];
      DataTold(notes[..|notes| - 1]) + if last.PeerSignalled? && IsData(last.signal) then [last.signal] else []
  }

  /** What was signalled before the socket was closed. */
  function BeforeClosing(signals: seq<Signal>): seq<Signal> {
    Before(signals, Closing)
  }

  /** A peer signals ready at most once, hands nothing over before it, and closes once. */
  ghost predicate Disciplined(signals: seq<Signal>) {
    && (forall i :: 0 <= i < |signals| && IsData(signals[i]) ==> Ready in signals[..i])
    && (forall i :: 0 <= i < |signals| && signals[i].Ready? ==> Ready !in signals[..i])
    && (forall i :: 0 <= i < |signals| && signals[i].Closing? ==> Closing !in signals[..i])
  }

  lemma DisciplinedAppend(signals: seq<Signal>, signal: Signal)
    requires Disciplined(signals)
    requires IsData(signal) ==> Ready in signals
    requires signal.Ready? ==> Ready !in signals
    requires signal.Closing? ==> Closing !in signals
    ensures Disciplined(signals + [signal])
  {
    var t := signals + [signal];
    assert forall i :: 0 <= i <= |signals| ==> t[..i] == signals[..i];
  }

  lemma DisciplinedPrefix(signals: seq<Signal>, n: nat)
    requires Disciplined(signals) && n <= |signals|
    ensures Disciplined(signals[..n])
  {
    assert forall i :: 0 <= i <= n ==> signals[..n][..i] == signals[..i];
  }

  lemma DataToldAppend(notes: seq<UserNote>, note: UserNote)
    ensures DataTold(notes + [note])
         == DataTold(notes) + if note.PeerSignalled? && IsData(note.signal) then [note.signal] else []
  {
    assert (notes + [note])[..|notes|] == notes;
  }

  lemma ExposureStep(before: seq<Signal>, last: Signal)
    ensures ExposureAfter(before + [last]) == NextExposure(ExposureAfter(before), last)
    ensures ExposureAfter([]) == Hidden
  {
    assert (before + [last])[..|before|] == before;
  }

  /** With ready signalled before any close: shown from ready to close, gone after it. */
  lemma {:induction false} ExposureFollowsSignals(signals: seq<Signal>)
    requires Closing in signals ==> Ready in BeforeClosing(signals)
    requires Disciplined(signals)
    ensures ExposureAfter(signals)
         == if Closing in signals then Gone else if Ready in signals then Shown else Hidden
    decreases |signals|
  {
    hide ExposureAfter, BeforeClosing, Disciplined;
    ExposureStep([], Ready);
    if signals != [] {
      var before, last := signals[..|signals| - 1], signals[|signals| - 1];
      DisciplinedPrefix(signals, |signals| - 1);
      ReadyBeforeClosing(signals);
      ExposureFollowsSignals(before);
      ExposureStep(before, last);
      assert signals == before + [last];
    }
  }

  lemma {:induction false} BeforeClosingIsPrefix(signals: seq<Signal>)
    ensures BeforeClosing(signals) <= signals && Closing !in BeforeClosing(signals)
    decreases |signals|
  {
    if Closing in signals {
      BeforeClosingIsPrefix(signals[..|signals| - 1]);
    }
  }

  lemma ReadyBeforeClosing(signals: seq<Signal>)
    requires signals != [] && (Closing in signals ==> Ready in BeforeClosing(signals)) && Disciplined(signals)
    ensures var before, last := signals[..|signals| - 1], signals[|signals| - 1];
            && (Closing in before ==> Ready in BeforeClosing(before))
            && (last.Closing? ==> Ready in before)
            && (IsData(last) ==> Ready in before)
            && (last.Ready? ==> Ready !in before && Closing !in before)
  {
    BeforeClosingIsPrefix(signals[..|signals| - 1]);
  }

  lemma DataInAppend(signals: seq<Signal>, signal: Signal)
    ensures DataIn(signals + [signal]) == DataIn(signals) + if IsData(signal) then [signal] else []
  {
    assert (signals + [signal])[..|signals|] == signals;
  }

  lemma BeforeClosingAppend(signals: seq<Signal>, signal: Signal)
    ensures BeforeClosing(signals + [signal])
         == if Closing in signals then BeforeClosing(signals)
            else if signal.Closing? then signals
            else signals + [signal]
    ensures Closing !in signals ==> BeforeClosing(signals) == signals
  {
    BeforeAppend(signals, signal, Closing);
  }

  ghost predicate KeepsData(p: PeerId, signals: seq<Signal>) {
    var notes := Narrative(p, signals);
    && DataTold(notes) == DataIn(BeforeClosing(signals))
    && (Closing in signals ==> notes != [] && notes[|notes| - 1] == PeerClosed(p))
  }

  lemma NarrativeStep(p: PeerId, before: seq<Signal>, last: Signal)
    requires KeepsData(p, before)
    requires ExposureAfter(before) == if Closing in before then Gone else if Ready in before then Shown else Hidden
    requires last.Closing? || IsData(last) ==> Ready in before
    requires last.Ready? ==> Closing !in before
    ensures KeepsData(p, before + [last])
  {
    hide Narrative, DataTold, DataIn, BeforeClosing, ExposureAfter;
    NarrativeAppend(p, before, last);
    BeforeClosingAppend(before, last);
    DataInAppend(before, last);
    var told, notes := Narrative(p, before), NotesFor(ExposureAfter(before), p, last);
    if notes != [] {
      DataToldAppend(told, notes[0]);
      assert told + notes == told + [notes[0]];
    } else {
      assert told + notes == told;
    }
  }

  lemma NothingKept(p: PeerId)
    ensures KeepsData(p, [])
  {
  }

  /** The user is handed exactly the data signalled before the close, in order, and
      told of the close last. */
  lemma {:induction false} NarrativeKeepsData(p: PeerId, signals: seq<Signal>)
    requires Closing in signals ==> Ready in BeforeClosing(signals)
    requires Disciplined(signals)
    ensures KeepsData(p, signals)
    decreases |signals|
  {
    hide KeepsData, Disciplined, BeforeClosing, ExposureAfter;
    if signals == [] {
      NothingKept(p);
    } else {
      var before, last := signals[..|signals| - 1], signals[|signals| - 1];
      DisciplinedPrefix(signals, |signals| - 1);
      ReadyBeforeClosing(signals);
      NarrativeKeepsData(p, before);
      ExposureFollowsSignals(before);
      NarrativeStep(p, before, last);
      assert signals == before + [last];
    }
  }

  /** A prefix that reaches the close has everything before it. */
  lemma {:induction false} PrefixBeforeClosing(handled: seq<Signal>, emitted: seq<Signal>)
    requires handled <= emitted && Closing in handled
    ensures BeforeClosing(handled) == BeforeClosing(emitted)
    decreases |emitted|
  {
    if handled != emitted {
      var before := emitted[..|emitted| - 1];
      assert handled <= before;
      PrefixBeforeClosing(handled, before);
    }
  }

  lemma {:induction false} NoDataBeforeReady(signals: seq<Signal>)
    requires Disciplined(signals) && Ready !in signals
    ensures DataIn(signals) == []
    decreases |signals|
  {
    if signals != [] {
      DisciplinedPrefix(signals, |signals| - 1);
      NoDataBeforeReady(signals[..|signals| - 1]);
    }
  }

  /** A close is told only of a peer that was ready before it closed. */
  lemma {:induction false} ClosedWasReady(p: PeerId, signals: seq<Signal>)
    requires Disciplined(signals) && PeerClosed(p) in Narrative(p, signals)
    ensures Closing in signals && Ready in BeforeClosing(signals)
    decreases |signals|
  {
    var before, last := signals[..|signals| - 1], signals[|signals| - 1];
    assert signals == before + [last];
    BeforeClosingAppend(before, last);
    DisciplinedPrefix(signals, |signals| - 1);
    if PeerClosed(p) in Narrative(p, before) {
      ClosedWasReady(p, before);
    } else {
      ShownUnlessClosed(before);
    }
  }

  /** Some close comes after some ready. */
  ghost predicate ReadyThenClosed(signals: seq<Signal>) {
    exists i, j :: 0 <= i < j < |signals| && signals[i].Ready? && signals[j].Closing?
  }

  lemma ReadyThenClosedStep(before: seq<Signal>, last: Signal)
    ensures ReadyThenClosed(before + [last]) <==> ReadyThenClosed(before) || (last.Closing? && Ready in before)
  {
    var signals := before + [last];
    if ReadyThenClosed(signals) {
      var i, j :| 0 <= i < j < |signals| && signals[i].Ready? && signals[j].Closing?;
      assert signals[i] == before[i];
      assert j < |before| ==> signals[j] == before[j];
    }
    if ReadyThenClosed(before) {
      var i, j :| 0 <= i < j < |before| && before[i].Ready? && before[j].Closing?;
      assert signals[i].Ready? && signals[j].Closing?;
    }
    if last.Closing? && Ready in before {
      var i :| 0 <= i < |before| && before[i] == Ready;
      assert signals[i].Ready? && signals[|before|].Closing?;
    }
  }

  lemma {:induction false} ShownUnlessClosed(signals: seq<Signal>)
    ensures ExposureAfter(signals).Shown? ==> Ready in signals
    ensures Ready in signals && !ReadyThenClosed(signals) ==> ExposureAfter(signals).Shown?
    decreases |signals|
  {
    hide ReadyThenClosed;
    if signals != [] {
      var before, last := signals[..|signals| - 1], signals[|signals| - 1];
      assert signals == before + [last];
      ReadyThenClosedStep(before, last);
      ShownUnlessClosed(before);
    }
  }

  /** A close is told exactly when one was handled after a ready, whatever the signals. */
  lemma {:induction false} ClosedIsToldExactly(p: PeerId, signals: seq<Signal>)
    ensures PeerClosed(p) in Narrative(p, signals) <==> ReadyThenClosed(signals)
    decreases |signals|
  {
    hide ReadyThenClosed;
    if signals == [] {
      NothingClosed();
    } else {
      var before, last := signals[..|signals| - 1], signals[|signals| - 1];
      assert signals == before + [last];
      ReadyThenClosedStep(before, last);
      ShownUnlessClosed(before);
      ClosedIsToldExactly(p, before);
    }
  }

  lemma NothingClosed()
    ensures !ReadyThenClosed([])
  {
  }

  lemma {:induction false} ConnectedWasReady(p: PeerId, signals: seq<Signal>)
    requires PeerConnected(p) in Narrative(p, signals)
    ensures Ready in signals
    decreases |signals|
  {
    var before, last := signals[..|signals| - 1], signals[|signals| - 1];
    assert signals == before + [last];
    if !last.Ready? {
      ConnectedWasReady(p, before);
    }
  }
}
