/** How the current tracker relates to the older plugin tracker: where neither a
    snapshot, the capacity rule, self-exclusion nor the local shortcut label comes
    into play, both log the same records and write the same transcript. */
module Versions {
  import opened Optional
  import opened Strings
  import opened Events
  import Actions
  import LegacyActions
  import Tracker
  import LegacyTracker

  /** The current label chain differs from the plugin's only by the local shortcut
      text, consulted after the id and before the class-name table. */
  lemma LabelsAgree(a: AnAction, presentationText: Option<string>)
    ensures Tracker.ActionLabel(a, presentationText) ==
      if Nullize(presentationText).None? && a.id.None? && LocalActionText(a).Some?
      then LocalActionText(a).value
      else LegacyTracker.ActionLabel(a, presentationText)
  {
  }

  function ToCurrentRecord(rec: LegacyActions.ActionRecord): Actions.ActionRecord
  {
    Actions.ActionRecord(rec.timestamp, LegacyActions.ToCurrent(rec.action))
  }

  /** The two trackers hold the same dedup entries and corresponding records. */
  predicate Corresponds(cur: Tracker.TrackerState, legacy: LegacyTracker.TrackerState)
  {
    && cur.inputEvents == legacy.inputEvents
    && cur.startTime == legacy.startTime
    && |cur.records| == |legacy.records|
    && forall i :: 0 <= i < |cur.records| ==> cur.records[i] == ToCurrentRecord(legacy.records[i])
  }

  lemma SourcesAgree(input: Option<InputEvent>)
    ensures Tracker.SourceOf(input) ==
      if LegacyTracker.SourceOf(input).Some? then Some(LegacyActions.ToCurrent(LegacyTracker.SourceOf(input).value)) else None
  {
  }

  /** A post-dispatch pass over an event without a snapshot keeps the trackers in step. */
  lemma PostDispatchAgrees(cur: Tracker.TrackerState, legacy: LegacyTracker.TrackerState,
                           e: InputEvent, dispatcherReady: bool, now: int)
    requires Corresponds(cur, legacy)
    requires e !in cur.contexts
    ensures Corresponds(Tracker.PostDispatch(cur, e, dispatcherReady, now),
                        LegacyTracker.PostDispatch(legacy, e, dispatcherReady, now))
  {
    var c := Tracker.PostDispatch(cur, e, dispatcherReady, now);
    var o := LegacyTracker.PostDispatch(legacy, e, dispatcherReady, now);
    assert Tracker.ContextOf(cur, Some(e)).None?;
    if |c.records| > |cur.records| {
      assert c.records[|cur.records|] == ToCurrentRecord(o.records[|legacy.records|]);
    }
  }

  /** An action invocation keeps the trackers in step when it is not one of the
      tracker's own, has no local shortcut label, its event has no snapshot, and the
      current dedup ledger is not over capacity. */
  lemma CommandAgrees(cur: Tracker.TrackerState, legacy: LegacyTracker.TrackerState, a: AnAction,
                      presentationText: Option<string>, input: Option<InputEvent>, now: int)
    requires Corresponds(cur, legacy)
    requires |cur.inputEvents| <= Tracker.LedgerCapacity
    requires !Tracker.IsOwnAction(a) && LocalActionText(a).None?
    requires input.None? || input.value !in cur.contexts
    ensures Corresponds(Tracker.BeforeActionPerformed(cur, a, presentationText, input, now),
                        LegacyTracker.BeforeActionPerformed(legacy, a, presentationText, input, now))
  {
    var c := Tracker.BeforeActionPerformed(cur, a, presentationText, input, now);
    var o := LegacyTracker.BeforeActionPerformed(legacy, a, presentationText, input, now);
    LabelsAgree(a, presentationText);
    SourcesAgree(input);
    assert Tracker.ContextOf(cur.(inputEvents := c.inputEvents), input).None?;
    assert c.records[|cur.records|] == ToCurrentRecord(o.records[|legacy.records|]);
  }

  /** Corresponding trackers export the same transcript. */
  lemma ExportsAgree(cur: Tracker.TrackerState, legacy: LegacyTracker.TrackerState, fmt: Formats)
    requires Corresponds(cur, legacy)
    ensures Tracker.ExportRecords(cur, fmt) == LegacyTracker.ExportRecords(legacy, fmt)
  {
    var cl := Tracker.ExportLines(cur, fmt);
    var ol := LegacyTracker.ExportLines(legacy, fmt);
    forall i | 0 <= i < |cl|
      ensures cl[i] == ol[i]
    {
      if i > 0 {
        LegacyActions.RenderAgreesWithCurrent(legacy.records[i - 1].action);
      }
    }
    assert cl == ol;
  }

  /** The current tracker's observation for a plugin observation. */
  function Lift(o: LegacyTracker.TimedObservation): (r: Tracker.TimedObservation)
    ensures r.time == o.time
    ensures o.observation.Command? <==> r.observation.Command?
    ensures o.observation.Post? <==> r.observation.Post?
  {
    match o.observation
    case Command(a, text, input) => Tracker.At(o.time, Tracker.Command(a, text, input))
    case Post(e, ready) => Tracker.At(o.time, Tracker.Post(e, ready))
  }

  function LiftTrace(trace: seq<LegacyTracker.TimedObservation>): (r: seq<Tracker.TimedObservation>)
    ensures |r| == |trace| && forall i :: 0 <= i < |trace| ==> r[i] == Lift(trace[i])
  {
    seq(|trace|, i requires 0 <= i < |trace| => Lift(trace[i]))
  }

  /** Every action in the trace is foreign to the tracker and has no local shortcut label. */
  predicate ForeignCommands(trace: seq<LegacyTracker.TimedObservation>)
  {
    forall i :: 0 <= i < |trace| && trace[i].observation.Command? ==>
      !Tracker.IsOwnAction(trace[i].observation.action) && LocalActionText(trace[i].observation.action).None?
  }

  /** Whole runs: fed the same observations with no selection snapshot taken, no own
      or locally-labelled action, and too few gestures to reach the dedup capacity,
      the two trackers keep the same ledger and corresponding records throughout. */
  lemma {:induction false} RunsAgree(cur: Tracker.TrackerState, legacy: LegacyTracker.TrackerState,
                                     trace: seq<LegacyTracker.TimedObservation>, resolve: Tracker.Resolver)
    requires Corresponds(cur, legacy)
    requires cur.contexts == map[]
    requires |cur.inputEvents| + |trace| <= Tracker.LedgerCapacity
    requires ForeignCommands(trace)
    ensures Corresponds(Tracker.Run(cur, LiftTrace(trace), resolve), LegacyTracker.Run(legacy, trace))
    decreases |trace|
  {
    if |trace| > 0 {
      var lifted := LiftTrace(trace);
      var c1 := Tracker.Step(cur, lifted[0], resolve);
      var l1 := LegacyTracker.Step(legacy, trace[0]);
      match trace[0].observation {
        case Command(a, text, input) =>
          assert c1 == Tracker.BeforeActionPerformed(cur, a, text, input, trace[0].time);
          CommandAgrees(cur, legacy, a, text, input, trace[0].time);
          assert c1.inputEvents == cur.inputEvents + {input};
        case Post(e, ready) =>
          assert c1 == Tracker.PostDispatch(cur, e, ready, trace[0].time);
          PostDispatchAgrees(cur, legacy, e, ready, trace[0].time);
          assert c1.inputEvents <= cur.inputEvents;
      }
      assert c1.contexts == map[];
      assert lifted[1..] == LiftTrace(trace[1..]);
      RunsAgree(c1, l1, trace[1..], resolve);
    }
  }
}
