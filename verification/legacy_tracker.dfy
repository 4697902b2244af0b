/** The older plugin `ActionTracker`: one dedup set without a capacity, no context
    ledger, no pre-dispatch observer and no exclusion of the tracker's own actions. */
module LegacyTracker {
  import opened Optional
  import opened Strings
  import opened Events
  import opened LegacyActions
  import Actions

  datatype TrackerState = TrackerState(
    inputEvents: set<Option<InputEvent>>,
    records: seq<ActionRecord>,
    startTime: int)

  function NewTracker(startTime: int): (t: TrackerState)
    ensures t.inputEvents == {} && t.records == [] && t.startTime == startTime
  {
    TrackerState({}, [], startTime)
  }

  /** The label chain without the local shortcut text: non-blank presentation text,
      else the action id, else the class-name table, else the class name. */
  function ActionLabel(a: AnAction, presentationText: Option<string>): (text: string)
    ensures Nullize(presentationText).Some? ==> text == presentationText.value
    ensures Nullize(presentationText).None? && a.id.Some? ==> text == a.id.value
    ensures Nullize(presentationText).None? && a.id.None? ==>
      text == (if a.className == CancelActionClass then "Cancel" else a.className)
  {
    Nullize(presentationText).OrElse(a.id).OrElse(ClassTableText(a.className)).GetOr(a.className)
  }

  function SourceOf(input: Option<InputEvent>): (r: Option<ActionData>)
    ensures r.Some? <==> input.Some? && (input.value.kind.IsMouse() || input.value.kind.IsKey())
    ensures r.Some? && input.value.kind.IsMouse() ==> r.value == MouseClicked(input.value.dialogTitle)
    ensures r.Some? && input.value.kind.IsKey() ==> r.value == KeyStrokePressed(input.value.keystrokeText)
  {
    if input.None? then None
    else if input.value.kind.IsMouse() then Some(MouseClicked(input.value.dialogTitle))
    else if input.value.kind.IsKey() then Some(KeyStrokePressed(input.value.keystrokeText))
    else None
  }

  function AddRecord(st: TrackerState, data: ActionData, now: int): (r: TrackerState)
    ensures r.records == st.records + [ActionRecord(now, data)]
    ensures r.inputEvents == st.inputEvents && r.startTime == st.startTime
  {
    st.(records := st.records + [ActionRecord(now, data)])
  }

  /** `beforeActionPerformed`: the input event joins the dedup set, which never
      evicts, and every action, the tracker's own included, is logged once. */
  function BeforeActionPerformed(st: TrackerState, a: AnAction, presentationText: Option<string>,
                                 input: Option<InputEvent>, now: int): (r: TrackerState)
    ensures input in r.inputEvents && st.inputEvents <= r.inputEvents
    ensures r.inputEvents - st.inputEvents <= {input}
    ensures input !in st.inputEvents ==> |r.inputEvents| == |st.inputEvents| + 1
    ensures r.records == st.records + [ActionRecord(now, ActionInvoked(ActionLabel(a, presentationText), SourceOf(input)))]
    ensures r.startTime == st.startTime
  {
    var st1 := st.(inputEvents := st.inputEvents + {input});
    AddRecord(st1, ActionInvoked(ActionLabel(a, presentationText), SourceOf(input)), now)
  }

  /** `processMouseClickedEvent`: drop a click an action already logged, log any other. */
  function ProcessMouseClicked(st: TrackerState, e: InputEvent, now: int): (r: TrackerState)
    ensures r.inputEvents == st.inputEvents - {Some(e)}
    ensures Some(e) in st.inputEvents ==> r.records == st.records
    ensures Some(e) !in st.inputEvents ==> r.records == st.records + [ActionRecord(now, MouseClicked(e.dialogTitle))]
    ensures r.startTime == st.startTime
  {
    if Some(e) in st.inputEvents then st.(inputEvents := st.inputEvents - {Some(e)})
    else AddRecord(st, MouseClicked(e.dialogTitle), now)
  }

  /** `processKeyPressedEvent`: drop a key an action already logged; classify any other. */
  function ProcessKeyPressed(st: TrackerState, e: InputEvent, dispatcherReady: bool, now: int): (r: TrackerState)
    ensures r.inputEvents == st.inputEvents - {Some(e)}
    ensures Some(e) in st.inputEvents || ClassifyKey(e, dispatcherReady).Skipped? ==> r.records == st.records
    ensures Some(e) !in st.inputEvents && ClassifyKey(e, dispatcherReady).Typed? ==>
      r.records == st.records + [ActionRecord(now, CharTyped(e.keyChar))]
    ensures Some(e) !in st.inputEvents && ClassifyKey(e, dispatcherReady).Stroke? ==>
      r.records == st.records + [ActionRecord(now, KeyStrokePressed(e.keystrokeText))]
    ensures r.startTime == st.startTime
  {
    if Some(e) in st.inputEvents then st.(inputEvents := st.inputEvents - {Some(e)})
    else
      match ClassifyKey(e, dispatcherReady)
      case Skipped => st
      case Typed(c) => AddRecord(st, CharTyped(c), now)
      case Stroke(text) => AddRecord(st, KeyStrokePressed(text), now)
  }

  /** The post-dispatch observer: only mouse clicks and key presses are processed. */
  function PostDispatch(st: TrackerState, e: InputEvent, dispatcherReady: bool, now: int): (r: TrackerState)
    ensures e.kind != MouseClick && e.kind != KeyPress ==> r == st
    ensures e.kind == MouseClick ==> r == ProcessMouseClicked(st, e, now)
    ensures e.kind == KeyPress ==> r == ProcessKeyPressed(st, e, dispatcherReady, now)
  {
    if e.kind == MouseClick then ProcessMouseClicked(st, e, now)
    else if e.kind == KeyPress then ProcessKeyPressed(st, e, dispatcherReady, now)
    else st
  }

  function RecordLine(rec: ActionRecord, fmt: Formats): string
  {
    fmt.timeText(rec.timestamp) + ": " + Render(rec.action)
  }

  function ExportLines(st: TrackerState, fmt: Formats): (lines: seq<string>)
    ensures |lines| == |st.records| + 1
    ensures lines[0] == "Tracking started: " + fmt.startText(st.startTime) + "."
    ensures forall i :: 0 <= i < |st.records| ==> lines[i + 1] == RecordLine(st.records[i], fmt)
  {
    ["Tracking started: " + fmt.startText(st.startTime) + "."]
      + seq(|st.records|, i requires 0 <= i < |st.records| => RecordLine(st.records[i], fmt))
  }

  /** `exportRecords`. */
  function ExportRecords(st: TrackerState, fmt: Formats): (r: string)
    ensures "Tracking started: " + fmt.startText(st.startTime) + "." <= r
    ensures |st.records| == 0 <==> r == "Tracking started: " + fmt.startText(st.startTime) + "."
  {
    Join(ExportLines(st, fmt), '\n')
  }

  /** Read back line by line, the transcript is the start header followed by one
      line per record, in append order. */
  lemma ExportReadsBackAsLines(st: TrackerState, fmt: Formats)
    requires '\n' !in fmt.startText(st.startTime)
    requires forall i :: 0 <= i < |st.records| ==>
      '\n' !in fmt.timeText(st.records[i].timestamp) && Actions.SingleLine(ToCurrent(st.records[i].action))
    ensures var lines := Split(ExportRecords(st, fmt), '\n');
      && |lines| == |st.records| + 1
      && lines[0] == "Tracking started: " + fmt.startText(st.startTime) + "."
      && forall i :: 0 <= i < |st.records| ==> lines[i + 1] == RecordLine(st.records[i], fmt)
  {
    var lines := ExportLines(st, fmt);
    assert lines[0] == "Tracking started: " + fmt.startText(st.startTime) + ".";
    forall i | 0 < i < |lines|
      ensures lines[i] == RecordLine(st.records[i - 1], fmt) && '\n' !in lines[i]
    {
      var rec := st.records[i - 1];
      assert '\n' !in Render(rec.action) by {
        RenderAgreesWithCurrent(rec.action);
        Actions.RenderIsOneLine(ToCurrent(rec.action));
      }
    }
    SplitJoin(lines, '\n');
    assert Split(ExportRecords(st, fmt), '\n') == lines;
  }

  // ---------------------------------------------------------------------------
  // Runs

  datatype Observation =
    | Command(action: AnAction, presentationText: Option<string>, input: Option<InputEvent>)
    | Post(e: InputEvent, dispatcherReady: bool)

  datatype TimedObservation = At(time: int, observation: Observation)

  function Step(st: TrackerState, o: TimedObservation): TrackerState
  {
    match o.observation
    case Command(a, text, input) => BeforeActionPerformed(st, a, text, input, o.time)
    case Post(e, ready) => PostDispatch(st, e, ready, o.time)
  }

  function Run(st: TrackerState, trace: seq<TimedObservation>): TrackerState
    decreases |trace|
  {
    if |trace| == 0 then st else Run(Step(st, trace[0]), trace[1..])
  }

  /** A record of the kinds the plugin ever logs: never a navigation wrapper and never
      a task marker. */
  predicate Unwrapped(a: ActionData)
  {
    a.CharTyped? || a.KeyStrokePressed? || a.MouseClicked? || a.ActionInvoked?
  }

  /** One observation appends at most one record, of an unwrapped kind. */
  lemma StepAppendsUnwrapped(st: TrackerState, o: TimedObservation)
    ensures var r := Step(st, o);
      && st.records <= r.records && |r.records| <= |st.records| + 1
      && forall i :: |st.records| <= i < |r.records| ==> Unwrapped(r.records[i].action)
  {
  }

  /** Every record a run appends is a character, keystroke, click or action. */
  lemma {:induction false} RunNeverWraps(st: TrackerState, trace: seq<TimedObservation>)
    requires forall i :: 0 <= i < |st.records| ==> Unwrapped(st.records[i].action)
    ensures var r := Run(st, trace);
      && st.records <= r.records
      && forall i :: 0 <= i < |r.records| ==> Unwrapped(r.records[i].action)
    decreases |trace|
  {
    if |trace| > 0 {
      var s1 := Step(st, trace[0]);
      StepAppendsUnwrapped(st, trace[0]);
      assert forall i :: 0 <= i < |st.records| ==> s1.records[i] == st.records[i];
      RunNeverWraps(s1, trace[1..]);
    }
  }

  /** The dedup set only shrinks by post-dispatch matches: whatever leaves it during
      a run was the event of some post-dispatch observation of the run. */
  lemma {:induction false} DedupLeavesOnlyByMatch(st: TrackerState, trace: seq<TimedObservation>, x: Option<InputEvent>)
    requires x in st.inputEvents
    requires forall i :: 0 <= i < |trace| ==> !(trace[i].observation.Post? && Some(trace[i].observation.e) == x)
    ensures x in Run(st, trace).inputEvents
    decreases |trace|
  {
    if |trace| > 0 {
      DedupLeavesOnlyByMatch(Step(st, trace[0]), trace[1..], x);
    }
  }

  /** An action gesture logs exactly one record, and the post-dispatch pass removes
      the event from the dedup set again. */
  lemma CommandGestureLogsOnce(st: TrackerState, e: InputEvent, a: AnAction, presentationText: Option<string>,
                               dispatcherReady: bool, commandTime: int, postTime: int)
    requires e.kind == MouseClick || e.kind == KeyPress
    ensures
      var s2 := BeforeActionPerformed(st, a, presentationText, Some(e), commandTime);
      var s3 := PostDispatch(s2, e, dispatcherReady, postTime);
      && s3.inputEvents == st.inputEvents - {Some(e)}
      && s3.records == st.records + [ActionRecord(commandTime, ActionInvoked(ActionLabel(a, presentationText), SourceOf(Some(e))))]
  {
  }

  // ---------------------------------------------------------------------------
  // Service

  datatype ServiceState = ServiceState(activeTracker: Option<TrackerState>)

  /** `startTracking`: a fresh tracker becomes the active one. */
  function StartTracking(svc: ServiceState, now: int): (r: ServiceState)
    ensures r.activeTracker.Some?
    ensures var t := r.activeTracker.value; t.records == [] && t.inputEvents == {} && t.startTime == now
  {
    ServiceState(Some(NewTracker(now)))
  }

  /** `stopTracking`: a no-op without an active tracker; otherwise the transcript to
      show and no active tracker. */
  function StopTracking(svc: ServiceState, fmt: Formats): (r: (ServiceState, Option<string>))
    ensures r.0.activeTracker.None?
    ensures svc.activeTracker.None? ==> r.0 == svc && r.1.None?
    ensures svc.activeTracker.Some? ==> r.1 == Some(ExportRecords(svc.activeTracker.value, fmt))
  {
    match svc.activeTracker
    case None => (svc, None)
    case Some(tracker) => (ServiceState(None), Some(ExportRecords(tracker, fmt)))
  }
}
