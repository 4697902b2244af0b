/** The current `ActionTracker`: a dedup ledger of input events already logged by
    an action, a context ledger of selection snapshots, and the append-only record
    list, changed by three observers that the host calls in the order pre-dispatch,
    action listener, post-dispatch for one gesture. */
module Tracker {
  import opened Optional
  import opened Strings
  import opened Events
  import opened Actions

  /** A ledger is cleared when an insertion finds it holding more than this many entries. */
  const LedgerCapacity: nat := 100

  /** Ids of the tracker's own actions, which it never logs. */
  const OwnActionPrefix: string := "action.tracker."

  datatype TrackerState = TrackerState(
    inputEvents: set<Option<InputEvent>>,
    contexts: map<InputEvent, string>,
    records: seq<ActionRecord>,
    startTime: int)

  function NewTracker(startTime: int): (t: TrackerState)
    ensures t.inputEvents == {} && t.contexts == map[] && t.records == []
    ensures t.startTime == startTime
  {
    TrackerState({}, map[], [], startTime)
  }

  /** `getSelectedItem(e.component, project, textEditing)`: the selection the UI shows
      for the component of an event, if any. */
  type Resolver = (InputEvent, bool) -> Option<string>

  /** Both ledgers hold at most one entry more than the capacity. */
  predicate Bounded(st: TrackerState)
  {
    |st.inputEvents| <= LedgerCapacity + 1 && |st.contexts| <= LedgerCapacity + 1
  }

  /** Insertion into the dedup ledger: clear it when it holds more than the capacity, then add. */
  function InsertCapped<T(==)>(ledger: set<T>, x: T): (r: set<T>)
    ensures x in r
    ensures r <= ledger + {x}
    ensures |r| <= LedgerCapacity + 1
    ensures ledger <= r <==> |ledger| <= LedgerCapacity
    ensures |ledger| > LedgerCapacity ==> r == {x}
  {
    if |ledger| > LedgerCapacity then
      assert !(ledger <= {x}) by {
        if ledger <= {x} { AtMostOneInSingleton(ledger, x); }
      }
      {x}
    else
      ledger + {x}
  }

  lemma AtMostOneInSingleton<T>(s: set<T>, x: T)
    requires s <= {x}
    ensures |s| <= 1
  {
    if x in s { assert s == {x}; } else { assert s == {}; }
  }

  /** Insertion into the context ledger, with the same clearing rule. */
  function PutCapped<K(==), V>(m: map<K, V>, k: K, v: V): (r: map<K, V>)
    ensures k in r && r[k] == v
    ensures r.Keys <= m.Keys + {k}
    ensures forall j :: j in r && j != k ==> r[j] == m[j]
    ensures |r| <= LedgerCapacity + 1
    ensures m.Keys <= r.Keys <==> |m| <= LedgerCapacity
    ensures |m| > LedgerCapacity ==> r == map[k := v]
  {
    if |m| > LedgerCapacity then
      assert !(m.Keys <= {k}) by {
        if m.Keys <= {k} { AtMostOneInSingleton(m.Keys, k); }
      }
      map[k := v]
    else
      assert m.Keys + {k} == m[k := v].Keys;
      m[k := v]
  }

  /** The selection the pre-dispatch observer captures: for a mouse click, and for a
      KEY_PRESSED of a context-sensitive key, where Delete and Backspace ask for the
      edited text. */
  function Snapshot(e: InputEvent, resolve: Resolver): (r: Option<string>)
    ensures r.Some? ==> e.kind == MouseClick || (e.kind == KeyPress && e.keyCode in ContextSensitiveKeys)
    ensures e.kind == MouseClick ==> r == resolve(e, false)
    ensures e.kind == KeyPress && e.keyCode in ContextSensitiveKeys ==>
      r == resolve(e, e.keyCode == KeyDelete || e.keyCode == KeyBackSpace)
  {
    if e.kind == MouseClick then resolve(e, false)
    else if e.kind == KeyPress && e.keyCode in ContextSensitiveKeys then resolve(e, e.keyCode in TextEditingKeys)
    else None
  }

  /** The pre-dispatch observer: store the snapshot, if there is one, under the event. */
  function PreDispatch(st: TrackerState, e: InputEvent, resolve: Resolver): (r: TrackerState)
    ensures r.inputEvents == st.inputEvents && r.records == st.records && r.startTime == st.startTime
    ensures Snapshot(e, resolve).None? ==> r == st
    ensures Snapshot(e, resolve).Some? ==>
      && e in r.contexts && r.contexts[e] == Snapshot(e, resolve).value
      && r.contexts.Keys <= st.contexts.Keys + {e}
    ensures forall j :: j in r.contexts && j != e ==> j in st.contexts && r.contexts[j] == st.contexts[j]
    ensures |st.contexts| <= LedgerCapacity ==> st.contexts.Keys <= r.contexts.Keys
    ensures Snapshot(e, resolve).Some? ==>
      (st.contexts.Keys <= r.contexts.Keys <==> |st.contexts| <= LedgerCapacity)
    ensures Snapshot(e, resolve).Some? && |st.contexts| > LedgerCapacity ==>
      r.contexts == map[e := Snapshot(e, resolve).value]
    ensures |r.contexts| <= LedgerCapacity + 1 || r == st
  {
    var selection := Snapshot(e, resolve);
    if selection.Some? then st.(contexts := PutCapped(st.contexts, e, selection.value)) else st
  }

  /** The snapshot stored for an input event (`actionContexts[input]`; a null input has none). */
  function ContextOf(st: TrackerState, input: Option<InputEvent>): (r: Option<string>)
    ensures r.Some? <==> input.Some? && input.value in st.contexts
    ensures r.Some? ==> r.value == st.contexts[input.value]
  {
    if input.Some? && input.value in st.contexts then Some(st.contexts[input.value]) else None
  }

  /** A record wrapped with a snapshot when there is one. */
  function WithContext(selection: Option<string>, data: ActionData): (r: ActionData)
    ensures selection.None? ==> r == data
    ensures selection.Some? ==> r.ContextSensitiveActionInvoked? && r.selection == selection.value && r.inner == data
  {
    if selection.Some? then ContextSensitiveActionInvoked(selection.value, data) else data
  }

  /** `addRecord(actionData)`: append, never wrapped. */
  function AddRecord(st: TrackerState, data: ActionData, now: int): (r: TrackerState)
    ensures r.records == st.records + [ActionRecord(now, data)]
    ensures r.inputEvents == st.inputEvents && r.contexts == st.contexts && r.startTime == st.startTime
  {
    st.(records := st.records + [ActionRecord(now, data)])
  }

  /** `addRecord(actionData, input)`: append, wrapped with and consuming the event's
      snapshot when the context ledger has one; otherwise the ledger is untouched. */
  function AddRecordFor(st: TrackerState, data: ActionData, input: Option<InputEvent>, now: int): (r: TrackerState)
    ensures r.records == st.records + [ActionRecord(now, WithContext(ContextOf(st, input), data))]
    ensures ContextOf(st, input).Some? ==> r.contexts == st.contexts - {input.value}
    ensures ContextOf(st, input).None? ==> r.contexts == st.contexts
    ensures input.Some? ==> r.contexts == st.contexts - {input.value}
    ensures r.inputEvents == st.inputEvents && r.startTime == st.startTime
  {
    var selection := ContextOf(st, input);
    if selection.Some? then
      AddRecord(st.(contexts := st.contexts - {input.value}), ContextSensitiveActionInvoked(selection.value, data), now)
    else
      AddRecord(st, data, now)
  }

  predicate IsOwnAction(a: AnAction)
  {
    a.id.Some? && OwnActionPrefix <= a.id.value
  }

  /** The label of an invoked action: non-blank presentation text, else the action id,
      else the local shortcut text, else the class-name table, else the class name. */
  function ActionLabel(a: AnAction, presentationText: Option<string>): (text: string)
    ensures Nullize(presentationText).Some? ==> text == presentationText.value
    ensures Nullize(presentationText).None? && a.id.Some? ==> text == a.id.value
    ensures Nullize(presentationText).None? && a.id.None? && LocalActionText(a).Some? ==>
      text == a.shortcuts[0]
    ensures Nullize(presentationText).None? && a.id.None? && LocalActionText(a).None? ==>
      text == (if a.className == CancelActionClass then "Cancel" else a.className)
  {
    Nullize(presentationText).OrElse(a.id).OrElse(LocalActionText(a))
      .OrElse(ClassTableText(a.className)).GetOr(a.className)
  }

  /** The trigger recorded with an invoked action: any mouse event reads as a click,
      any key event as its keystroke, anything else (or no event) as nothing. */
  function SourceOf(input: Option<InputEvent>): (r: Option<ActionData>)
    ensures r.Some? <==> input.Some? && (input.value.kind.IsMouse() || input.value.kind.IsKey())
    ensures r.Some? && input.value.kind.IsMouse() ==> r.value == MouseClicked(input.value.dialogTitle)
    ensures r.Some? && input.value.kind.IsKey() ==> r.value == KeyStrokePressed(input.value.keystrokeText)
  {
    if input.None? then None
    else if input.value.kind.IsMouse() then Some(MouseClicked(input.value.dialogTitle))
    else if input.value.kind.IsKey() then Some(KeyStrokePressed(input.value.keystrokeText))
    else None
  }

  /** `beforeActionPerformed`: remember the input event in the dedup ledger, then log
      the action (wrapped with its snapshot) unless it is one of the tracker's own. */
  function BeforeActionPerformed(st: TrackerState, a: AnAction, presentationText: Option<string>,
                                 input: Option<InputEvent>, now: int): (r: TrackerState)
    ensures r.inputEvents == InsertCapped(st.inputEvents, input)
    ensures input in r.inputEvents && |r.inputEvents| <= LedgerCapacity + 1
    ensures IsOwnAction(a) ==> r.records == st.records && r.contexts == st.contexts
    ensures !IsOwnAction(a) ==>
      r.records == st.records + [ActionRecord(now, WithContext(ContextOf(st, input),
                                   ActionInvoked(ActionLabel(a, presentationText), SourceOf(input))))]
    ensures !IsOwnAction(a) && input.Some? ==> r.contexts == st.contexts - {input.value}
    ensures !IsOwnAction(a) && input.None? ==> r.contexts == st.contexts
    ensures !IsOwnAction(a) && input.Some? ==> input.value !in r.contexts
    ensures r.contexts.Keys <= st.contexts.Keys && r.startTime == st.startTime
  {
    var st1 := st.(inputEvents := InsertCapped(st.inputEvents, input));
    if IsOwnAction(a) then st1
    else AddRecordFor(st1, ActionInvoked(ActionLabel(a, presentationText), SourceOf(input)), input, now)
  }

  /** `processMouseClickedEvent`: a click the action listener already logged is
      dropped from the dedup ledger; any other click is logged with its snapshot. */
  function ProcessMouseClicked(st: TrackerState, e: InputEvent, now: int): (r: TrackerState)
    ensures r.inputEvents == st.inputEvents - {Some(e)}
    ensures Some(e) in st.inputEvents ==> r.records == st.records && r.contexts == st.contexts
    ensures Some(e) !in st.inputEvents ==>
      && r.records == st.records + [ActionRecord(now, WithContext(ContextOf(st, Some(e)), MouseClicked(e.dialogTitle)))]
      && r.contexts == st.contexts - {e}
    ensures r.contexts.Keys <= st.contexts.Keys && r.startTime == st.startTime
  {
    if Some(e) in st.inputEvents then st.(inputEvents := st.inputEvents - {Some(e)})
    else AddRecordFor(st, MouseClicked(e.dialogTitle), Some(e), now)
  }

  /** `processKeyPressedEvent`: a key the action listener already logged is dropped
      from the dedup ledger; otherwise it is classified, a character is logged bare
      and a keystroke with its snapshot. */
  function ProcessKeyPressed(st: TrackerState, e: InputEvent, dispatcherReady: bool, now: int): (r: TrackerState)
    ensures r.inputEvents == st.inputEvents - {Some(e)}
    ensures Some(e) in st.inputEvents || ClassifyKey(e, dispatcherReady).Skipped? ==>
      r.records == st.records && r.contexts == st.contexts
    ensures Some(e) !in st.inputEvents && ClassifyKey(e, dispatcherReady).Typed? ==>
      r.records == st.records + [ActionRecord(now, CharTyped(e.keyChar))] && r.contexts == st.contexts
    ensures Some(e) !in st.inputEvents && ClassifyKey(e, dispatcherReady).Stroke? ==>
      && r.records == st.records + [ActionRecord(now, WithContext(ContextOf(st, Some(e)), KeyStrokePressed(e.keystrokeText)))]
      && r.contexts == st.contexts - {e}
    ensures r.contexts.Keys <= st.contexts.Keys && r.startTime == st.startTime
  {
    if Some(e) in st.inputEvents then st.(inputEvents := st.inputEvents - {Some(e)})
    else
      match ClassifyKey(e, dispatcherReady)
      case Skipped => st
      case Typed(c) => AddRecord(st, CharTyped(c), now)
      case Stroke(text) => AddRecordFor(st, KeyStrokePressed(text), Some(e), now)
  }

  /** The post-dispatch observer: only mouse clicks and key presses are processed. */
  function PostDispatch(st: TrackerState, e: InputEvent, dispatcherReady: bool, now: int): (r: TrackerState)
    ensures e.kind != MouseClick && e.kind != KeyPress ==> r == st
    ensures e.kind == MouseClick ==> r == ProcessMouseClicked(st, e, now)
    ensures e.kind == KeyPress ==> r == ProcessKeyPressed(st, e, dispatcherReady, now)
  {
    if e.kind == MouseClick then ProcessMouseClicked(st, e, now)
    else if e.kind == KeyPress then ProcessKeyPressed(st, e, dispatcherReady, now)
    else st
  }

  /** `startNextTask`: append one marker and nothing else. */
  function StartNextTask(st: TrackerState, now: int): (r: TrackerState)
    ensures |r.records| == |st.records| + 1 && r.records[..|st.records|] == st.records
    ensures r.records[|st.records|] == ActionRecord(now, NextTask)
    ensures r.inputEvents == st.inputEvents && r.contexts == st.contexts && r.startTime == st.startTime
  {
    AddRecord(st, NextTask, now)
  }

  // ---------------------------------------------------------------------------
  // Export

  /** `getStartTrackingTime`. */
  function StartTrackingTime(st: TrackerState, fmt: Formats): (r: string)
    ensures r == fmt.startText(st.startTime)
  {
    fmt.startText(st.startTime)
  }

  function RecordLine(rec: ActionRecord, fmt: Formats): string
  {
    fmt.timeText(rec.timestamp) + ": " + Render(rec.action)
  }

  function ExportLines(st: TrackerState, fmt: Formats): (lines: seq<string>)
    ensures |lines| == |st.records| + 1
    ensures lines[0] == "Tracking started: " + StartTrackingTime(st, fmt) + "."
    ensures forall i :: 0 <= i < |st.records| ==> lines[i + 1] == RecordLine(st.records[i], fmt)
  {
    ["Tracking started: " + StartTrackingTime(st, fmt) + "."]
      + seq(|st.records|, i requires 0 <= i < |st.records| => RecordLine(st.records[i], fmt))
  }

  /** `exportRecords`: the lines joined by newlines. */
  function ExportRecords(st: TrackerState, fmt: Formats): (r: string)
    ensures "Tracking started: " + StartTrackingTime(st, fmt) + "." <= r
    ensures |st.records| == 0 <==> r == "Tracking started: " + StartTrackingTime(st, fmt) + "."
  {
    Join(ExportLines(st, fmt), '\n')
  }

  /** Read back line by line, the transcript is the start header followed by one
      `<time>: <text>` line per record, in append order. */
  lemma ExportReadsBackAsLines(st: TrackerState, fmt: Formats)
    requires '\n' !in fmt.startText(st.startTime)
    requires forall i :: 0 <= i < |st.records| ==>
      '\n' !in fmt.timeText(st.records[i].timestamp) && SingleLine(st.records[i].action)
    ensures var lines := Split(ExportRecords(st, fmt), '\n');
      && |lines| == |st.records| + 1
      && lines[0] == "Tracking started: " + fmt.startText(st.startTime) + "."
      && forall i :: 0 <= i < |st.records| ==>
           lines[i + 1] == fmt.timeText(st.records[i].timestamp) + ": " + Render(st.records[i].action)
  {
    var lines := ExportLines(st, fmt);
    assert lines[0] == "Tracking started: " + fmt.startText(st.startTime) + ".";
    forall i | 0 <= i < |lines|
      ensures '\n' !in lines[i]
    {
      if i > 0 {
        RenderIsOneLine(st.records[i - 1].action);
      }
    }
    SplitJoin(lines, '\n');
    assert Split(ExportRecords(st, fmt), '\n') == lines;
  }

  /** A transcript of one record is the header and that record's line. */
  lemma ExportOfOneRecord(st: TrackerState, fmt: Formats)
    requires |st.records| == 1
    ensures ExportRecords(st, fmt) ==
      "Tracking started: " + fmt.startText(st.startTime) + "." + ['\n'] + RecordLine(st.records[0], fmt)
  {
    var exported := ExportLines(st, fmt);
    assert exported == [exported[0], exported[1]];
  }

  /** The transcript of one wrapped record whose selection holds a newline. */
  lemma ExportOfSelectionRecord(st: TrackerState, fmt: Formats, t: int, x: string, y: string, inner: ActionData)
    requires st.records == [ActionRecord(t, ContextSensitiveActionInvoked(x + ['\n'] + y, inner))]
    ensures ExportRecords(st, fmt) ==
      ("Tracking started: " + fmt.startText(st.startTime) + ".") + ['\n']
        + ((fmt.timeText(t) + ": " + Render(inner) + " on '" + x) + ['\n'] + (y + "'"))
  {
    ExportOfOneRecord(st, fmt);
    var selection := x + ['\n'] + y;
    var p := fmt.timeText(t) + ": " + Render(inner);
    assert Render(st.records[0].action) == Render(inner) + OnSelection(selection);
    assert RecordLine(st.records[0], fmt) == p + OnSelection(selection);
    assert OnSelection(selection) == (" on '" + x) + ['\n'] + (y + "'");
    assert p + ((" on '" + x) + ['\n'] + (y + "'")) == (p + " on '" + x) + ['\n'] + (y + "'");
  }

  /** Without the newline hypothesis the line structure is lost: a selection that
      spans two lines splits its record over two transcript lines. */
  lemma MultiLineSelectionSpansLines(st: TrackerState, fmt: Formats, t: int, x: string, y: string, inner: ActionData)
    requires st.records == [ActionRecord(t, ContextSensitiveActionInvoked(x + ['\n'] + y, inner))]
    requires '\n' !in fmt.startText(st.startTime) && '\n' !in fmt.timeText(t)
    requires '\n' !in x && '\n' !in y && SingleLine(inner)
    ensures Split(ExportRecords(st, fmt), '\n') ==
      ["Tracking started: " + fmt.startText(st.startTime) + ".",
       fmt.timeText(t) + ": " + Render(inner) + " on '" + x,
       y + "'"]
  {
    var header := "Tracking started: " + fmt.startText(st.startTime) + ".";
    var first := fmt.timeText(t) + ": " + Render(inner) + " on '" + x;
    var rest := y + "'";
    ExportOfSelectionRecord(st, fmt, t, x, y, inner);
    assert '\n' !in header;
    assert '\n' !in first by {
      RenderIsOneLine(inner);
    }
    assert '\n' !in rest;
    SplitAtFirstSeparator(header, first + ['\n'] + rest, '\n');
    SplitAtFirstSeparator(first, rest, '\n');
    SplitOfSeparatorFree(rest, '\n');
  }

  // ---------------------------------------------------------------------------
  // Runs

  /** What the host delivers to the tracker, one callback at a time. */
  datatype Observation =
    | Pre(e: InputEvent)
    | Command(action: AnAction, presentationText: Option<string>, input: Option<InputEvent>)
    | Post(e: InputEvent, dispatcherReady: bool)
    | NextTaskRequest

  datatype TimedObservation = At(time: int, observation: Observation)

  function Step(st: TrackerState, o: TimedObservation, resolve: Resolver): (r: TrackerState)
  {
    match o.observation
    case Pre(e) => PreDispatch(st, e, resolve)
    case Command(a, text, input) => BeforeActionPerformed(st, a, text, input, o.time)
    case Post(e, ready) => PostDispatch(st, e, ready, o.time)
    case NextTaskRequest => StartNextTask(st, o.time)
  }

  function Run(st: TrackerState, trace: seq<TimedObservation>, resolve: Resolver): TrackerState
    decreases |trace|
  {
    if |trace| == 0 then st else Run(Step(st, trace[0], resolve), trace[1..], resolve)
  }

  /** Each callback appends at most one record, stamped with its own time, keeps the
      earlier records as they were, and keeps both ledgers within bounds. */
  lemma StepAppendsAtMostOne(st: TrackerState, o: TimedObservation, resolve: Resolver)
    ensures var r := Step(st, o, resolve);
      && |st.records| <= |r.records| <= |st.records| + 1
      && r.records[..|st.records|] == st.records
      && (forall i :: |st.records| <= i < |r.records| ==> r.records[i].timestamp == o.time)
      && (Bounded(st) ==> Bounded(r))
      && r.startTime == st.startTime
  {
  }

  /** Records are only ever appended, at most one per observation. */
  lemma {:induction false} RunOnlyAppends(st: TrackerState, trace: seq<TimedObservation>, resolve: Resolver)
    ensures var r := Run(st, trace, resolve);
      && st.records <= r.records
      && |r.records| <= |st.records| + |trace|
    decreases |trace|
  {
    if |trace| > 0 {
      StepAppendsAtMostOne(st, trace[0], resolve);
      RunOnlyAppends(Step(st, trace[0], resolve), trace[1..], resolve);
    }
  }

  /** The ledgers never outgrow their bound, whatever the host delivers. */
  lemma {:induction false} RunKeepsLedgersBounded(st: TrackerState, trace: seq<TimedObservation>, resolve: Resolver)
    requires Bounded(st)
    ensures Bounded(Run(st, trace, resolve))
    decreases |trace|
  {
    if |trace| > 0 {
      StepAppendsAtMostOne(st, trace[0], resolve);
      RunKeepsLedgersBounded(Step(st, trace[0], resolve), trace[1..], resolve);
    }
  }

  /** The start time is fixed when the tracker is created: no callback changes it, so
      the transcript header and the file name always show the time tracking started. */
  lemma {:induction false} RunKeepsStartText(st: TrackerState, trace: seq<TimedObservation>, resolve: Resolver, fmt: Formats)
    ensures Run(st, trace, resolve).startTime == st.startTime
    ensures StartTrackingTime(Run(st, trace, resolve), fmt) == StartTrackingTime(st, fmt)
    decreases |trace|
  {
    if |trace| > 0 {
      StepAppendsAtMostOne(st, trace[0], resolve);
      RunKeepsStartText(Step(st, trace[0], resolve), trace[1..], resolve, fmt);
    }
  }

  predicate TimeOrdered(records: seq<ActionRecord>)
  {
    forall i, j :: 0 <= i < j < |records| ==> records[i].timestamp <= records[j].timestamp
  }

  predicate NotAfter(records: seq<ActionRecord>, t: int)
  {
    forall i :: 0 <= i < |records| ==> records[i].timestamp <= t
  }

  predicate ClockMonotone(trace: seq<TimedObservation>)
  {
    forall i, j :: 0 <= i < j < |trace| ==> trace[i].time <= trace[j].time
  }

  /** With a clock that never runs backwards, the record list stays in time order
      (ties in arrival order). */
  lemma {:induction false} RunKeepsTimeOrder(st: TrackerState, trace: seq<TimedObservation>, resolve: Resolver)
    requires TimeOrdered(st.records)
    requires ClockMonotone(trace)
    requires |trace| > 0 ==> NotAfter(st.records, trace[0].time)
    ensures TimeOrdered(Run(st, trace, resolve).records)
    decreases |trace|
  {
    if |trace| > 0 {
      var s1 := Step(st, trace[0], resolve);
      StepAppendsAtMostOne(st, trace[0], resolve);
      assert forall i :: 0 <= i < |st.records| ==> s1.records[i] == st.records[i];
      assert TimeOrdered(s1.records);
      if |trace| > 1 {
        assert trace[0].time <= trace[1].time;
        assert NotAfter(s1.records, trace[1].time);
      }
      RunKeepsTimeOrder(s1, trace[1..], resolve);
    }
  }
}
