# Action tracker: correlation and deduplication engine

This project models the core of the IntelliJ action tracker plugin in Dafny. The plugin watches a user in the IDE and writes a transcript of what they did: typed characters, pressed keystrokes, mouse clicks, invoked actions and task markers. Actions that depend on a selection are tagged with the selected item.

Two versions are modelled, each as a functional state machine.

- The current version (`src/main/kotlin`) has three observers. The pre-dispatch observer (`Tracker.PreDispatch`) stores a selection snapshot for mouse clicks and context-sensitive key presses in a context ledger. The action listener (`Tracker.BeforeActionPerformed`) records the triggering input event in a dedup ledger and logs the action, wrapped with its snapshot. The post-dispatch observer (`Tracker.PostDispatch`) looks only at mouse clicks and key presses. It skips those the action listener already logged. It logs the others as clicks, characters or keystrokes, except bare modifier keys and keys pressed while the key dispatcher is not ready. Both ledgers are cleared when an insertion finds them holding more than 100 entries. Actions whose id starts with `action.tracker.` are never logged.
- The older plugin version (`plugin/src`, module `LegacyTracker`) has no context ledger, no pre-dispatch observer and no self-exclusion. Its dedup set has no capacity.

Each observer is a pure function from tracker state to tracker state. `Tracker.Run` folds a trace of observations. `Actions.Render` and `LegacyActions.Render` are the renderers (`toPresentableText`). `Tracker.ExportRecords` and `LegacyTracker.ExportRecords` build the transcript. The module `Versions` proves that each action step and each post-dispatch step keeps the two versions in step whenever none of the current version's additions applies. It also proves this for whole runs (`Versions.RunsAgree`): the current tracker's pre-dispatch observer does not run, every action is foreign and has no shortcut label, and the run is too short to reach the dedup capacity. Corresponding trackers export the same transcript.

Host information is passed in as data:
- the selection lookup is a `Resolver` function parameter;
- each event carries its keystroke text, its "really typed" flag and the title of its dialog;
- readiness of the key dispatcher and the current time are parameters of the observers;
- the two date formats are the function fields of `Events.Formats`.

Details of the code's behaviour the model keeps:
- The ledger bound is 101. The capacity check (`size > 100`) runs before the insertion, so a ledger holding exactly 100 entries grows to 101 (`Gestures.LedgersReach101`).
- A typed character is never wrapped with a snapshot. It goes through the one-argument `addRecord`, so the event's snapshot stays in the context ledger.
- The NextTask marker carries no label.

## Model

| member | source | states |
|---|---|---|
| Events.ClassifyKey | src/main/kotlin/org/jetbrains/actionTracker/ActionTrackingService.kt:244-261 | Bare Ctrl/Alt/Meta/Shift or a dispatcher that is not ready is skipped. Otherwise the key is a typed character exactly when its char is defined, it is really typed, no alt/ctrl/meta is held and it is not Enter; every other key is a keystroke with its keystroke text |
| Events.ClassifyKeyExamples | src/main/kotlin/org/jetbrains/actionTracker/ActionTrackingService.kt:251-261 | A plain 'a' is typed 'a'; ctrl+'a' is a keystroke; Enter is a keystroke whatever char it carries; nothing is logged while the dispatcher is not ready |
| Events.ClassTableText | src/main/kotlin/org/jetbrains/actionTracker/ActionTrackingService.kt:74 | The class-name table maps exactly the dialog cancel action class to "Cancel" |
| Events.LocalActionText | src/main/kotlin/org/jetbrains/actionTracker/ActionTrackingService.kt:147-156 | A label from the shortcut exists exactly when the class name contains '$' and there is a first shortcut; it is that shortcut's text |
| Strings.Nullize | src/main/kotlin/org/jetbrains/actionTracker/ActionTrackingService.kt:192 | A null or blank presentation text (every char at most U+0020) counts as absent; any other text is kept as is |
| Strings.ReplaceChars | src/main/kotlin/org/jetbrains/actionTracker/ActionTrackingService.kt:60-61 | Each listed character becomes the replacement, every other character stays, and the length is unchanged; no listed character remains |
| Strings.Join | src/main/kotlin/org/jetbrains/actionTracker/ActionTrackingService.kt:271 | No lines join to the empty string and one line to itself. With several lines the first line comes first, followed by the separator |
| Strings.SplitJoin | src/main/kotlin/org/jetbrains/actionTracker/ActionTrackingService.kt:271 | Lines joined with newlines split back into the same lines when no line holds a newline |
| Strings.JoinSplit | src/main/kotlin/org/jetbrains/actionTracker/ActionTrackingService.kt:271 | Every string splits at its newlines into pieces that join back into it, so splitting inverts the transcript's joining |
| Actions.RenderPeelsContexts | src/main/kotlin/org/jetbrains/actionTracker/actions.kt:36-51 | Rendering is total and recurses only through the wrapped record and an action's source. Any record renders as its innermost record followed by one " on '<selection>'" per snapshot, innermost first |
| Actions.Render | src/main/kotlin/org/jetbrains/actionTracker/actions.kt:36-51 | A typed char renders as typed '<c>' and a keystroke as its text. A click starts with "mouse clicked" and is exactly that when there is no title. An action starts with action '<text>' and is exactly that without a source. A context wrapper renders its inner record, then " on '<selection>'". The marker renders as >>> Next Task <<< |
| Actions.RenderIsOneLine | src/main/kotlin/org/jetbrains/actionTracker/actions.kt:36-51 | A record whose strings hold no newline renders without a newline |
| Actions.RenderCharTyped | src/main/kotlin/org/jetbrains/actionTracker/actions.kt:37 | A typed character renders as typed '<c>' |
| Actions.RenderMouseClicked | src/main/kotlin/org/jetbrains/actionTracker/actions.kt:38 | A click renders as "mouse clicked", and gets " (in '<title>' dialog)" if and only if a dialog title is present |
| Actions.RenderKeyStrokePressed | src/main/kotlin/org/jetbrains/actionTracker/actions.kt:39 | A keystroke renders as its keystroke text and nothing else |
| Actions.RenderActionInvoked | src/main/kotlin/org/jetbrains/actionTracker/actions.kt:40-47 | An action renders as action '<text>', followed by " via mouse click" for a click source, by " via <keystroke text>" for a keystroke source, and by nothing otherwise |
| Actions.RenderContextSensitive | src/main/kotlin/org/jetbrains/actionTracker/actions.kt:48 | A snapshot wrapper renders as the inner text followed by " on '<selection>'"; Rename over Foo.bar gives action 'Rename' on 'Foo.bar' |
| Actions.RenderNextTask | src/main/kotlin/org/jetbrains/actionTracker/actions.kt:49 | The marker renders as >>> Next Task <<< |
| LegacyActions.RenderAgreesWithCurrent | plugin/src/org/jetbrains/actionTracker/actions.kt:37-52 | The plugin renderer gives every record the same text the current renderer gives its counterpart (NavigationActionInvoked read as the context wrapper). So the character, click, keystroke, via-suffix, wrapper and marker rules hold unchanged |
| LegacyActions.Render | plugin/src/org/jetbrains/actionTracker/actions.kt:37-52 | The plugin renderer follows the same per-case rules, with the navigation wrapper in place of the context wrapper |
| LegacyActions.RenderNavigation | plugin/src/org/jetbrains/actionTracker/actions.kt:49 | A navigation wrapper renders as the inner text followed by " on '<selection>'" |
| LegacyActions.RenderMouseClicked | plugin/src/org/jetbrains/actionTracker/actions.kt:39 | A click renders as "mouse clicked". It gets the dialog suffix if and only if a dialog title is present, and with a title it is exactly mouse clicked (in '<title>' dialog) |
| Tracker.NewTracker | src/main/kotlin/org/jetbrains/actionTracker/ActionTrackingService.kt:159-163 | A new tracker has empty ledgers, no records and its start time |
| Tracker.InsertCapped | src/main/kotlin/org/jetbrains/actionTracker/ActionTrackingService.kt:181-182 | After an insertion the entry is present, nothing new except it appears, and the ledger has at most 101 entries. Earlier entries survive if and only if the ledger held at most 100. Over capacity the ledger is cleared, so only the new entry remains |
| Tracker.PutCapped | src/main/kotlin/org/jetbrains/actionTracker/ActionTrackingService.kt:205-206 | The snapshot is stored under its event and the other entries keep their values. The map has at most 101 entries, and earlier entries survive if and only if it held at most 100. Over capacity the map is cleared, so only the new snapshot remains |
| Tracker.Snapshot | src/main/kotlin/org/jetbrains/actionTracker/ActionTrackingService.kt:198-202 | A selection is looked up only for a mouse click or a KEY_PRESSED of a context-sensitive key. Edited text is asked for exactly for Delete and Backspace, and never for a click |
| Tracker.PreDispatch | src/main/kotlin/org/jetbrains/actionTracker/ActionTrackingService.kt:197-209 | A found snapshot is stored under the event. Every other entry that is still there keeps its value, and all of them are still there exactly when the map held at most 100 entries. Over capacity only the new snapshot remains. The dedup ledger, the records and the start time are untouched. Without a snapshot the state is unchanged |
| Tracker.ContextOf | src/main/kotlin/org/jetbrains/actionTracker/ActionTrackingService.kt:222 | An event has a snapshot exactly when it is non-null and in the context ledger |
| Tracker.AddRecord | src/main/kotlin/org/jetbrains/actionTracker/ActionTrackingService.kt:172-175 | The one-argument overload appends the record unwrapped and leaves both ledgers untouched |
| Tracker.AddRecordFor | src/main/kotlin/org/jetbrains/actionTracker/ActionTrackingService.kt:221-229 | If the event has a snapshot, the record is wrapped with it and the entry is removed. Otherwise the record is appended bare and the context ledger is unchanged. The event never has a snapshot afterwards |
| Tracker.ActionLabel | src/main/kotlin/org/jetbrains/actionTracker/ActionTrackingService.kt:191-193 | The label is the non-blank presentation text, else the action id, else the shortcut text, else "Cancel" for the cancel class, else the class name |
| Tracker.SourceOf | src/main/kotlin/org/jetbrains/actionTracker/ActionTrackingService.kt:183-187 | Any mouse event becomes a click source with its dialog title, any key event a keystroke source; other or null inputs have no source |
| Tracker.BeforeActionPerformed | src/main/kotlin/org/jetbrains/actionTracker/ActionTrackingService.kt:178-195 | The input always enters the capped dedup ledger. The tracker's own actions append nothing and leave the context ledger alone. Any other action appends exactly one ActionInvoked, wrapped with the input's snapshot. Only the input's context entry is removed; every other snapshot stays |
| Tracker.ProcessMouseClicked | src/main/kotlin/org/jetbrains/actionTracker/ActionTrackingService.kt:231-237 | A click already logged by an action is removed from the dedup ledger, appends nothing and leaves the context ledger alone. Any other click appends one MouseClicked with its snapshot; only that click's context entry is removed |
| Tracker.ProcessKeyPressed | src/main/kotlin/org/jetbrains/actionTracker/ActionTrackingService.kt:239-262 | A key already logged is removed from the dedup ledger. A skipped key appends nothing. A typed char appends CharTyped and leaves the context ledger unchanged. A keystroke appends KeyStrokePressed with its snapshot; only that key's context entry is removed |
| Tracker.PostDispatch | src/main/kotlin/org/jetbrains/actionTracker/ActionTrackingService.kt:210-217 | Only mouse clicks and key presses are processed; any other event leaves the state unchanged |
| Tracker.StartNextTask | src/main/kotlin/org/jetbrains/actionTracker/ActionTrackingService.kt:168-170 | Exactly one NextTask record is appended after the unchanged earlier records; the ledgers and the start time stay as they were |
| Tracker.ExportLines | src/main/kotlin/org/jetbrains/actionTracker/ActionTrackingService.kt:264-272 | The list of lines built before joining has one entry more than there are records. The first is the "Tracking started: <start>." header, and entry i + 1 is "<time>: <text>" for record i |
| Tracker.RunKeepsStartText | src/main/kotlin/org/jetbrains/actionTracker/ActionTrackingService.kt:274-276 | Over any trace of callbacks, the start time and its rendering by the start-date format (`getStartTrackingTime`) stay what they were when tracking started. So the transcript header and the file name always show that time |
| Tracker.ExportRecords | src/main/kotlin/org/jetbrains/actionTracker/ActionTrackingService.kt:264-272 | The transcript starts with the "Tracking started: <start>." header, and it is exactly that header if and only if there are no records |
| Tracker.ExportReadsBackAsLines | src/main/kotlin/org/jetbrains/actionTracker/ActionTrackingService.kt:264-272 | When the start text, each time text and each record's strings hold no newline: split at newlines, the transcript is the "Tracking started: <start>." header followed by one "<time>: <text>" line per record, in append order |
| Tracker.MultiLineSelectionSpansLines | src/main/kotlin/org/jetbrains/actionTracker/ActionTrackingService.kt:264-272 | The newline condition is needed. A single record whose selection is x, a newline, then y splits into three pieces, not two: the header, the record's text up to x, and y followed by the closing quote. For example, a NextTask wrapped with selection "a\nb" gives three pieces |
| Tracker.StepAppendsAtMostOne | src/main/kotlin/org/jetbrains/actionTracker/ActionTrackingService.kt:177-229 | Each callback keeps the earlier records, appends at most one record stamped with its own time, and keeps both ledgers within 101 entries |
| Tracker.RunOnlyAppends | src/main/kotlin/org/jetbrains/actionTracker/ActionTrackingService.kt:159-162 | Over any trace, the earlier records stay a prefix and at most one record is appended per observation |
| Tracker.RunKeepsLedgersBounded | src/main/kotlin/org/jetbrains/actionTracker/ActionTrackingService.kt:181-206 | Over any trace, ledgers holding at most 101 entries keep holding at most 101 entries |
| Tracker.RunKeepsTimeOrder | src/main/kotlin/org/jetbrains/actionTracker/ActionTrackingService.kt:172-175 | With a clock that never runs backwards, the records stay ordered by timestamp |
| Gestures.CommandGestureLogsOnce | src/main/kotlin/org/jetbrains/actionTracker/ActionTrackingService.kt:178-243 | For a click or key press that triggers an action, pre-dispatch, then the action, then post-dispatch append exactly one record. It is the action wrapped with the snapshot taken just before. The post-dispatch match removes the event from the dedup ledger and no snapshot is left. The tracker's own actions append nothing |
| Gestures.FallbackGestureLogsOnce | src/main/kotlin/org/jetbrains/actionTracker/ActionTrackingService.kt:197-262 | A gesture no action claims is logged exactly once by post-dispatch. A click or keystroke carries its snapshot; a typed char is bare and its snapshot stays; a skipped key logs nothing; other events change nothing |
| Gestures.UnclaimedDedupEntryLingers | src/main/kotlin/org/jetbrains/actionTracker/ActionTrackingService.kt:180-217 | A null trigger, or a trigger that post-dispatch never processes, stays in the dedup ledger after post-dispatch |
| Gestures.LedgersReach101 | src/main/kotlin/org/jetbrains/actionTracker/ActionTrackingService.kt:181-182 | A ledger of exactly 100 entries grows to 101 on a new insertion, for the dedup ledger and for the context ledger (lines 205-206) |
| Service.StartTracking | src/main/kotlin/org/jetbrains/actionTracker/ActionTrackingService.kt:47-52 | Starting installs a fresh, empty tracker with the given start time |
| Service.LogFileName | src/main/kotlin/org/jetbrains/actionTracker/ActionTrackingService.kt:60-62 | Character by character, the file name is the product name with blanks as '_', then _action_tracker_, then the start text as `Service.FileStamp` turns it, then .txt. It holds no blank |
| Service.FileStamp | src/main/kotlin/org/jetbrains/actionTracker/ActionTrackingService.kt:61 | Character by character, the stamp is the start text with '.', ',', ':' and blanks made '_', and every other character kept; none of those four characters remains |
| Service.StopTracking | src/main/kotlin/org/jetbrains/actionTracker/ActionTrackingService.kt:54-71 | Stopping without an active tracker changes nothing and saves nothing. Otherwise it saves the exported transcript under the derived file name and leaves no active tracker |
| Service.StopIsOneShot | src/main/kotlin/org/jetbrains/actionTracker/ActionTrackingService.kt:54-71 | A second stop saves nothing; stopping a tracker that was just started saves only the header line |
| LegacyTracker.NewTracker | plugin/src/org/jetbrains/actionTracker/ActionTrackingService.kt:56-59 | A new tracker has an empty dedup set, no records and its start time |
| LegacyTracker.ActionLabel | plugin/src/org/jetbrains/actionTracker/ActionTrackingService.kt:80-82 | The label is the non-blank presentation text, else the action id, else "Cancel" for the cancel class, else the class name |
| LegacyTracker.SourceOf | plugin/src/org/jetbrains/actionTracker/ActionTrackingService.kt:74-78 | Any mouse event becomes a click source, any key event a keystroke source, anything else no source |
| LegacyTracker.AddRecord | plugin/src/org/jetbrains/actionTracker/ActionTrackingService.kt:64-67 | Appends exactly the given record, unwrapped |
| LegacyTracker.BeforeActionPerformed | plugin/src/org/jetbrains/actionTracker/ActionTrackingService.kt:71-84 | Every action, the tracker's own included, appends exactly one ActionInvoked. The dedup set only gains the input and never evicts; a fresh input grows it by exactly one |
| LegacyTracker.ProcessMouseClicked | plugin/src/org/jetbrains/actionTracker/ActionTrackingService.kt:100-106 | A click already logged leaves the dedup set and appends nothing; any other click appends one bare MouseClicked |
| LegacyTracker.ProcessKeyPressed | plugin/src/org/jetbrains/actionTracker/ActionTrackingService.kt:108-131 | A key already logged leaves the dedup set. Otherwise a skipped key appends nothing, a typed char appends CharTyped and a keystroke appends a bare KeyStrokePressed |
| LegacyTracker.PostDispatch | plugin/src/org/jetbrains/actionTracker/ActionTrackingService.kt:86-96 | Only mouse clicks and key presses are processed |
| LegacyTracker.ExportLines | plugin/src/org/jetbrains/actionTracker/ActionTrackingService.kt:133-141 | The list of lines built before joining has one entry more than there are records. The first is the "Tracking started: <start>." header, and entry i + 1 is "<time>: <text>" for record i |
| LegacyTracker.ExportRecords | plugin/src/org/jetbrains/actionTracker/ActionTrackingService.kt:133-141 | The transcript starts with the "Tracking started: <start>." header, and it is exactly that header if and only if there are no records |
| LegacyTracker.ExportReadsBackAsLines | plugin/src/org/jetbrains/actionTracker/ActionTrackingService.kt:133-141 | When the start text, each time text and each record's strings hold no newline: split at newlines, the transcript is the header followed by one line per record, in append order |
| LegacyTracker.StepAppendsUnwrapped | plugin/src/org/jetbrains/actionTracker/ActionTrackingService.kt:83-130 | Each observation appends at most one record: a character, keystroke, click or action |
| LegacyTracker.RunNeverWraps | plugin/src/org/jetbrains/actionTracker/ActionTrackingService.kt:64-131 | Over any trace, records are only appended and none is ever a navigation wrapper or a marker |
| LegacyTracker.DedupLeavesOnlyByMatch | plugin/src/org/jetbrains/actionTracker/ActionTrackingService.kt:100-111 | An entry stays in the dedup set through any trace that has no post-dispatch of that very event |
| LegacyTracker.CommandGestureLogsOnce | plugin/src/org/jetbrains/actionTracker/ActionTrackingService.kt:70-111 | For a click or key press that triggers an action, the action and then post-dispatch append exactly one ActionInvoked and leave the dedup set without the event |
| LegacyTracker.StartTracking | plugin/src/org/jetbrains/actionTracker/ActionTrackingService.kt:36-41 | Starting installs a fresh, empty tracker |
| LegacyTracker.StopTracking | plugin/src/org/jetbrains/actionTracker/ActionTrackingService.kt:43-51 | Without an active tracker nothing happens and nothing is shown. Otherwise the exported transcript is returned and no tracker stays active |
| Versions.LabelsAgree | src/main/kotlin/org/jetbrains/actionTracker/ActionTrackingService.kt:191-193 | The current label differs from the plugin label only when there is no presentation text and no id but a shortcut label, and then it is that shortcut label |
| Versions.SourcesAgree | src/main/kotlin/org/jetbrains/actionTracker/ActionTrackingService.kt:183-187 | Both versions derive the same action source from an input event |
| Versions.PostDispatchAgrees | plugin/src/org/jetbrains/actionTracker/ActionTrackingService.kt:86-131 | On an event without a snapshot, post-dispatch keeps the two versions' dedup sets equal and their records corresponding |
| Versions.CommandAgrees | plugin/src/org/jetbrains/actionTracker/ActionTrackingService.kt:71-84 | Both versions log the same action and keep equal dedup sets when four things hold: the action is foreign, it has no shortcut label, its input has no snapshot, and the ledger is within capacity |
| Versions.ExportsAgree | plugin/src/org/jetbrains/actionTracker/ActionTrackingService.kt:133-141 | Trackers with corresponding records export the same transcript |
| Versions.RunsAgree | plugin/src/org/jetbrains/actionTracker/ActionTrackingService.kt:64-131 | Fed the same trace, the two trackers keep equal dedup sets and corresponding records throughout the run. This holds when the current tracker's pre-dispatch observer does not run, so its context ledger stays empty. It also needs every action to be foreign with no shortcut label, and the starting dedup ledger plus the trace length to be at most 100 |

## Left out

- Selection lookup (`getSelectedItem`, `getFieldOfType`, src/main/kotlin/org/jetbrains/actionTracker/ActionTrackingService.kt:81-145): it uses the IDE data context, reflection and a Swing containment walk. It is the uninterpreted `Resolver` parameter `(event, textEditing) -> Option<string>`.
- Listener registration and disposal (`addAnActionListener`, `addDispatcher`, `addPostprocessor`, `Disposer`): these are host plumbing. The observers are explicit step functions. A stopped tracker is dropped, so later events reach nothing.
- Library results: `KeymapUtil.getKeystrokeText`, `KeyStroke.getKeyStrokeForEvent`, `UIUtil.isReallyTypedEvent` and the dialog-title lookup are fields of each event. The readiness of the key dispatcher is a parameter.
- Time: `System.currentTimeMillis` is a `now` parameter of each observer. Both `SimpleDateFormat` patterns are the abstract functions of `Formats`. Timestamps are unbounded integers, not 64-bit longs.
- Tracker.RunKeepsTimeOrder: assumes a clock that never runs backwards. The wall clock the source reads gives no such guarantee.
- I/O and UI: writing the file under the user's home directory, the notification with its link, and `Messages.showInfoMessage` are left out. The model returns the file name and the transcript text.
- `StartStopTrackingAction` and `NextTaskAction` (both versions): these are action update/perform glue. Their toggle rule is the service's start/stop. The plugin `NextTaskAction` calls `startNextTask`, which the plugin tracker does not define, so the legacy model has no marker step.
- AWT events that are not input events: they reach the dispatcher and the postprocessor but can never produce a snapshot or a record. The observers therefore take only input events.
- The `else -> "unknown"` branches of both renderers: they cannot be reached in the closed union.
- Characters: Kotlin's `Char` and `String` are UTF-16 code units, and Dafny's `char` is a Unicode scalar value. A lone surrogate in a key char (src/main/kotlin/org/jetbrains/actionTracker/ActionTrackingService.kt:257), a title or a keystroke text cannot be represented. `CHAR_UNDEFINED` (U+FFFF) can.
- Strings.Nullize: blankness is modelled as every character being at most U+0020. That is `String.trim` semantics; the `StringUtil` code itself is not part of this model.
