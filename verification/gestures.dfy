/** What the current tracker logs for one user gesture when the host calls its
    observers in the guaranteed order: pre-dispatch, then (if the gesture is an
    action) the action listener, then post-dispatch. */
module Gestures {
  import opened Optional
  import opened Events
  import opened Actions
  import opened Tracker

  /** An action gesture logs exactly one record, the action wrapped with the snapshot
      taken just before it, and the post-dispatch pass consumes the dedup entry.
      The tracker's own actions log nothing at all. */
  lemma CommandGestureLogsOnce(st: TrackerState, e: InputEvent, a: AnAction, presentationText: Option<string>,
                               dispatcherReady: bool, commandTime: int, postTime: int, resolve: Resolver)
    requires e.kind == MouseClick || e.kind == KeyPress
    requires e !in st.contexts
    ensures
      var s1 := PreDispatch(st, e, resolve);
      var s2 := BeforeActionPerformed(s1, a, presentationText, Some(e), commandTime);
      var s3 := PostDispatch(s2, e, dispatcherReady, postTime);
      && Some(e) !in s3.inputEvents
      && s3.inputEvents == InsertCapped(st.inputEvents, Some(e)) - {Some(e)}
      && (!IsOwnAction(a) ==>
            && s3.records == st.records + [ActionRecord(commandTime, WithContext(Snapshot(e, resolve),
                                              ActionInvoked(ActionLabel(a, presentationText), SourceOf(Some(e)))))]
            && e !in s3.contexts)
      && (IsOwnAction(a) ==> s3.records == st.records && s3.contexts == s1.contexts)
  {
  }

  /** A gesture no action claims is logged once by the post-dispatch pass: a click
      or a keystroke with its snapshot, a typed character bare (its snapshot stays
      in the context ledger), a skipped key not at all; other events log nothing. */
  lemma FallbackGestureLogsOnce(st: TrackerState, e: InputEvent, dispatcherReady: bool, postTime: int, resolve: Resolver)
    requires Some(e) !in st.inputEvents
    requires e !in st.contexts
    ensures
      var s1 := PreDispatch(st, e, resolve);
      var s3 := PostDispatch(s1, e, dispatcherReady, postTime);
      var outcome := ClassifyKey(e, dispatcherReady);
      && (e.kind == MouseClick ==>
            && s3.records == st.records + [ActionRecord(postTime, WithContext(Snapshot(e, resolve), MouseClicked(e.dialogTitle)))]
            && e !in s3.contexts)
      && (e.kind == KeyPress && outcome.Skipped? ==> s3.records == st.records)
      && (e.kind == KeyPress && outcome.Typed? ==>
            && s3.records == st.records + [ActionRecord(postTime, CharTyped(e.keyChar))]
            && s3.contexts == s1.contexts)
      && (e.kind == KeyPress && outcome.Stroke? ==>
            && s3.records == st.records + [ActionRecord(postTime, WithContext(Snapshot(e, resolve), KeyStrokePressed(e.keystrokeText)))]
            && e !in s3.contexts)
      && (e.kind != MouseClick && e.kind != KeyPress ==> s3 == st)
  {
  }

  /** An action triggered by a null input or by an event that is never post-processed
      (a mouse press, a key release, ...) leaves its dedup entry behind; only the
      capacity rule ever removes it. */
  lemma UnclaimedDedupEntryLingers(st: TrackerState, a: AnAction, presentationText: Option<string>,
                                   input: Option<InputEvent>, e: InputEvent, dispatcherReady: bool,
                                   commandTime: int, postTime: int)
    requires input.None? || (input.value.kind != MouseClick && input.value.kind != KeyPress)
    ensures
      var s2 := BeforeActionPerformed(st, a, presentationText, input, commandTime);
      input in PostDispatch(s2, e, dispatcherReady, postTime).inputEvents
  {
  }

  /** The capacity check runs before the insertion, so a ledger holding 100 entries
      grows to 101: the bound the code keeps is 101, not 100. */
  lemma LedgersReach101(st: TrackerState, a: AnAction, presentationText: Option<string>,
                        input: Option<InputEvent>, e: InputEvent, now: int, resolve: Resolver)
    requires |st.inputEvents| == LedgerCapacity && input !in st.inputEvents
    requires |st.contexts| == LedgerCapacity && e !in st.contexts && Snapshot(e, resolve).Some?
    ensures |BeforeActionPerformed(st, a, presentationText, input, now).inputEvents| == LedgerCapacity + 1
    ensures |PreDispatch(st, e, resolve).contexts| == LedgerCapacity + 1
  {
    assert PreDispatch(st, e, resolve).contexts.Keys == st.contexts.Keys + {e};
  }
}
