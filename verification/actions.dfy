/** The records of the current tracker and their one-line rendering. */
module Actions {
  import opened Optional

  /** The closed union of everything the current tracker logs. */
  datatype ActionData =
    | CharTyped(ch: char)
    | ActionInvoked(actionText: string, source: Option<ActionData>)
    | ContextSensitiveActionInvoked(selection: string, inner: ActionData)
    | MouseClicked(dialogTitle: Option<string>)
    | KeyStrokePressed(keystrokeText: string)
    | NextTask

  /** A logged occurrence with its wall-clock time in milliseconds. */
  datatype ActionRecord = ActionRecord(timestamp: int, action: ActionData)

  /** `toPresentableText`: the one-line text of a record. */
  function Render(a: ActionData): (r: string)
    ensures a.CharTyped? ==> r == "typed '" + [a.ch] + "'"
    ensures a.MouseClicked? ==> "mouse clicked" <= r && (a.dialogTitle.None? <==> |r| == |"mouse clicked"|)
    ensures a.KeyStrokePressed? ==> r == a.keystrokeText
    ensures a.ActionInvoked? ==> "action '" + a.actionText + "'" <= r
    ensures a.ActionInvoked? && a.source.None? ==> r == "action '" + a.actionText + "'"
    ensures a.ContextSensitiveActionInvoked? ==> Render(a.inner) <= r && r[|Render(a.inner)|..] == OnSelection(a.selection)
    ensures a.NextTask? ==> r == ">>> Next Task <<<"
  {
    match a
    case CharTyped(c) => "typed '" + [c] + "'"
    case MouseClicked(title) =>
      "mouse clicked" + (if title.Some? then " (in '" + title.value + "' dialog)" else "")
    case KeyStrokePressed(text) => text
    case ActionInvoked(text, source) =>
      var via :=
        if source.Some? && source.value.MouseClicked? then " via mouse click"
        else if source.Some? && source.value.KeyStrokePressed? then " via " + Render(source.value)
        else "";
      "action '" + text + "'" + via
    case ContextSensitiveActionInvoked(selection, inner) => Render(inner) + OnSelection(selection)
    case NextTask => ">>> Next Task <<<"
  }

  /** The suffix a selection snapshot adds to a rendered record. */
  function OnSelection(selection: string): string
  {
    " on '" + selection + "'"
  }

  /** The record under all context wrappers. */
  function Base(a: ActionData): (b: ActionData)
    ensures !b.ContextSensitiveActionInvoked?
  {
    if a.ContextSensitiveActionInvoked? then Base(a.inner) else a
  }

  /** The selections of the context wrappers around `a`, innermost first. */
  function Selections(a: ActionData): seq<string>
  {
    if a.ContextSensitiveActionInvoked? then Selections(a.inner) + [a.selection] else []
  }

  function OnSelections(selections: seq<string>): string
  {
    if |selections| == 0 then ""
    else OnSelections(selections[..|selections| - 1]) + OnSelection(selections[|selections| - 1])
  }

  /** Rendering recurses only through context wrappers and an action's source:
      any record renders as its base record followed by one ` on '<selection>'`
      per snapshot, innermost first. */
  lemma {:induction false} RenderPeelsContexts(a: ActionData)
    ensures Render(a) == Render(Base(a)) + OnSelections(Selections(a))
  {
    if a.ContextSensitiveActionInvoked? {
      RenderPeelsContexts(a.inner);
      var ss := Selections(a.inner);
      assert (ss + [a.selection])[..|ss|] == ss;
    }
  }

  /** No string a record carries contains a newline. */
  predicate SingleLine(a: ActionData)
  {
    match a
    case CharTyped(c) => c != '\n'
    case MouseClicked(title) => title.Some? ==> '\n' !in title.value
    case KeyStrokePressed(text) => '\n' !in text
    case ActionInvoked(text, source) => '\n' !in text && (source.Some? ==> SingleLine(source.value))
    case ContextSensitiveActionInvoked(selection, inner) => '\n' !in selection && SingleLine(inner)
    case NextTask => true
  }

  /** A record whose strings hold no newline renders as exactly one line. */
  lemma {:induction false} RenderIsOneLine(a: ActionData)
    requires SingleLine(a)
    ensures '\n' !in Render(a)
  {
    match a
    case ActionInvoked(text, source) =>
      if source.Some? && source.value.KeyStrokePressed? {
        RenderIsOneLine(source.value);
      }
    case ContextSensitiveActionInvoked(selection, inner) =>
      RenderIsOneLine(inner);
    case _ =>
  }

  lemma RenderCharTyped(c: char)
    ensures Render(CharTyped(c)) == "typed '" + [c] + "'"
  {
  }

  /** The dialog suffix appears exactly when the click had a dialog title. */
  lemma RenderMouseClicked(title: Option<string>)
    ensures title.None? <==> Render(MouseClicked(title)) == "mouse clicked"
    ensures title.Some? ==> Render(MouseClicked(title)) == "mouse clicked (in '" + title.value + "' dialog)"
  {
    if title.Some? {
      assert |Render(MouseClicked(title))| > |"mouse clicked"|;
    }
  }

  lemma RenderKeyStrokePressed(text: string)
    ensures Render(KeyStrokePressed(text)) == text
  {
  }

  /** An invoked action names its trigger only when that was a mouse click or a keystroke. */
  lemma RenderActionInvoked(text: string, source: Option<ActionData>)
    ensures source.Some? && source.value.MouseClicked? ==>
      Render(ActionInvoked(text, source)) == "action '" + text + "' via mouse click"
    ensures source.Some? && source.value.KeyStrokePressed? ==>
      Render(ActionInvoked(text, source)) == "action '" + text + "' via " + source.value.keystrokeText
    ensures source.None? || !(source.value.MouseClicked? || source.value.KeyStrokePressed?) ==>
      Render(ActionInvoked(text, source)) == "action '" + text + "'"
  {
  }

  /** A snapshot appends the quoted selection to the wrapped record's text. */
  lemma RenderContextSensitive(selection: string, inner: ActionData)
    ensures Render(ContextSensitiveActionInvoked(selection, inner)) == Render(inner) + " on '" + selection + "'"
    ensures Render(ContextSensitiveActionInvoked("Foo.bar", ActionInvoked("Rename", None))) == "action 'Rename' on 'Foo.bar'"
  {
  }

  lemma RenderNextTask()
    ensures Render(NextTask) == ">>> Next Task <<<"
  {
  }
}
