/** The records of the older plugin tracker and their rendering. The union is the
    current one with `NavigationActionInvoked` in place of the context wrapper. */
module LegacyActions {
  import opened Optional
  import Actions

  datatype ActionData =
    | CharTyped(ch: char)
    | ActionInvoked(actionText: string, source: Option<ActionData>)
    | NavigationActionInvoked(selection: string, inner: ActionData)
    | MouseClicked(dialogTitle: Option<string>)
    | KeyStrokePressed(keystrokeText: string)
    | NextTask

  datatype ActionRecord = ActionRecord(timestamp: int, action: ActionData)

  /** `toPresentableText` of the plugin version. */
  function Render(a: ActionData): (r: string)
    ensures a.CharTyped? ==> r == "typed '" + [a.ch] + "'"
    ensures a.MouseClicked? ==> "mouse clicked" <= r && (a.dialogTitle.None? <==> |r| == |"mouse clicked"|)
    ensures a.KeyStrokePressed? ==> r == a.keystrokeText
    ensures a.ActionInvoked? ==> "action '" + a.actionText + "'" <= r
    ensures a.ActionInvoked? && a.source.None? ==> r == "action '" + a.actionText + "'"
    ensures a.NavigationActionInvoked? ==> Render(a.inner) <= r && r[|Render(a.inner)|..] == Actions.OnSelection(a.selection)
    ensures a.NextTask? ==> r == ">>> Next Task <<<"
  {
    match a
    case CharTyped(c) => "typed '" + [c] + "'"
    case MouseClicked(title) =>
      "mouse clicked" + (if title.Some? then " (in '" + title.value + "' dialog)" else "")
    case KeyStrokePressed(text) => text
    case ActionInvoked(text, source) =>
      var via :=
        if source.Some? && source.value.MouseClicked? then " via mouse click"
        else if source.Some? && source.value.KeyStrokePressed? then " via " + Render(source.value)
        else "";
      "action '" + text + "'" + via
    case NavigationActionInvoked(selection, inner) => Render(inner) + Actions.OnSelection(selection)
    case NextTask => ">>> Next Task <<<"
  }

  /** The same record in the current union. */
  function ToCurrent(a: ActionData): Actions.ActionData
  {
    match a
    case CharTyped(c) => Actions.CharTyped(c)
    case ActionInvoked(text, source) =>
      Actions.ActionInvoked(text, if source.Some? then Some(ToCurrent(source.value)) else None)
    case NavigationActionInvoked(selection, inner) =>
      Actions.ContextSensitiveActionInvoked(selection, ToCurrent(inner))
    case MouseClicked(title) => Actions.MouseClicked(title)
    case KeyStrokePressed(text) => Actions.KeyStrokePressed(text)
    case NextTask => Actions.NextTask
  }

  /** The two renderers agree: every legacy record reads exactly as its current
      counterpart, so the character, click, via-suffix, wrapper and marker texts
      of the current renderer hold for the plugin too. */
  lemma {:induction false} RenderAgreesWithCurrent(a: ActionData)
    ensures Render(a) == Actions.Render(ToCurrent(a))
  {
    match a
    case ActionInvoked(text, source) =>
      if source.Some? {
        RenderAgreesWithCurrent(source.value);
      }
    case NavigationActionInvoked(selection, inner) =>
      RenderAgreesWithCurrent(inner);
      assert Actions.Render(ToCurrent(a)) == Actions.Render(ToCurrent(inner)) + Actions.OnSelection(selection);
    case _ =>
  }

  /** `NavigationActionInvoked` appends the quoted selection to the inner text. */
  lemma RenderNavigation(selection: string, inner: ActionData)
    ensures Render(NavigationActionInvoked(selection, inner)) == Render(inner) + " on '" + selection + "'"
    ensures Render(NavigationActionInvoked("Foo.bar", ActionInvoked("Rename", None))) == "action 'Rename' on 'Foo.bar'"
  {
  }

  /** The dialog suffix appears exactly when the click had a dialog title. */
  lemma RenderMouseClicked(title: Option<string>)
    ensures title.None? <==> Render(MouseClicked(title)) == "mouse clicked"
    ensures title.Some? ==> Render(MouseClicked(title)) == "mouse clicked (in '" + title.value + "' dialog)"
  {
    if title.Some? {
      assert |Render(MouseClicked(title))| > |"mouse clicked"|;
    }
  }
}
