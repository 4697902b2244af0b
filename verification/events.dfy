/** What the host hands to the tracker: AWT input events, IntelliJ actions,
    and the rules both tracker versions use to read them. */
module Events {
  import opened Optional

  /** The runtime class and id of an AWT input event. Only a MOUSE_CLICKED mouse
      event and a KEY_PRESSED key event are ever post-processed. */
  datatype EventKind = MouseClick | OtherMouse | KeyPress | OtherKey | OtherInput {
    predicate IsMouse() { MouseClick? || OtherMouse? }
    predicate IsKey() { KeyPress? || OtherKey? }
  }

  /** One input event. `serial` stands for object identity: the ledgers are hash
      collections over events that do not override `equals`. The keystroke text
      (`KeymapUtil.getKeystrokeText(KeyStroke.getKeyStrokeForEvent(e))`), the
      `UIUtil.isReallyTypedEvent` answer and the title of the enclosing dialog are
      library results the model takes as given. */
  datatype InputEvent = InputEvent(
    serial: nat,
    kind: EventKind,
    keyCode: int,
    keyChar: char,
    reallyTyped: bool,
    altDown: bool,
    controlDown: bool,
    metaDown: bool,
    keystrokeText: string,
    dialogTitle: Option<string>)

  // java.awt.event.KeyEvent virtual key codes
  const KeyBackSpace: int := 8
  const KeyTab: int := 9
  const KeyEnter: int := 10
  const KeyShift: int := 16
  const KeyControl: int := 17
  const KeyAlt: int := 18
  const KeyPageUp: int := 33
  const KeyPageDown: int := 34
  const KeyEnd: int := 35
  const KeyHome: int := 36
  const KeyLeft: int := 37
  const KeyUp: int := 38
  const KeyRight: int := 39
  const KeyDown: int := 40
  const KeyDelete: int := 127
  const KeyMeta: int := 157

  /** `KeyEvent.CHAR_UNDEFINED`. */
  const CharUndefined: char := '\U{FFFF}'

  /** Keys whose effect depends on the current selection. */
  const ContextSensitiveKeys: set<int> := {KeyUp, KeyDown, KeyLeft, KeyRight, KeyHome, KeyEnd,
    KeyPageDown, KeyPageUp, KeyEnter, KeyDelete, KeyBackSpace, KeyTab}

  /** Keys for which the selection snapshot prefers the edited text. */
  const TextEditingKeys: set<int> := {KeyDelete, KeyBackSpace}

  /** Bare modifier presses, never logged on their own. */
  const ModifierKeys: set<int> := {KeyControl, KeyAlt, KeyMeta, KeyShift}

  /** What the post-dispatch pass makes of a KEY_PRESSED event it has not seen before. */
  datatype KeyOutcome = Skipped | Typed(ch: char) | Stroke(text: string)

  /** The key classification shared by both tracker versions: bare modifiers and a
      key dispatcher that is not ready log nothing; a really typed, defined character
      without alt/ctrl/meta that is not Enter logs as a character; anything else logs
      as a keystroke. */
  function ClassifyKey(e: InputEvent, dispatcherReady: bool): (r: KeyOutcome)
    ensures r.Skipped? <==> e.keyCode in ModifierKeys || !dispatcherReady
    ensures r.Typed? <==>
      && e.keyCode !in ModifierKeys && dispatcherReady
      && e.keyChar != CharUndefined && e.reallyTyped
      && !e.altDown && !e.controlDown && !e.metaDown
      && e.keyCode != KeyEnter
    ensures r.Typed? ==> r.ch == e.keyChar
    ensures r.Stroke? ==> r.text == e.keystrokeText
  {
    if e.keyCode in ModifierKeys || !dispatcherReady then Skipped
    else
      var isChar := e.keyChar != CharUndefined && e.reallyTyped;
      var hasActionModifiers := e.altDown || e.controlDown || e.metaDown;
      var plainType := isChar && !hasActionModifiers;
      var isEnter := e.keyCode == KeyEnter;
      if plainType && !isEnter then Typed(e.keyChar) else Stroke(e.keystrokeText)
  }

  /** An IntelliJ action as the listener sees it: its runtime class name, the id
      `ActionManager.getId` reports, and the `toString` of each shortcut it has. */
  datatype AnAction = AnAction(className: string, id: Option<string>, shortcuts: seq<string>)

  const CancelActionClass: string := "com.intellij.openapi.ui.impl.DialogWrapperPeerImpl$AnCancelAction"

  /** The fixed class-name table of labels. */
  const ActionTextByClass: map<string, string> := map[CancelActionClass := "Cancel"]

  function ClassTableText(className: string): (r: Option<string>)
    ensures r.Some? <==> className == CancelActionClass
    ensures r.Some? ==> r.value == "Cancel"
  {
    if className in ActionTextByClass then Some(ActionTextByClass[className]) else None
  }

  /** `getLocalActionText`: the first shortcut of an action declared as a nested or
      anonymous class (a `$` in its class name), if it has one. */
  function LocalActionText(a: AnAction): (r: Option<string>)
    ensures r.Some? <==> '$' in a.className && |a.shortcuts| > 0
    ensures r.Some? ==> r.value == a.shortcuts[0]
  {
    if '$' in a.className && |a.shortcuts| > 0 then Some(a.shortcuts[0]) else None
  }

  /** The two `SimpleDateFormat` renderings of a millisecond time: "dd.MM.yyyy, HH:mm"
      for the start and "HH:mm:ss.SSS" for each record. */
  datatype Formats = Formats(startText: int -> string, timeText: int -> string)

  /** Examples of the character-versus-keystroke rule: a plain 'a' is a character,
      ctrl+'a' is a keystroke, and Enter is a keystroke whatever character it carries. */
  lemma ClassifyKeyExamples(e: InputEvent)
    requires e.keyCode !in ModifierKeys && e.reallyTyped && !e.altDown && !e.metaDown
    ensures e.keyChar == 'a' && !e.controlDown && e.keyCode != KeyEnter ==> ClassifyKey(e, true) == Typed('a')
    ensures e.keyChar == 'a' && e.controlDown ==> ClassifyKey(e, true) == Stroke(e.keystrokeText)
    ensures e.keyCode == KeyEnter ==> ClassifyKey(e, true) == Stroke(e.keystrokeText)
    ensures ClassifyKey(e, false) == Skipped
  {
  }
}
