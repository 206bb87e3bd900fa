/** Key bindings of the configuration: which key events trigger which
    action, globally, in the query editor and in the JSON viewer. */
module KeyBindings {

  datatype KeyCode = Char(c: char) | Up | Down | Left | Right | Tab | Enter | Backspace

  /** crossterm's `KeyModifiers` bit flags (the ones the bindings use). */
  datatype KeyModifiers = KeyModifiers(shift: bool, control: bool, alt: bool)

  const NONE: KeyModifiers := KeyModifiers(false, false, false)
  const SHIFT: KeyModifiers := KeyModifiers(true, false, false)
  const CONTROL: KeyModifiers := KeyModifiers(false, true, false)
  const ALT: KeyModifiers := KeyModifiers(false, false, true)

  datatype KeyEventDef = KeyEventDef(code: KeyCode, modifiers: KeyModifiers)

  datatype EventDef = Key(key: KeyEventDef)

  type EventDefSet = set<EventDef>

  function Press(code: KeyCode, modifiers: KeyModifiers): EventDef {
    Key(KeyEventDef(code, modifiers))
  }

  datatype CompletionKeybinds = CompletionKeybinds(up: EventDefSet, down: EventDefSet)

  datatype EditorKeybinds = EditorKeybinds(
    backward: EventDefSet,
    forward: EventDefSet,
    moveToHead: EventDefSet,
    moveToTail: EventDefSet,
    moveToPreviousNearest: EventDefSet,
    moveToNextNearest: EventDefSet,
    erase: EventDefSet,
    eraseAll: EventDefSet,
    eraseToPreviousNearest: EventDefSet,
    eraseToNextNearest: EventDefSet,
    completion: EventDefSet,
    onCompletion: CompletionKeybinds)

  datatype JsonViewerKeybinds = JsonViewerKeybinds(
    up: EventDefSet,
    down: EventDefSet,
    moveToHead: EventDefSet,
    moveToTail: EventDefSet,
    toggle: EventDefSet,
    expand: EventDefSet,
    collapse: EventDefSet)

  datatype Keybinds = Keybinds(
    exit: EventDefSet,
    copyQuery: EventDefSet,
    copyResult: EventDefSet,
    switchMode: EventDefSet,
    onEditor: EditorKeybinds,
    onJsonViewer: JsonViewerKeybinds)

  const DefaultKeybinds: Keybinds := Keybinds(
    exit := {Press(Char('c'), CONTROL)},
    copyQuery := {Press(Char('q'), CONTROL)},
    copyResult := {Press(Char('o'), CONTROL)},
    switchMode := {Press(Down, SHIFT), Press(Up, SHIFT)},
    onEditor := EditorKeybinds(
      backward := {Press(Left, NONE)},
      forward := {Press(Right, NONE)},
      moveToHead := {Press(Char('a'), CONTROL)},
      moveToTail := {Press(Char('e'), CONTROL)},
      moveToPreviousNearest := {Press(Char('b'), ALT)},
      moveToNextNearest := {Press(Char('f'), ALT)},
      erase := {Press(Backspace, NONE)},
      eraseAll := {Press(Char('u'), CONTROL)},
      eraseToPreviousNearest := {Press(Char('w'), CONTROL)},
      eraseToNextNearest := {Press(Char('d'), ALT)},
      completion := {Press(Tab, NONE)},
      onCompletion := CompletionKeybinds(
        up := {Press(Up, NONE)},
        down := {Press(Tab, NONE), Press(Down, NONE)})),
    onJsonViewer := JsonViewerKeybinds(
      up := {Press(Char('k'), CONTROL), Press(Up, NONE)},
      down := {Press(Char('j'), CONTROL), Press(Down, NONE)},
      moveToHead := {Press(Char('l'), CONTROL)},
      moveToTail := {Press(Char('h'), CONTROL)},
      toggle := {Press(Enter, NONE)},
      expand := {Press(Char('p'), CONTROL)},
      collapse := {Press(Char('n'), CONTROL)}))

  /** Every event bound to a global action: exit, copy query, copy result,
      switch mode. */
  function GlobalEvents(kb: Keybinds): EventDefSet {
    kb.exit + kb.copyQuery + kb.copyResult + kb.switchMode
  }

  /** Every event bound to an action of the query editor or its completion
      list. */
  function EditorEvents(kb: EditorKeybinds): EventDefSet {
    kb.backward + kb.forward + kb.moveToHead + kb.moveToTail
    + kb.moveToPreviousNearest + kb.moveToNextNearest
    + kb.erase + kb.eraseAll + kb.eraseToPreviousNearest + kb.eraseToNextNearest
    + kb.completion + kb.onCompletion.up + kb.onCompletion.down
  }

  /** Every event bound to an action of the JSON viewer. */
  function ViewerEvents(kb: JsonViewerKeybinds): EventDefSet {
    kb.up + kb.down + kb.moveToHead + kb.moveToTail + kb.toggle + kb.expand + kb.collapse
  }

  // ---------------------------------------------------------------------
  // The default bindings

  /** Exiting is Ctrl+C alone; switching between editor and viewer is
      Shift+Down or Shift+Up. */
  lemma DefaultGlobalBindings()
    ensures DefaultKeybinds.exit == {Press(Char('c'), CONTROL)}
    ensures DefaultKeybinds.switchMode == {Press(Down, SHIFT), Press(Up, SHIFT)}
  {
  }

  /** Tab alone opens completion, and Tab (like Down) also moves down the
      completion list, while Up moves up. */
  lemma DefaultTabBindings()
    ensures DefaultKeybinds.onEditor.completion == {Press(Tab, NONE)}
    ensures Press(Tab, NONE) in DefaultKeybinds.onEditor.onCompletion.down
    ensures DefaultKeybinds.onEditor.onCompletion.down == {Press(Tab, NONE), Press(Down, NONE)}
    ensures Press(Tab, NONE) !in DefaultKeybinds.onEditor.onCompletion.up
  {
  }

  lemma DefaultGlobalEvents()
    ensures GlobalEvents(DefaultKeybinds) ==
      {Press(Char('c'), CONTROL), Press(Char('q'), CONTROL), Press(Char('o'), CONTROL),
       Press(Down, SHIFT), Press(Up, SHIFT)}
  {
  }

  lemma DefaultEditorEvents()
    ensures EditorEvents(DefaultKeybinds.onEditor) ==
      {Press(Left, NONE), Press(Right, NONE), Press(Char('a'), CONTROL), Press(Char('e'), CONTROL),
       Press(Char('b'), ALT), Press(Char('f'), ALT), Press(Backspace, NONE),
       Press(Char('u'), CONTROL), Press(Char('w'), CONTROL), Press(Char('d'), ALT),
       Press(Tab, NONE), Press(Up, NONE), Press(Down, NONE)}
  {
  }

  lemma DefaultViewerEvents()
    ensures ViewerEvents(DefaultKeybinds.onJsonViewer) ==
      {Press(Char('k'), CONTROL), Press(Up, NONE), Press(Char('j'), CONTROL), Press(Down, NONE),
       Press(Char('l'), CONTROL), Press(Char('h'), CONTROL), Press(Enter, NONE),
       Press(Char('p'), CONTROL), Press(Char('n'), CONTROL)}
  {
  }

  /** No global key is also bound in the editor, so the global actions are
      reachable while the editor has focus. */
  lemma DefaultGlobalKeysNotInEditor(ev: EventDef)
    requires ev in GlobalEvents(DefaultKeybinds)
    ensures ev !in EditorEvents(DefaultKeybinds.onEditor)
  {
    DefaultGlobalEvents();
    DefaultEditorEvents();
  }

  /** No global key is also bound in the JSON viewer. */
  lemma DefaultGlobalKeysNotInViewer(ev: EventDef)
    requires ev in GlobalEvents(DefaultKeybinds)
    ensures ev !in ViewerEvents(DefaultKeybinds.onJsonViewer)
  {
    DefaultGlobalEvents();
    DefaultViewerEvents();
  }
}
