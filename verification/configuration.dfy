/** The runtime configuration and its defaults: editor appearance and edit
    mode, JSON view, completion list, key bindings and reactivity timings.
    Durations are whole milliseconds; `Usize` is Rust's 64-bit `usize`. */
module Configuration {
  import opened Wrappers
  import opened KeyBindings

  type Usize = n: nat | n < 0x1_0000_0000_0000_0000

  /** The text editor's edit mode. */
  datatype Mode = Insert | Overwrite

  datatype Color = Blue | Magenta | Cyan | Green | Grey | Yellow

  datatype Attribute = Bold | Dim

  /** A terminal style: optional colours plus a set of attributes. */
  datatype ContentStyle = ContentStyle(foreground: Option<Color>, background: Option<Color>, attributes: set<Attribute>)

  const PlainStyle: ContentStyle := ContentStyle(None, None, {})

  function Foreground(c: Color): ContentStyle {
    PlainStyle.(foreground := Some(c))
  }

  function WithAttribute(a: Attribute): ContentStyle {
    PlainStyle.(attributes := {a})
  }

  datatype EditorTheme = EditorTheme(
    prefix: string,
    prefixStyle: ContentStyle,
    activeCharStyle: ContentStyle,
    inactiveCharStyle: ContentStyle)

  datatype EditorConfig = EditorConfig(
    themeOnFocus: EditorTheme,
    themeOnDefocus: EditorTheme,
    mode: Mode,
    wordBreakChars: set<char>)

  datatype JsonTheme = JsonTheme(
    indent: Usize,
    curlyBracketsStyle: ContentStyle,
    squareBracketsStyle: ContentStyle,
    keyStyle: ContentStyle,
    stringValueStyle: ContentStyle,
    numberValueStyle: ContentStyle,
    booleanValueStyle: ContentStyle,
    nullValueStyle: ContentStyle)

  datatype JsonConfig = JsonConfig(maxStreams: Option<Usize>, theme: JsonTheme)

  datatype CompletionConfig = CompletionConfig(
    lines: Option<Usize>,
    cursor: string,
    searchResultChunkSize: Usize,
    searchLoadChunkSize: Usize,
    activeItemStyle: ContentStyle,
    inactiveItemStyle: ContentStyle)

  datatype ReactivityControl = ReactivityControl(
    queryDebounceMillis: nat,
    resizeDebounceMillis: nat,
    spinMillis: nat)

  datatype Config = Config(
    noHint: bool,
    reactivityControl: ReactivityControl,
    editor: EditorConfig,
    json: JsonConfig,
    completion: CompletionConfig,
    keybinds: Keybinds)

  // ---------------------------------------------------------------------
  // Defaults

  const DefaultEditorConfig: EditorConfig := EditorConfig(
    themeOnFocus := EditorTheme(
      prefix := "\U{276F}\U{276F} ",
      prefixStyle := Foreground(Blue),
      activeCharStyle := PlainStyle.(background := Some(Magenta)),
      inactiveCharStyle := PlainStyle),
    themeOnDefocus := EditorTheme(
      prefix := "\U{25BC} ",
      prefixStyle := Foreground(Blue).(attributes := {Dim}),
      activeCharStyle := WithAttribute(Dim),
      inactiveCharStyle := WithAttribute(Dim)),
    mode := Insert,
    wordBreakChars := {'.', '|', '(', ')', '[', ']'})

  const DefaultJsonConfig: JsonConfig := JsonConfig(
    maxStreams := None,
    theme := JsonTheme(
      indent := 2,
      curlyBracketsStyle := WithAttribute(Bold),
      squareBracketsStyle := WithAttribute(Bold),
      keyStyle := Foreground(Cyan),
      stringValueStyle := Foreground(Green),
      numberValueStyle := PlainStyle,
      booleanValueStyle := PlainStyle,
      nullValueStyle := Foreground(Grey)))

  const DefaultCompletionConfig: CompletionConfig := CompletionConfig(
    lines := Some(3),
    cursor := "\U{276F} ",
    searchResultChunkSize := 100,
    searchLoadChunkSize := 50000,
    activeItemStyle := Foreground(Grey).(background := Some(Yellow)),
    inactiveItemStyle := Foreground(Grey))

  const DefaultReactivityControl: ReactivityControl := ReactivityControl(
    queryDebounceMillis := 600,
    resizeDebounceMillis := 200,
    spinMillis := 300)

  /** The derived default: every field takes its own type's default. */
  const DefaultConfig: Config := Config(
    noHint := false,
    reactivityControl := DefaultReactivityControl,
    editor := DefaultEditorConfig,
    json := DefaultJsonConfig,
    completion := DefaultCompletionConfig,
    keybinds := DefaultKeybinds)

  // ---------------------------------------------------------------------
  // Documented default values

  /** A query is evaluated 600 ms after the last keystroke, a resize is
      handled 200 ms after the last resize event, and the spinner advances
      every 300 ms; resizes settle sooner than queries. */
  lemma DefaultReactivity()
    ensures DefaultConfig.reactivityControl.queryDebounceMillis == 600
    ensures DefaultConfig.reactivityControl.resizeDebounceMillis == 200
    ensures DefaultConfig.reactivityControl.spinMillis == 300
    ensures DefaultConfig.reactivityControl.resizeDebounceMillis < DefaultConfig.reactivityControl.queryDebounceMillis
  {
  }

  /** Suggestions are loaded 50000 items at a time and shown 100 at a time
      in a three-line list; both chunk sizes are positive, so loading and
      paging always make progress. */
  lemma DefaultCompletion()
    ensures DefaultConfig.completion.searchResultChunkSize == 100
    ensures DefaultConfig.completion.searchLoadChunkSize == 50000
    ensures DefaultConfig.completion.lines == Some(3)
    ensures DefaultConfig.completion.searchResultChunkSize > 0
    ensures DefaultConfig.completion.searchLoadChunkSize > 0
    ensures DefaultConfig.completion.searchResultChunkSize <= DefaultConfig.completion.searchLoadChunkSize
  {
  }

  /** All JSON streams are shown, indented by two columns. */
  lemma DefaultJson()
    ensures DefaultConfig.json.maxStreams == None
    ensures DefaultConfig.json.theme.indent == 2
  {
  }

  /** The editor starts in insert mode, breaks words at exactly the six
      characters `. | ( ) [ ]`, and shows different prompts when focused
      and unfocused. */
  lemma DefaultEditor()
    ensures DefaultConfig.editor.mode == Insert
    ensures DefaultConfig.editor.wordBreakChars == {'.', '|', '(', ')', '[', ']'}
    ensures |DefaultConfig.editor.wordBreakChars| == 6
    ensures 'a' !in DefaultConfig.editor.wordBreakChars && ' ' !in DefaultConfig.editor.wordBreakChars
    ensures DefaultConfig.editor.themeOnFocus.prefix == "\U{276F}\U{276F} "
    ensures DefaultConfig.editor.themeOnDefocus.prefix == "\U{25BC} "
    ensures DefaultConfig.editor.themeOnFocus.prefix != DefaultConfig.editor.themeOnDefocus.prefix
  {
  }

  /** Hints are shown by default. */
  lemma DefaultHints()
    ensures !DefaultConfig.noHint
  {
  }
}
