/** Command-line decisions: the `--edit-mode` value parser, the defaults the
    command line shares with the configuration, and where the JSON input is
    read from. Standard input is a parameter, not a stream. */
module Cli {
  import opened Wrappers
  import opened Paths
  import opened FileSystem
  import opened Configuration

  const EditModeError: string := "edit-mode must be 'insert' or 'overwrite'"

  /** Default values written on the command-line arguments. */
  const EditModeDefault: string := "insert"
  const SuggestionsDefault: Usize := 3
  const NoHintDefault: bool := false

  /** The name the command line uses for each edit mode. */
  function ModeName(m: Mode): string {
    match m
    case Insert => "insert"
    case Overwrite => "overwrite"
  }

  /** `edit_mode_validator`: exactly "insert", "overwrite" and the empty
      string are accepted, the empty string meaning insert. */
  function ValidateEditMode(val: string): (r: Result<Mode, string>)
    ensures r.Ok? <==> val == "insert" || val == "overwrite" || val == ""
    ensures forall m :: r == Ok(m) <==> val == ModeName(m) || (val == "" && m == Insert)
    ensures r.Err? ==> r.error == EditModeError
  {
    if val == "insert" || val == "" then Ok(Insert)
    else if val == "overwrite" then Ok(Overwrite)
    else Err(EditModeError)
  }

  /** Every mode's name parses back to that mode. */
  lemma EditModeNameRoundTrip(m: Mode)
    ensures ValidateEditMode(ModeName(m)) == Ok(m)
  {
  }

  /** The command line's defaults agree with the configuration's: insert
      mode, three suggestion lines, hints shown. */
  lemma CliDefaultsAgreeWithConfig()
    ensures ValidateEditMode(EditModeDefault) == Ok(DefaultConfig.editor.mode)
    ensures DefaultConfig.completion.lines == Some(SuggestionsDefault)
    ensures DefaultConfig.noHint == NoHintDefault
  {
  }

  // ---------------------------------------------------------------------
  // Input selection

  datatype Source = Stdin | File(path: Path)

  /** `PathBuf::from("-")`. */
  const StdinPath: Path := [Normal("-")]

  /** The branch of `parse_input`: no path, or a path equal to "-", reads
      standard input; any other path names a file. */
  function InputSource(input: Option<Path>): (src: Source)
    ensures src.Stdin? <==> input.None? || input.value == StdinPath
    ensures src.File? ==> input == Some(src.path)
  {
    match input
    case None => Stdin
    case Some(p) => if p == StdinPath then Stdin else File(p)
  }

  /** Reading the whole of the selected source: standard input yields
      whatever `stdin` holds; a file must exist and be a regular file. */
  function ReadSource(src: Source, stdin: Result<string, IoError>, fs: Fs): Result<string, IoError> {
    match src
    case Stdin => stdin
    case File(p) =>
      if p !in fs.entries then Err(NotFound)
      else match fs.entries[p]
        case RegularFile(text) => Ok(text)
        case Directory => Err(IsADirectory)
  }

  /** `parse_input`: the document text, from standard input or a file. */
  function ParseInput(input: Option<Path>, stdin: Result<string, IoError>, fs: Fs): (r: Result<string, IoError>)
    ensures input.None? || input == Some(StdinPath) ==> r == stdin
    ensures input.Some? && input.value != StdinPath ==>
      (r.Ok? <==> input.value in fs.entries && fs.entries[input.value].RegularFile?)
    ensures input.Some? && input.value != StdinPath && r.Ok? ==>
      fs.entries[input.value] == RegularFile(r.value)
    ensures input.Some? && input.value !in fs.entries && input.value != StdinPath ==> r == Err(NotFound)
  {
    ReadSource(InputSource(input), stdin, fs)
  }

  /** Paths are compared by components, so "-" with trailing separators or
      an interior "." still means standard input. */
  lemma StdinSpellings()
    ensures Components("-") == StdinPath
    ensures InputSource(Some(Components("-/"))) == Stdin
    ensures InputSource(Some(Components("-//."))) == Stdin
  {
  }

  /** "./-", "/-" and the empty path name files, not standard input. */
  lemma FileSpellings()
    ensures InputSource(Some(Components("./-"))) == File([CurDir, Normal("-")])
    ensures InputSource(Some(Components("/-"))) == File([RootDir, Normal("-")])
    ensures InputSource(Some(Components(""))) == File([])
  {
  }
}
