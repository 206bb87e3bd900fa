# jnv start-up decisions in Dafny

jnv is an interactive JSON viewer and jq filter for the terminal. Before the
interface starts, the program settles four things:

- which edit mode the `--edit-mode` argument names;
- where the JSON document is read from (standard input or a file);
- which configuration file to use, creating it with the default settings
  when it is missing;
- what those default settings are.

This project models those decisions and proves properties about them. It
has seven modules:

- `Wrappers`: `Option` and `Result`.
- `Paths`: Unix paths as Rust's `std::path` treats them. A path is the
  sequence of its components, so `PathBuf` equality is equality of component
  sequences. `Components` parses text, and `Display` writes a well-formed
  sequence back out.
- `FileSystem`: an abstract filesystem, which is a map from paths to
  directories or regular files plus a set of paths where creation is
  refused. It models `create_dir`, `create_dir_all` and `File::create`.
- `Configuration`: the configuration records and their `Default` values.
- `KeyBindings`: the default key bindings and the sets of events each
  context listens to.
- `Cli`: the edit-mode validator, the command-line defaults, and the
  choice of input source in `parse_input`.
- `ConfigFile`: `ensure_file_exists` and `determine_config_file`.

Side effects become parameters:

- Standard input is a `Result<string, IoError>`.
- The TOML text of the default configuration is the serialiser's
  `Result<string, string>`.
- The platform's configuration directory is an `Option<Path>`.
- The filesystem is an `Fs` value. Every filesystem operation returns an
  `Outcome`: the new state together with the result. A failure part-way
  keeps whatever was already created.

The doc comment of `determine_config_file` says the given path is used
"if it exists". The code uses any given path, and creates the file when it
is missing. The model follows the code: `DetermineConfigFile` returns the
given path whenever it succeeds.

A successful `ensure_file_exists` does not promise a regular file. A
directory already at the path counts as existing, so the call returns `Ok`
and leaves it alone. `EnsureFileExists` states exactly that.

## Model

| member | source | states |
|---|---|---|
| Cli.ValidateEditMode | src/main.rs:126-132 | The value is accepted exactly when it is "insert", "overwrite" or empty. The empty string means insert. Each accepted name yields its own mode and no other. Every rejection carries the message "edit-mode must be 'insert' or 'overwrite'". |
| Cli.EditModeNameRoundTrip | src/main.rs:126-132 | Every mode's command-line name parses back to that mode. |
| Cli.CliDefaultsAgreeWithConfig | src/main.rs:66-123 | The `--edit-mode` default "insert" parses to the mode the default editor configuration uses. The `--suggestions` default of 3 equals the default completion line count. Hints are shown unless `--no-hint` is given. |
| Cli.InputSource | src/main.rs:141-158 | Standard input is chosen exactly when no path is given or the path equals `PathBuf::from("-")`. Otherwise the given path is the file to read. |
| Cli.ParseInput | src/main.rs:141-158 | For standard input, the result is exactly what standard input yields. For a file, reading succeeds exactly when the path is a regular file in the model, and then returns its contents. A missing file is `NotFound`. |
| Cli.StdinSpellings | src/main.rs:149 | Paths compare by components, so "-", "-/" and "-//." all select standard input. |
| Cli.FileSpellings | src/main.rs:149 | "./-", "/-" and the empty path do not equal "-", so each names a file. |
| Paths.Split | src/main.rs:149 | Splitting at separators gives at least one piece. No piece contains a separator. Joining the pieces with separators rebuilds the text. |
| Paths.Components | src/main.rs:149 | Parsing always yields a well-formed component sequence: an optional leading root or `.`, then only names and `..`. |
| Paths.ComponentsOfDisplay | src/main.rs:197-200 | Parsing the written form of any well-formed path gives back the same components. |
| Paths.BodyOfNames | src/main.rs:197-200 | Parsing names joined with separators gives back those names. |
| Paths.Parent | src/main.rs:170 | `parent()` is absent exactly for the empty path and for a path ending at the root. Otherwise it is the path without its last component. |
| Paths.Child | src/main.rs:197-200 | `dir.join(name)` ends in the component `name`, and its parent is `dir`. Joining keeps a path well-formed. |
| Paths.DisplayChild | src/main.rs:197-200 | `dir.join(name)` is written as the name alone after the empty path, as "/" then the name after the root, and otherwise as the directory, a separator and the name. |
| FileSystem.MakeDir | src/main.rs:171 | One directory is created exactly when the path is absent, creation there is allowed, and its containing directory exists. On failure nothing changes. |
| FileSystem.CreateDirAll | src/main.rs:170-173 | Nothing existing is removed or changed. The only new entries are directories on the way to the path. On success the path is a directory. An existing path leaves the filesystem unchanged. |
| FileSystem.CreateDirAllValid | src/main.rs:170-173 | Creating directories keeps the filesystem a tree: every entry sits in an existing directory. |
| FileSystem.CreateDirAllMakesAncestors | src/main.rs:170-173 | After a successful `create_dir_all` on a tree, the path and every non-empty ancestor of it is a directory. |
| FileSystem.CreateDirAllSucceedsIff | src/main.rs:170-173 | On a tree, `create_dir_all` succeeds exactly when every non-empty prefix of the path is already a directory or is absent, creatable and not the root. |
| FileSystem.CreateFile | src/main.rs:175 | `File::create` succeeds exactly when all of these hold: the path ends in a name, creation there is allowed, and the path is either an existing regular file or absent with its containing directory present. Success leaves an empty regular file. Failure changes nothing. |
| ConfigFile.DefaultConfigPath | src/main.rs:196-200 | The default path is the configuration directory followed by `jnv` and `config.toml`, and it is well-formed when the directory is. |
| ConfigFile.DisplayDefaultConfigPath | src/main.rs:196-200 | Written out, the default path is the directory, "/", "jnv", "/" and then "config.toml". |
| ConfigFile.ComponentsOfDefaultConfigPath | src/main.rs:196-200 | Parsing "<dir>/jnv/config.toml" gives back the default path. |
| ConfigFile.EnsureFileExists | src/main.rs:165-178 | An existing path, file or directory, succeeds and changes nothing. Otherwise nothing existing is changed, and the only new entries are the file itself and directories above it. Success means the path exists. A newly created file holds exactly the serialised default. A serialisation failure on a missing path is an error. |
| ConfigFile.EnsureFileExistsValid | src/main.rs:165-178 | Ensuring the file keeps the filesystem a tree. |
| ConfigFile.EnsureFileExistsCreatesParents | src/main.rs:170-175 | When a new file is created, every non-empty ancestor of it is a directory. |
| ConfigFile.EnsureFileExistsSucceedsIff | src/main.rs:165-178 | On a tree, the call succeeds exactly when the path exists, or when all of these hold: the default serialises, the path ends in a name, creation there is allowed, and every ancestor is a directory or creatable. |
| ConfigFile.SerializationFailureLeavesEmptyFile | src/main.rs:175 | The file is created before the default is serialised. So a serialisation failure returns that error and still leaves an empty file at the path. |
| ConfigFile.ChosenPath | src/main.rs:191-200 | A path given on the command line is chosen as is. Without one, the choice is "<config dir>/jnv/config.toml". Nothing is chosen when neither is available. |
| ConfigFile.DetermineConfigFile | src/main.rs:186-204 | With a chosen path, the outcome is exactly that of ensuring it exists: the same filesystem, success exactly when ensuring succeeds, the chosen path on success and the same error on failure. An already existing chosen path succeeds and changes nothing. The only new entries are the file and directories above it. Without a chosen path, the call fails with the "configuration directory unknown" error (the source reports "Failed to determine the configuration directory") and changes nothing. Nothing existing is ever changed. |
| ConfigFile.DetermineConfigFileSucceedsIff | src/main.rs:186-204 | On a tree, determination succeeds exactly when a path is chosen and it exists, or when the default serialises, the path ends in a name, creation there is allowed, and every ancestor is a directory or creatable. |
| ConfigFile.DetermineConfigFileIdempotent | src/main.rs:186-204 | Once a determination succeeds, repeating it on the resulting filesystem returns the same path and changes nothing. |
| Configuration.DefaultEditor | src/config.rs:45-80 | The default editor starts in insert mode. It breaks words at exactly six characters: the period, the vertical bar, both parentheses and both square brackets. Its focused prompt is "❯❯ " and its unfocused prompt is "▼ ", and the two differ. |
| Configuration.DefaultJson | src/config.rs:114-145 | By default there is no limit on JSON streams, and the indent is two. |
| Configuration.DefaultCompletion | src/config.rs:161-179 | Completion shows 3 lines. Results come 100 at a time and are loaded 50000 at a time. Both chunk sizes are positive, and the result chunk is no larger than the load chunk. |
| Configuration.DefaultReactivity | src/config.rs:325-333 | Query debounce is 600 ms, resize debounce 200 ms and the spinner period 300 ms. Resizes settle before queries. |
| Configuration.DefaultHints | src/config.rs:351-359 | The derived default `Config` shows hints (`no_hint` is false). |
| KeyBindings.DefaultGlobalBindings | src/config.rs:228-240 | Exit is exactly Ctrl+C. Switching mode is exactly Shift+Down or Shift+Up. |
| KeyBindings.DefaultTabBindings | src/config.rs:273-280 | Tab alone opens completion. In the completion list, down is exactly Tab or Down, and Tab does not move up. |
| KeyBindings.DefaultGlobalEvents | src/config.rs:228-240 | The global actions listen to exactly Ctrl+C, Ctrl+Q, Ctrl+O, Shift+Down and Shift+Up. |
| KeyBindings.DefaultEditorEvents | src/config.rs:241-281 | The editor and its completion list listen to exactly the thirteen listed key presses. |
| KeyBindings.DefaultViewerEvents | src/config.rs:282-308 | The JSON viewer listens to exactly the nine listed key presses. |
| KeyBindings.DefaultGlobalKeysNotInEditor | src/config.rs:228-281 | No key bound to a global action is also bound in the editor. |
| KeyBindings.DefaultGlobalKeysNotInViewer | src/config.rs:228-308 | No key bound to a global action is also bound in the JSON viewer. |

## Left out

- Reading from standard input and from files is not modelled as I/O. Standard input's result is a parameter, and a file's contents are the string stored in the model filesystem. Failures of `read_to_string` on non-UTF-8 data are not distinguished.
- TOML serialisation (`toml::to_string_pretty`) and the serde helper modules are not modelled. The serialiser's result is a parameter. Loading a configuration file and patching it over the defaults is not part of this model.
- The command-line parser (clap) is not modelled. Only the validator it calls, and the default values written on the arguments, are.
- `main` and the runtime pipeline are not part of this model: the editor, renderer, JSON streams, search, spinner and clipboard.
- `dirs::config_dir` is platform lookup. It is a parameter.
- FileSystem.CreateFile: paths are component sequences, so a trailing separator is lost. `File::create("foo/")` fails on a real system, but the model creates the file `foo`. Relative and absolute spellings of one file are also distinct keys, because the working directory is not modelled.
- ConfigFile.EnsureFileExists: for the same reason, a configuration path written with a trailing separator ("foo/") is treated as "foo". When `foo` is absent the model creates it, and when `foo` is a regular file the model finds it existing. Both succeed in the model, where the source fails at `File::create` with "foo/".
- Cli.ParseInput: a file path with a trailing separator ("data.json/") reads the file `data.json` in the model, where `File::open` fails on a real system. Permission to read is not modelled, so an unreadable regular file is read successfully in the model, where the source fails.
- ConfigFile.EnsureFileExists: the `write_all` of the serialised text is assumed to succeed once the file is created. A short write or an I/O error during writing is not modelled.
- FileSystem.CreateDirAll: symbolic links and races with other processes are not modelled. `.` and `..` are kept as components and not resolved against the filesystem. The error kind reported for each failure is an approximation of what the operating system returns.
- FileSystem.CreateDirAll: the root itself is treated as a path that cannot be created. On a real system the root always exists as a directory. In the model it only exists when it is an entry.
- KeyBindings: mouse events and the serde form of key events are left out. Modifiers are a record of three flags (shift, control, alt), since the defaults use no others.
- Configuration: content styles keep the colours and attributes the defaults use (foreground, background, bold and dim). Underline colour and the rest of crossterm's attribute set are left out.
- Configuration: durations are whole milliseconds, and `usize` is a natural number below 2^64.
