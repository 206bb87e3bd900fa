/** Locating the configuration file and making sure it exists. The TOML
    text of the default configuration and the platform's configuration
    directory are parameters: `serializedDefault` is the serialiser's
    result, `configDir` what the platform reports, if anything. */
module ConfigFile {
  import opened Wrappers
  import opened Paths
  import opened FileSystem

  datatype ConfigError =
    | DirectoryCreation(cause: IoError)
    | FileCreation(cause: IoError)
    | Serialization(message: string)
    | ConfigDirUnknown

  const AppDirName: string := "jnv"
  const ConfigFileName: string := "config.toml"

  /** `<configDir>/jnv/config.toml`. */
  function DefaultConfigPath(configDir: Path): (p: Path)
    ensures p == configDir + [Normal(AppDirName), Normal(ConfigFileName)]
    ensures WellFormed(configDir) ==> WellFormed(p)
  {
    Child(Child(configDir, AppDirName), ConfigFileName)
  }

  /** Written out, the default path is the directory followed by
      `/jnv/config.toml`. */
  lemma DisplayDefaultConfigPath(configDir: Path)
    requires WellFormed(configDir) && configDir != [] && configDir != [RootDir]
    ensures Display(DefaultConfigPath(configDir)) == Display(configDir) + "/" + AppDirName + "/" + ConfigFileName
  {
    var app := Child(configDir, AppDirName);
    var dir := Display(configDir);
    var path := DefaultConfigPath(configDir);
    assert Display(app) == dir + "/" + AppDirName by {
      DisplayChild(configDir, AppDirName);
    }
    assert Display(path) == Display(app) + "/" + ConfigFileName by {
      assert |app| == |configDir| + 1;
      DisplayChild(app, ConfigFileName);
    }
  }

  /** Reading `<configDir>/jnv/config.toml` as a path gives the default path. */
  lemma ComponentsOfDefaultConfigPath(configDir: Path)
    requires WellFormed(configDir) && configDir != [] && configDir != [RootDir]
    ensures Components(Display(configDir) + "/" + AppDirName + "/" + ConfigFileName) == DefaultConfigPath(configDir)
  {
    DisplayDefaultConfigPath(configDir);
    ComponentsOfDisplay(DefaultConfigPath(configDir));
  }

  /** `ensure_file_exists`. An existing path (file or directory) is left
      alone. Otherwise the parent directories are created, then the file
      (empty), then the default configuration is serialised and written. */
  function EnsureFileExists(fs: Fs, p: Path, serializedDefault: Result<string, string>): (o: Outcome<(), ConfigError>)
    ensures p in fs.entries ==> o == Outcome(fs, Ok(()))
    ensures Extends(fs, o.fs)
    ensures forall q :: q in o.fs.entries && q !in fs.entries ==>
      (q == p && o.fs.entries[q].RegularFile?) ||
      (|q| < |p| && IsAncestorOrSelf(q, p) && o.fs.entries[q] == Directory)
    ensures o.result.Ok? ==> p in o.fs.entries
    ensures o.result.Ok? && p !in fs.entries ==>
      serializedDefault.Ok? && o.fs.entries[p] == RegularFile(serializedDefault.value)
    ensures p !in fs.entries && serializedDefault.Err? ==> o.result.Err?
  {
    if p in fs.entries then Outcome(fs, Ok(()))
    else
      var dirs := match Parent(p)
        case None => Outcome(fs, Ok(()))
        case Some(q) => CreateDirAll(fs, q);
      if dirs.result.Err? then Outcome(dirs.fs, Err(DirectoryCreation(dirs.result.error)))
      else
        var created := CreateFile(dirs.fs, p);
        if created.result.Err? then Outcome(created.fs, Err(FileCreation(created.result.error)))
        else match serializedDefault
          case Err(message) => Outcome(created.fs, Err(Serialization(message)))
          case Ok(text) => Outcome(created.fs.(entries := created.fs.entries[p := RegularFile(text)]), Ok(()))
  }

  /** The precedence of `determine_config_file`: the path given on the
      command line, else `<configDir>/jnv/config.toml`, else nothing. */
  function ChosenPath(configPath: Option<Path>, configDir: Option<Path>): (t: Option<Path>)
    ensures configPath.Some? ==> t == configPath
    ensures configPath.None? ==> (t.Some? <==> configDir.Some?)
    ensures configPath.None? && configDir.Some? ==>
      t.value == configDir.value + [Normal("jnv"), Normal("config.toml")]
  {
    match configPath
    case Some(p) => Some(p)
    case None =>
      match configDir
      case None => None
      case Some(dir) => Some(DefaultConfigPath(dir))
  }

  /** `determine_config_file`: the chosen path is made to exist and then
      returned; failing to ensure it is the call's failure. */
  function DetermineConfigFile(fs: Fs, configPath: Option<Path>, configDir: Option<Path>,
                               serializedDefault: Result<string, string>): (o: Outcome<Path, ConfigError>)
    ensures o.result.Ok? ==> o.result.value in o.fs.entries
    ensures configPath.Some? && o.result.Ok? ==> o.result.value == configPath.value
    ensures configPath.None? && configDir.Some? && o.result.Ok? ==>
      o.result.value == configDir.value + [Normal("jnv"), Normal("config.toml")]
    ensures o.result == Err(ConfigDirUnknown) <==> configPath.None? && configDir.None?
    ensures configPath.None? && configDir.None? ==> o.fs == fs
    ensures Extends(fs, o.fs)
    ensures ChosenPath(configPath, configDir).Some? ==>
      var p := ChosenPath(configPath, configDir).value;
      var ensured := EnsureFileExists(fs, p, serializedDefault);
      && o.fs == ensured.fs
      && (o.result.Ok? <==> ensured.result.Ok?)
      && (o.result.Ok? ==> o.result.value == p)
      && (o.result.Err? ==> o.result.error == ensured.result.error)
    ensures ChosenPath(configPath, configDir).Some? && ChosenPath(configPath, configDir).value in fs.entries ==>
      o == Outcome(fs, Ok(ChosenPath(configPath, configDir).value))
    ensures ChosenPath(configPath, configDir).Some? ==>
      var p := ChosenPath(configPath, configDir).value;
      forall q :: q in o.fs.entries && q !in fs.entries ==>
        (q == p && o.fs.entries[q].RegularFile?) ||
        (|q| < |p| && IsAncestorOrSelf(q, p) && o.fs.entries[q] == Directory)
  {
    match ChosenPath(configPath, configDir)
    case None => Outcome(fs, Err(ConfigDirUnknown))
    case Some(p) =>
      var ensured := EnsureFileExists(fs, p, serializedDefault);
      Outcome(ensured.fs, if ensured.result.Ok? then Ok(p) else Err(ensured.result.error))
  }

  // ---------------------------------------------------------------------
  // Properties on a well-formed tree

  /** Ensuring a file keeps the filesystem a tree. */
  lemma EnsureFileExistsValid(fs: Fs, p: Path, serializedDefault: Result<string, string>)
    requires Valid(fs)
    ensures Valid(EnsureFileExists(fs, p, serializedDefault).fs)
  {
    var o := EnsureFileExists(fs, p, serializedDefault);
    if p !in fs.entries && Parent(p).Some? {
      var q := p[..|p| - 1];
      var dirs := CreateDirAll(fs, q);
      CreateDirAllValid(fs, q);
      if dirs.result.Ok? {
        var created := CreateFile(dirs.fs, p);
        CreateFileValid(dirs.fs, p);
        if created.result.Ok? && serializedDefault.Ok? {
          WriteFileValid(created.fs, p, serializedDefault.value);
        }
      }
    }
  }

  /** A newly created configuration file sits in a directory whose every
      non-empty ancestor is a directory: the parent directories were made. */
  lemma EnsureFileExistsCreatesParents(fs: Fs, p: Path, serializedDefault: Result<string, string>)
    requires Valid(fs)
    requires p !in fs.entries && EnsureFileExists(fs, p, serializedDefault).result.Ok?
    ensures forall k :: 1 <= k < |p| ==> IsDir(EnsureFileExists(fs, p, serializedDefault).fs, p[..k])
  {
    var o := EnsureFileExists(fs, p, serializedDefault);
    var q := p[..|p| - 1];
    CreateDirAllMakesAncestors(fs, q);
    forall k | 1 <= k < |p|
      ensures IsDir(o.fs, p[..k])
    {
      assert p[..k] == q[..k];
    }
  }

  /** With the filesystem a tree, ensuring the file succeeds exactly when it
      already exists, or when the default serialises, the path ends in a
      name that may be created, and every ancestor is a directory or can be
      created. */
  lemma EnsureFileExistsSucceedsIff(fs: Fs, p: Path, serializedDefault: Result<string, string>)
    requires Valid(fs)
    ensures EnsureFileExists(fs, p, serializedDefault).result.Ok? <==>
      p in fs.entries ||
      (&& serializedDefault.Ok? && p != [] && p[|p| - 1].Normal? && p !in fs.denied
       && PathCreatable(fs, p[..|p| - 1]))
  {
    if p !in fs.entries && Parent(p).Some? {
      var q := p[..|p| - 1];
      CreateDirAllSucceedsIff(fs, q);
      CreateDirAllValid(fs, q);
      var dirs := CreateDirAll(fs, q);
      if dirs.result.Ok? {
        assert !IsAncestorOrSelf(p, q);
        assert p !in dirs.fs.entries;
        assert ContainerExists(dirs.fs, p);
      }
    }
  }

  /** The file is created before the default is serialised, so a
      serialisation failure still leaves an empty file behind; the next run
      then finds the path existing and does not write the default. */
  lemma SerializationFailureLeavesEmptyFile(fs: Fs, p: Path, message: string)
    requires Valid(fs)
    requires p !in fs.entries && p != [] && p[|p| - 1].Normal? && p !in fs.denied
    requires PathCreatable(fs, p[..|p| - 1])
    ensures EnsureFileExists(fs, p, Err(message)).result == Err(Serialization(message))
    ensures EnsureFileExists(fs, p, Err(message)).fs.entries[p] == RegularFile("")
  {
    var q := p[..|p| - 1];
    CreateDirAllSucceedsIff(fs, q);
    var dirs := CreateDirAll(fs, q);
    assert !IsAncestorOrSelf(p, q);
    assert p !in dirs.fs.entries;
    assert ContainerExists(dirs.fs, p);
  }

  /** Once the configuration file has been determined, determining it again
      returns the same path and changes nothing. */
  lemma DetermineConfigFileIdempotent(fs: Fs, configPath: Option<Path>, configDir: Option<Path>,
                                      serializedDefault: Result<string, string>)
    requires DetermineConfigFile(fs, configPath, configDir, serializedDefault).result.Ok?
    ensures var o := DetermineConfigFile(fs, configPath, configDir, serializedDefault);
      DetermineConfigFile(o.fs, configPath, configDir, serializedDefault) == o
  {
  }

  /** With the filesystem a tree, determining the configuration file
      succeeds exactly when a path is chosen and ensuring it succeeds: the
      path already exists, or the default serialises, the path ends in a
      name that may be created, and every ancestor is a directory or can be
      created. */
  lemma DetermineConfigFileSucceedsIff(fs: Fs, configPath: Option<Path>, configDir: Option<Path>,
                                       serializedDefault: Result<string, string>)
    requires Valid(fs)
    ensures DetermineConfigFile(fs, configPath, configDir, serializedDefault).result.Ok? <==>
      && (configPath.Some? || configDir.Some?)
      && var p := ChosenPath(configPath, configDir).value;
         || p in fs.entries
         || (&& serializedDefault.Ok? && p != [] && p[|p| - 1].Normal? && p !in fs.denied
             && PathCreatable(fs, p[..|p| - 1]))
  {
    if configPath.Some? || configDir.Some? {
      EnsureFileExistsSucceedsIff(fs, ChosenPath(configPath, configDir).value, serializedDefault);
    }
  }
}
