/** An abstract filesystem: which paths exist, and whether each is a
    directory or a regular file with some contents. Paths are keys as they
    are written (components, see `Paths`); `.` and `..` are not resolved.
    `denied` holds the paths at which the operating system refuses to create
    anything (permissions, read-only mounts). */
module FileSystem {
  import opened Wrappers
  import opened Paths

  datatype Entry = Directory | RegularFile(contents: string)

  datatype IoError = NotFound | AlreadyExists | IsADirectory | PermissionDenied | Uncategorized

  datatype Fs = Fs(entries: map<Path, Entry>, denied: set<Path>)

  /** The state a fallible filesystem operation leaves behind, together with
      its result: a failed operation may already have changed the state. */
  datatype Outcome<+T, +E> = Outcome(fs: Fs, result: Result<T, E>)

  predicate Exists(fs: Fs, p: Path) {
    p in fs.entries
  }

  predicate IsDir(fs: Fs, p: Path) {
    p in fs.entries && fs.entries[p].Directory?
  }

  /** The directory a new entry at `p` would be created in is there: the
      working directory for a one-component path, otherwise the parent. */
  predicate ContainerExists(fs: Fs, p: Path) {
    match Parent(p)
    case None => false
    case Some(q) => q == [] || IsDir(fs, q)
  }

  /** Every entry sits in an existing directory (the filesystem is a tree). */
  ghost predicate Valid(fs: Fs) {
    forall q :: q in fs.entries ==> q != [] && (|q| > 1 ==> IsDir(fs, q[..|q| - 1]))
  }

  /** Nothing that existed in `fs` is removed or changed in `fs'`. */
  ghost predicate Extends(fs: Fs, fs': Fs) {
    && fs'.denied == fs.denied
    && forall q :: q in fs.entries ==> q in fs'.entries && fs'.entries[q] == fs.entries[q]
  }

  /** `q` is one of `p` and its ancestors other than the empty path. */
  predicate IsAncestorOrSelf(q: Path, p: Path) {
    0 < |q| <= |p| && q == p[..|q|]
  }

  /** The only entries `fs'` adds to `fs` are directories on the way to `p`. */
  ghost predicate AddsOnlyDirsTo(fs: Fs, fs': Fs, p: Path) {
    forall q :: q in fs'.entries && q !in fs.entries ==>
      fs'.entries[q] == Directory && IsAncestorOrSelf(q, p)
  }

  /** A prefix of `p` that `create_dir_all(p)` can get past: it is already a
      directory, or it is missing, may be created and is not the root. */
  predicate Creatable(fs: Fs, q: Path) {
    IsDir(fs, q) || (q !in fs.entries && q !in fs.denied && Parent(q).Some?)
  }

  /** `std::fs::create_dir`: one new directory whose container exists. */
  function MakeDir(fs: Fs, p: Path): (o: Outcome<(), IoError>)
    ensures o.result.Ok? <==> p !in fs.entries && p !in fs.denied && ContainerExists(fs, p)
    ensures o.result.Ok? ==> o.fs.entries == fs.entries[p := Directory] && o.fs.denied == fs.denied
    ensures o.result.Err? ==> o.fs == fs
  {
    if p in fs.entries then Outcome(fs, Err(AlreadyExists))
    else if p in fs.denied then Outcome(fs, Err(PermissionDenied))
    else if !ContainerExists(fs, p) then Outcome(fs, Err(NotFound))
    else Outcome(fs.(entries := fs.entries[p := Directory]), Ok(()))
  }

  /** `std::fs::create_dir_all`: create `p` and every missing ancestor, from
      the top down. The empty path succeeds at once; an existing directory
      succeeds unchanged; a failure part-way keeps what was created. */
  function CreateDirAll(fs: Fs, p: Path): (o: Outcome<(), IoError>)
    ensures Extends(fs, o.fs)
    ensures AddsOnlyDirsTo(fs, o.fs, p)
    ensures o.result.Ok? && p != [] ==> IsDir(o.fs, p)
    ensures p in fs.entries ==> o.fs == fs
    decreases |p|
  {
    if p == [] then Outcome(fs, Ok(()))
    else if p in fs.entries then
      Outcome(fs, if fs.entries[p].Directory? then Ok(()) else Err(AlreadyExists))
    else
      match Parent(p)
      case None => Outcome(fs, Err(Uncategorized))
      case Some(q) =>
        var up := CreateDirAll(fs, q);
        if up.result.Err? then up
        else
          assert q == [] || IsDir(up.fs, q);
          MakeDir(up.fs, p)
  }

  /** `File::create`: open for writing, creating an empty file when missing
      and truncating an existing one. */
  function CreateFile(fs: Fs, p: Path): (o: Outcome<(), IoError>)
    ensures o.result.Ok? <==>
      && p !in fs.denied && p != [] && p[|p| - 1].Normal?
      && (if p in fs.entries then fs.entries[p].RegularFile? else ContainerExists(fs, p))
    ensures o.result.Ok? ==> o.fs.entries == fs.entries[p := RegularFile("")] && o.fs.denied == fs.denied
    ensures o.result.Err? ==> o.fs == fs
  {
    if p == [] then Outcome(fs, Err(NotFound))
    else if !p[|p| - 1].Normal? then Outcome(fs, Err(IsADirectory))
    else if p in fs.denied then Outcome(fs, Err(PermissionDenied))
    else if p in fs.entries && fs.entries[p].Directory? then Outcome(fs, Err(IsADirectory))
    else if p !in fs.entries && !ContainerExists(fs, p) then Outcome(fs, Err(NotFound))
    else Outcome(fs.(entries := fs.entries[p := RegularFile("")]), Ok(()))
  }

  // ---------------------------------------------------------------------
  // Properties of create_dir_all on a well-formed tree

  /** In a tree, every non-empty ancestor of an existing entry is a directory. */
  lemma {:induction false} AncestorsOfEntry(fs: Fs, p: Path)
    requires Valid(fs) && p in fs.entries
    ensures forall k :: 1 <= k < |p| ==> IsDir(fs, p[..k])
    decreases |p|
  {
    if |p| > 1 {
      var q := p[..|p| - 1];
      AncestorsOfEntry(fs, q);
      forall k | 1 <= k < |p|
        ensures IsDir(fs, p[..k])
      {
        if k < |q| {
          assert p[..k] == q[..k];
        }
      }
    }
  }

  /** Making one directory keeps the filesystem a tree. */
  lemma MakeDirValid(fs: Fs, p: Path)
    requires Valid(fs)
    ensures Valid(MakeDir(fs, p).fs)
  {
    var o := MakeDir(fs, p);
    if o.result.Ok? {
      forall r | r in o.fs.entries
        ensures r != [] && (|r| > 1 ==> IsDir(o.fs, r[..|r| - 1]))
      {
        if r != p && |r| > 1 {
          assert IsDir(fs, r[..|r| - 1]);
        }
      }
    }
  }

  /** `create_dir_all` keeps the filesystem a tree. */
  lemma {:induction false} CreateDirAllValid(fs: Fs, p: Path)
    requires Valid(fs)
    ensures Valid(CreateDirAll(fs, p).fs)
    decreases |p|
  {
    if p == [] || p in fs.entries || Parent(p).None? {
      return;
    }
    var q := p[..|p| - 1];
    CreateDirAllValid(fs, q);
    var up := CreateDirAll(fs, q);
    if up.result.Ok? {
      MakeDirValid(up.fs, p);
    }
  }

  /** When `create_dir_all(p)` succeeds on a tree, `p` and every non-empty
      ancestor of `p` is a directory. */
  lemma CreateDirAllMakesAncestors(fs: Fs, p: Path)
    requires Valid(fs) && CreateDirAll(fs, p).result.Ok?
    ensures forall k :: 1 <= k <= |p| ==> IsDir(CreateDirAll(fs, p).fs, p[..k])
  {
    var o := CreateDirAll(fs, p);
    if p != [] {
      CreateDirAllValid(fs, p);
      AncestorsOfEntry(o.fs, p);
      assert p[..|p|] == p;
    }
  }

  /** Creating a file keeps the filesystem a tree. */
  lemma CreateFileValid(fs: Fs, p: Path)
    requires Valid(fs)
    ensures Valid(CreateFile(fs, p).fs)
  {
    var o := CreateFile(fs, p);
    if o.result.Ok? {
      forall r | r in o.fs.entries
        ensures r != [] && (|r| > 1 ==> IsDir(o.fs, r[..|r| - 1]))
      {
        if r != p && |r| > 1 {
          assert IsDir(fs, r[..|r| - 1]);
        }
      }
    }
  }

  /** Replacing a file's contents keeps the filesystem a tree. */
  lemma WriteFileValid(fs: Fs, p: Path, text: string)
    requires Valid(fs) && p in fs.entries && fs.entries[p].RegularFile?
    ensures Valid(fs.(entries := fs.entries[p := RegularFile(text)]))
  {
    var fs' := fs.(entries := fs.entries[p := RegularFile(text)]);
    forall r | r in fs'.entries
      ensures r != [] && (|r| > 1 ==> IsDir(fs', r[..|r| - 1]))
    {
      if |r| > 1 {
        assert IsDir(fs, r[..|r| - 1]);
      }
    }
  }

  /** Every non-empty prefix of `p` is `Creatable`. */
  predicate PathCreatable(fs: Fs, p: Path) {
    forall k :: 1 <= k <= |p| ==> Creatable(fs, p[..k])
  }

  lemma PathCreatableStep(fs: Fs, p: Path)
    requires p != []
    ensures PathCreatable(fs, p) <==> PathCreatable(fs, p[..|p| - 1]) && Creatable(fs, p)
  {
    var q := p[..|p| - 1];
    assert forall k :: 1 <= k <= |q| ==> p[..k] == q[..k];
    assert p[..|p|] == p;
  }

  /** With the filesystem a tree, `create_dir_all(p)` succeeds exactly when
      every non-empty prefix of `p` is an existing directory or can be
      created. */
  lemma {:induction false} CreateDirAllSucceedsIff(fs: Fs, p: Path)
    requires Valid(fs)
    ensures CreateDirAll(fs, p).result.Ok? <==> PathCreatable(fs, p)
    decreases |p|
  {
    if p == [] {
    } else if p in fs.entries {
      PathCreatableStep(fs, p);
      if fs.entries[p].Directory? {
        AncestorsOfEntry(fs, p);
        assert PathCreatable(fs, p) by {
          forall k | 1 <= k <= |p|
            ensures Creatable(fs, p[..k])
          {
            if k == |p| { assert p[..k] == p; }
          }
        }
      }
    } else if Parent(p).None? {
      PathCreatableStep(fs, p);
    } else {
      var q := p[..|p| - 1];
      CreateDirAllSucceedsIff(fs, q);
      PathCreatableStep(fs, p);
      var up := CreateDirAll(fs, q);
      assert CreateDirAll(fs, p) == (if up.result.Err? then up else MakeDir(up.fs, p));
      if up.result.Ok? {
        assert !IsAncestorOrSelf(p, q);
        assert ContainerExists(up.fs, p);
        assert MakeDir(up.fs, p).result.Ok? <==> p !in fs.denied;
      }
    }
  }
}
