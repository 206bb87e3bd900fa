/** Unix paths as Rust's `std::path` sees them: a path is the sequence of its
    components, and two `PathBuf`s are equal exactly when their components
    are. `Components` turns a path string into that sequence (repeated and
    trailing separators vanish, an interior `.` vanishes, a leading `.` is
    kept), `Display` turns a well-formed component sequence back into text. */
module Paths {
  import opened Wrappers

  datatype Component = RootDir | CurDir | ParentDir | Normal(name: string)

  type Path = seq<Component>

  const Separator: char := '/'

  /** A name that can stand as a `Normal` component. */
  predicate ValidName(n: string) {
    n != "" && n != "." && n != ".." && Separator !in n
  }

  /** Components that may appear after the first position. */
  predicate IsTail(c: Component) {
    c.ParentDir? || (c.Normal? && ValidName(c.name))
  }

  predicate AllTail(t: Path) {
    forall i :: 0 <= i < |t| ==> IsTail(t[i])
  }

  /** The shape of every sequence `Components` produces: an optional leading
      `RootDir` or `CurDir`, then parent and normal components only. */
  predicate WellFormed(p: Path) {
    p == [] || ((p[0].RootDir? || p[0].CurDir? || IsTail(p[0])) && AllTail(p[1..]))
  }

  /** The pieces of `s` between separators, empty pieces included. */
  function JoinPieces(pieces: seq<string>): string
    requires |pieces| >= 1
  {
    if |pieces| == 1 then pieces[0] else pieces[0] + "/" + JoinPieces(pieces[1..])
  }

  function Split(s: string): (pieces: seq<string>)
    ensures |pieces| >= 1
    ensures forall i :: 0 <= i < |pieces| ==> Separator !in pieces[i]
    ensures JoinPieces(pieces) == s
    decreases |s|
  {
    if s == [] then [""]
    else if s[0] == Separator then
      var rest := Split(s[1..]);
      assert ([""] + rest)[1..] == rest;
      [""] + rest
    else
      var rest := Split(s[1..]);
      var pieces := [[s[0]] + rest[0]] + rest[1..];
      assert pieces[1..] == rest[1..];
      assert s == [s[0]] + s[1..];
      pieces
  }

  /** The components one piece between separators contributes. */
  function Piece(piece: string): Path {
    if piece == "" || piece == "." then []
    else if piece == ".." then [ParentDir]
    else [Normal(piece)]
  }

  function Body(pieces: seq<string>): (t: Path)
    requires forall i :: 0 <= i < |pieces| ==> Separator !in pieces[i]
    ensures AllTail(t)
  {
    if pieces == [] then [] else Piece(pieces[0]) + Body(pieces[1..])
  }

  /** `Path::components` on Unix. */
  function Components(s: string): (p: Path)
    ensures WellFormed(p)
  {
    var pieces := Split(s);
    var root := |s| > 0 && s[0] == Separator;
    var body := Body(pieces);
    if root then
      assert pieces[0] == "" by { assert s == JoinPieces(pieces); SplitHead(s); }
      [RootDir] + body
    else if pieces[0] == "." then [CurDir] + body
    else body
  }

  /** The first piece of `s` is empty exactly when `s` starts with a separator. */
  lemma {:induction false} SplitHead(s: string)
    ensures Split(s)[0] == "" <==> (s == [] || s[0] == Separator)
  {
  }

  function Text(c: Component): string
    requires IsTail(c)
  {
    if c.ParentDir? then ".." else c.name
  }

  /** Tail components written out with separators between them. */
  function Names(t: Path): string
    requires AllTail(t)
  {
    if t == [] then ""
    else if |t| == 1 then Text(t[0])
    else Text(t[0]) + "/" + Names(t[1..])
  }

  /** How a `PathBuf` built from these components is written. */
  function Display(p: Path): string
    requires WellFormed(p)
  {
    if p == [] then ""
    else if p[0].RootDir? then "/" + Names(p[1..])
    else if p[0].CurDir? then (if |p| == 1 then "." else "." + "/" + Names(p[1..]))
    else Names(p)
  }

  /** `Path::parent`: the path without its last component, or nothing when
      the path is empty or ends at the root. */
  function Parent(p: Path): (q: Option<Path>)
    ensures q.Some? <==> p != [] && !p[|p| - 1].RootDir?
    ensures q.Some? ==> q.value + [p[|p| - 1]] == p
  {
    if p == [] || p[|p| - 1].RootDir? then None else Some(p[..|p| - 1])
  }

  /** `PathBuf::join` with a single relative name. */
  function Child(dir: Path, name: string): (p: Path)
    requires ValidName(name)
    ensures Parent(p) == Some(dir)
    ensures p[|p| - 1] == Normal(name)
    ensures WellFormed(dir) ==> WellFormed(p)
  {
    var p := dir + [Normal(name)];
    assert p[..|p| - 1] == dir;
    assert WellFormed(dir) && dir != [] ==> p[1..] == dir[1..] + [Normal(name)];
    p
  }

  // ---------------------------------------------------------------------
  // Round trip between text and components

  lemma {:induction false} SplitWithoutSeparator(a: string)
    requires Separator !in a
    ensures Split(a) == [a]
    decreases |a|
  {
    if a != [] {
      SplitWithoutSeparator(a[1..]);
      assert [a[0]] + a[1..] == a;
    }
  }

  lemma {:induction false} SplitAfterPiece(a: string, b: string)
    requires Separator !in a
    ensures Split(a + "/" + b) == [a] + Split(b)
    decreases |a|
  {
    if a == [] {
      assert a + "/" + b == "/" + b;
      assert ("/" + b)[1..] == b;
    } else {
      var s := a + "/" + b;
      assert s[0] == a[0];
      assert s[1..] == a[1..] + "/" + b;
      SplitAfterPiece(a[1..], b);
      assert [a[0]] + a[1..] == a;
    }
  }

  /** A tail component written out reads back as itself. */
  lemma PieceOfText(c: Component)
    requires IsTail(c)
    ensures Piece(Text(c)) == [c]
  {
  }

  lemma BodyCons(a: string, rest: seq<string>)
    requires Separator !in a
    requires forall i :: 0 <= i < |rest| ==> Separator !in rest[i]
    ensures Body([a] + rest) == Piece(a) + Body(rest)
  {
    assert ([a] + rest)[1..] == rest;
  }

  lemma {:induction false} BodyOfNames(t: Path)
    requires AllTail(t)
    ensures Body(Split(Names(t))) == t
    decreases |t|
  {
    if t == [] {
    } else if |t| == 1 {
      SplitWithoutSeparator(Text(t[0]));
      BodyCons(Text(t[0]), []);
      PieceOfText(t[0]);
    } else {
      var head := Text(t[0]);
      var rest := Split(Names(t[1..]));
      assert Names(t) == head + "/" + Names(t[1..]);
      SplitAfterPiece(head, Names(t[1..]));
      BodyCons(head, rest);
      BodyOfNames(t[1..]);
      PieceOfText(t[0]);
      assert [t[0]] + t[1..] == t;
    }
  }

  /** The first piece of written-out tail components is the first name. */
  lemma NamesHead(t: Path)
    requires AllTail(t) && t != []
    ensures Split(Names(t))[0] == Text(t[0])
  {
    if |t| == 1 {
      SplitWithoutSeparator(Text(t[0]));
    } else {
      SplitAfterPiece(Text(t[0]), Names(t[1..]));
    }
  }

  /** Text that starts with a separator followed by written-out tail
      components reads back as the root followed by those components. */
  lemma ComponentsOfRooted(t: Path)
    requires AllTail(t)
    ensures Components("/" + Names(t)) == [RootDir] + t
  {
    var s := "/" + Names(t);
    assert s == "" + "/" + Names(t);
    SplitAfterPiece("", Names(t));
    var rest := Split(Names(t));
    assert ([""] + rest)[1..] == rest;
    BodyOfNames(t);
  }

  /** Likewise for text that starts with "./". */
  lemma ComponentsOfCurrent(t: Path)
    requires AllTail(t) && t != []
    ensures Components("." + "/" + Names(t)) == [CurDir] + t
  {
    SplitAfterPiece(".", Names(t));
    var rest := Split(Names(t));
    assert (["."] + rest)[1..] == rest;
    BodyOfNames(t);
  }

  /** Reading back a written path gives the same components. */
  lemma ComponentsOfDisplay(p: Path)
    requires WellFormed(p)
    ensures Components(Display(p)) == p
  {
    if p == [] {
    } else if p[0].RootDir? {
      ComponentsOfRooted(p[1..]);
      assert [p[0]] + p[1..] == p;
    } else if p[0].CurDir? {
      if |p| == 1 {
        SplitWithoutSeparator(".");
      } else {
        ComponentsOfCurrent(p[1..]);
        assert [p[0]] + p[1..] == p;
      }
    } else {
      assert AllTail(p);
      BodyOfNames(p);
      NamesHead(p);
    }
  }

  lemma {:induction false} NamesSnoc(t: Path, c: Component)
    requires AllTail(t) && t != [] && IsTail(c)
    ensures AllTail(t + [c])
    ensures Names(t + [c]) == Names(t) + "/" + Text(c)
    decreases |t|
  {
    var u := t + [c];
    assert u[1..] == t[1..] + [c];
    if |t| > 1 {
      NamesSnoc(t[1..], c);
    }
  }

  /** Joining a name onto a relative path that starts with a name. */
  lemma DisplayChildOfRelative(dir: Path, name: string)
    requires AllTail(dir) && dir != [] && ValidName(name)
    ensures WellFormed(Child(dir, name))
    ensures Display(Child(dir, name)) == Display(dir) + "/" + name
  {
    var p := Child(dir, name);
    NamesSnoc(dir, Normal(name));
    assert Display(p) == Names(p);
  }

  /** Tail components followed by one more name, written out. */
  lemma NamesOfChild(t: Path, name: string)
    requires AllTail(t) && ValidName(name)
    ensures AllTail(t + [Normal(name)])
    ensures Names(t + [Normal(name)]) == if t == [] then name else Names(t) + "/" + name
  {
    if t == [] {
      assert t + [Normal(name)] == [Normal(name)];
    } else {
      NamesSnoc(t, Normal(name));
    }
  }

  /** Joining a name onto a path that starts at the root. */
  lemma DisplayChildOfRooted(t: Path, name: string)
    requires AllTail(t) && ValidName(name)
    ensures WellFormed([RootDir] + t + [Normal(name)])
    ensures Display([RootDir] + t + [Normal(name)]) ==
      if t == [] then "/" + name else "/" + Names(t) + "/" + name
  {
    var p := [RootDir] + t + [Normal(name)];
    var u := t + [Normal(name)];
    assert p[0] == RootDir && p[1..] == u;
    NamesOfChild(t, name);
  }

  /** Joining a name onto a path that starts at `.`. */
  lemma DisplayChildOfCurrent(t: Path, name: string)
    requires AllTail(t) && ValidName(name)
    ensures WellFormed([CurDir] + t + [Normal(name)])
    ensures Display([CurDir] + t + [Normal(name)]) ==
      if t == [] then "." + "/" + name else "." + "/" + Names(t) + "/" + name
  {
    var p := [CurDir] + t + [Normal(name)];
    var u := t + [Normal(name)];
    assert p[0] == CurDir && p[1..] == u;
    NamesOfChild(t, name);
  }

  /** `dir.join(name)` writes the name after the directory, adding a
      separator unless the directory is empty or is the root. */
  lemma DisplayChild(dir: Path, name: string)
    requires WellFormed(dir) && ValidName(name)
    ensures Display(Child(dir, name)) ==
      if dir == [] then name
      else if dir == [RootDir] then "/" + name
      else Display(dir) + "/" + name
  {
    if dir == [] {
      assert Child(dir, name) == [Normal(name)];
    } else if dir[0].RootDir? {
      assert dir == [RootDir] + dir[1..];
      DisplayChildOfRooted(dir[1..], name);
    } else if dir[0].CurDir? {
      assert dir == [CurDir] + dir[1..];
      DisplayChildOfCurrent(dir[1..], name);
    } else {
      DisplayChildOfRelative(dir, name);
    }
  }
}
