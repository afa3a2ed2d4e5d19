/**
 * The part of Rust's `std::path` that resolving a log path relies on, for Unix paths.
 * A path is given as the sequence of components that `Path::components` yields;
 * rendering it back (`Path::display`) joins the components with `/`.
 */
module Paths {
  import opened Wrappers

  /** One component of a path. */
  datatype Component = RootDir | CurDir | ParentDir | Normal(name: string)

  /** A path, as its sequence of components. */
  type PathBuf = seq<Component>

  const Separator: char := '/'

  /** A normal component's name: not empty, not `.` or `..`, no separator inside. */
  predicate ValidName(s: string) {
    s != [] && s != "." && s != ".." && Separator !in s
  }

  /** What `components()` can yield: a root or a `.` only first, every name valid. */
  predicate WellFormed(p: PathBuf) {
    forall i :: 0 <= i < |p| ==>
      (p[i].RootDir? ==> i == 0) &&
      (p[i].CurDir? ==> i == 0) &&
      (p[i].Normal? ==> ValidName(p[i].name))
  }

  /** The text of one component. */
  function Text(c: Component): string {
    match c
    case RootDir => [Separator]
    case CurDir => "."
    case ParentDir => ".."
    case Normal(name) => name
  }

  /** The displayed path: components joined by `/`, with no separator after the root. */
  function Render(p: PathBuf): string
    decreases |p|
  {
    if |p| == 0 then ""
    else if |p| == 1 then Text(p[0])
    else Render(p[..|p| - 1]) + (if p[|p| - 2].RootDir? then "" else [Separator]) + Text(p[|p| - 1])
  }

  /** `Path::parent`: the path without its last component, none for the root or the empty path. */
  function Parent(p: PathBuf): Option<PathBuf> {
    if |p| == 0 || p[|p| - 1].RootDir? then None else Some(p[..|p| - 1])
  }

  /** `Path::file_name`: the last component when it is a normal one. */
  function FileName(p: PathBuf): Option<string> {
    if |p| > 0 && p[|p| - 1].Normal? then Some(p[|p| - 1].name) else None
  }

  /**
   * `Path::join` of a directory and a file name, on rendered paths (`PathBuf::push`):
   * an absolute file replaces the directory; a separator is inserted only when the
   * directory is not empty and does not already end with one.
   */
  function Join(dir: string, file: string): string {
    if |file| > 0 && file[0] == Separator then file
    else if dir == [] || dir[|dir| - 1] == Separator then dir + file
    else dir + [Separator] + file
  }

  /** A rendered well-formed path is empty only for no components, and ends in `/` only at the root. */
  lemma RenderEnd(q: PathBuf)
    requires WellFormed(q) && |q| > 0
    ensures Render(q) != []
    ensures Render(q)[|Render(q)| - 1] == Separator <==> q[|q| - 1].RootDir?
  {
    var last := q[|q| - 1];
    var t := Text(last);
    assert t != [];
    var r := Render(q);
    if |q| > 1 {
      var sep: string := if q[|q| - 2].RootDir? then "" else [Separator];
      assert r == Render(q[..|q| - 1]) + sep + t;
    }
    assert r[|r| - 1] == t[|t| - 1];
    if last.Normal? {
      assert ValidName(last.name);
      assert t[|t| - 1] in last.name;
    }
  }

  /** A valid name neither starts nor ends with a separator. */
  lemma ValidNameEnds(n: string)
    requires ValidName(n)
    ensures n[0] != Separator && n[|n| - 1] != Separator
  {
    assert n[0] in n && n[|n| - 1] in n;
  }

  /** Appending a name to a path renders as joining the name to the rendered path. */
  lemma JoinRender(q: PathBuf, n: string)
    requires WellFormed(q) && ValidName(n)
    ensures Join(Render(q), n) == Render(q + [Normal(n)])
  {
    ValidNameEnds(n);
    var p := q + [Normal(n)];
    assert p[..|p| - 1] == q;
    if |q| > 0 {
      RenderEnd(q);
      assert p[|p| - 2] == q[|q| - 1];
    }
  }
}
