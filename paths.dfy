/**
 * Relative paths as the scans build them: `PathBuf::new()` extended with the
 * parent directory's path and then the entry's name, and the file extension
 * as `std::path::Path::extension` computes it for a single path component.
 */
module Paths {
  import opened Wrappers

  /** Index of the last occurrence of `c` in `s`, if any. */
  function LastIndexOf(s: string, c: char): (r: Option<nat>)
    ensures r.None? <==> c !in s
    ensures r.Some? ==> r.value < |s| && s[r.value] == c && c !in s[r.value + 1..]
  {
    if s == [] then None
    else if s[|s| - 1] == c then Some(|s| - 1)
    else
      var init := s[..|s| - 1];
      var r := LastIndexOf(init, c);
      assert s == init + [s[|s| - 1]];
      assert r.Some? ==> s[r.value + 1..] == init[r.value + 1..] + [s[|s| - 1]];
      r
  }

  /** The last `c` of `s + [c] + t` is the one between them when `t` holds none. */
  lemma {:induction false} LastIndexOfSeparator(s: string, c: char, t: string)
    requires c !in t
    ensures LastIndexOf(s + [c] + t, c) == Some(|s|)
    decreases |t|
  {
    var x := s + [c] + t;
    if t == [] {
      assert x[|x| - 1] == c;
    } else {
      var init := t[..|t| - 1];
      assert x[..|x| - 1] == s + [c] + init;
      assert x[|x| - 1] == t[|t| - 1] != c;
      LastIndexOfSeparator(s, c, init);
    }
  }

  /**
   * `PathBuf::new()` pushed with `parent` and then with `name` (Unix rules):
   * an absolute `name` replaces the buffer, an empty buffer takes `name` as
   * it is, and a separator is inserted only when the buffer does not already
   * end in one.
   */
  function PathJoin(parent: string, name: string): string
  {
    if name != [] && name[0] == '/' then name
    else if parent == [] then name
    else if parent[|parent| - 1] == '/' then parent + name
    else parent + "/" + name
  }

  /** A name a directory listing can return: one non-empty component, not `.` or `..`. */
  predicate ValidName(name: string)
  {
    name != [] && '/' !in name && name != "." && name != ".."
  }

  /** Splits a path at its last separator into (parent, last component). */
  function SplitLast(path: string): (r: (string, string))
    ensures path != [] ==> |r.0| < |path|
    ensures '/' !in r.1
  {
    match LastIndexOf(path, '/')
    case None => ("", path)
    case Some(i) => (path[..i], path[i + 1..])
  }

  /** A path relative to the origin: valid names separated by single `/`, or empty (the origin itself). */
  predicate ValidPath(path: string)
    decreases |path|
  {
    match LastIndexOf(path, '/')
    case None => path == [] || ValidName(path)
    case Some(i) => ValidName(path[i + 1..]) && path[..i] != [] && ValidPath(path[..i])
  }

  lemma {:induction false} ValidPathShape(path: string)
    requires ValidPath(path) && path != []
    ensures path[0] != '/' && path[|path| - 1] != '/'
    decreases |path|
  {
    match LastIndexOf(path, '/')
    case None =>
    case Some(i) =>
      ValidPathShape(path[..i]);
      assert path[|path| - 1] == path[i + 1..][|path| - i - 2];
  }

  /**
   * Joining a valid name onto a valid path gives a valid path whose last
   * component is that name and whose parent is that path: the path of every
   * scanned vertex is its directory's path followed by its name.
   */
  lemma {:induction false} SplitJoin(parent: string, name: string)
    requires ValidPath(parent) && ValidName(name)
    ensures SplitLast(PathJoin(parent, name)) == (parent, name)
    ensures ValidPath(PathJoin(parent, name))
  {
    var p := PathJoin(parent, name);
    if parent == [] {
      assert p == name;
      assert LastIndexOf(p, '/') == None;
    } else {
      ValidPathShape(parent);
      assert p == parent + "/" + name;
      LastIndexOfSeparator(parent, '/', name);
      assert p[|parent| + 1..] == name;
      assert p[..|parent|] == parent;
    }
  }

  /** The converse round trip: a non-empty valid path is its parent joined with its last component. */
  lemma {:induction false} JoinSplit(path: string)
    requires ValidPath(path) && path != []
    ensures PathJoin(SplitLast(path).0, SplitLast(path).1) == path
  {
    ValidPathShape(path);
    match LastIndexOf(path, '/')
    case None =>
    case Some(i) =>
      var (parent, last) := SplitLast(path);
      assert path == parent + "/" + last;
      if parent != [] {
        ValidPathShape(parent);
      }
  }

  /**
   * `Path::new(name).extension()` for a single component: the text after the
   * last `.`, absent when there is no `.`, when the only `.` leads the name,
   * and for `..` (which has no file name).
   */
  function Extension(name: string): Option<string>
  {
    if name == ".." then None
    else match LastIndexOf(name, '.')
      case None => None
      case Some(i) => if i == 0 then None else Some(name[i + 1..])
  }

  /**
   * The extension is absent exactly when the name is `..` or has no `.`
   * after its first character; otherwise it is the dot-free text that ends
   * the name right after a `.` that is not the name's first character.
   */
  lemma ExtensionSpec(name: string)
    ensures Extension(name).None? <==> name == ".." || forall j :: 0 < j < |name| ==> name[j] != '.'
    ensures Extension(name).Some? ==>
              var ext := Extension(name).value;
              |ext| + 1 < |name| && '.' !in ext &&
              name[|name| - |ext| - 1] == '.' && name[|name| - |ext|..] == ext
  {
  }

  /** A name a listing returns has no extension exactly when it has no `.` after its first character. */
  lemma NoExtension(name: string)
    requires ValidName(name)
    ensures Extension(name).None? <==> forall j :: 0 < j < |name| ==> name[j] != '.'
  {
    ExtensionSpec(name);
  }

  /** A stem and an extension joined by a dot give that extension back. */
  lemma {:induction false} ExtensionOfStem(stem: string, ext: string)
    requires stem != [] && '.' !in ext && stem + "." + ext != ".."
    ensures Extension(stem + "." + ext) == Some(ext)
  {
    var name := stem + "." + ext;
    assert name[|stem|] == '.';
    assert name[|stem| + 1..] == ext;
    ExtensionSpec(name);
  }

  lemma ExtensionExamples()
    ensures Extension("a.b.c") == Some("c")
    ensures Extension("x.txt") == Some("txt")
    ensures Extension("foo.") == Some("")
  {
    assert "a.b" + "." + "c" == "a.b.c";
    ExtensionOfStem("a.b", "c");
    assert "x" + "." + "txt" == "x.txt";
    ExtensionOfStem("x", "txt");
    assert "foo" + "." + "" == "foo.";
    ExtensionOfStem("foo", "");
  }

  lemma NoExtensionExamples()
    ensures Extension(".git") == None
    ensures Extension("b") == None
  {
    ExtensionSpec(".git");
    ExtensionSpec("b");
  }
}
