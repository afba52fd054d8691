/**
 * A small filesystem: the origin holds a directory `a` and a file `b`, and
 * `a` holds `x.txt`. The lemmas evaluate its scans; the methods drive a
 * query through the adapter's entry points over it.
 */
module Scenario {
  import opened Wrappers
  import opened Paths
  import opened Vertices
  import opened Listing
  import opened Interpreter
  import opened Iterators
  import opened Edges
  import opened Adapter

  const RootListing: seq<Entry> := [Readable("a", Some(Dir)), Readable("b", Some(RegularFile))]
  const ListingOfA: seq<Entry> := [Readable("x.txt", Some(RegularFile))]

  /** Scanning the origin for subdirectories yields `a` at path `a`. */
  lemma ScenarioSubdirectories()
    ensures SubdirectoryScan(OriginVertex, RootListing) == [Directory(DirectoryVertex("a", "a"))]
  {
    var e0, e1 := RootListing[0], RootListing[1];
    assert RootListing == [] + [e0] + [e1];
    SubdirectoryScanSnoc(OriginVertex, [], e0);
    SubdirectoryScanSnoc(OriginVertex, [e0], e1);
    assert !Excluded("a");
    assert PathJoin("", "a") == "a";
  }

  /** Scanning the origin for files yields `b` at path `b`, without an extension. */
  lemma ScenarioRootFiles()
    ensures FileScan(OriginVertex, RootListing) == [File(FileVertex("b", None, "b"))]
  {
    var e0, e1 := RootListing[0], RootListing[1];
    assert RootListing == [] + [e0] + [e1];
    FileScanSnoc(OriginVertex, [], e0);
    FileScanSnoc(OriginVertex, [e0], e1);
    NoExtensionExamples();
    assert PathJoin("", "b") == "b";
  }

  /** Scanning `a` for files yields `x.txt` at path `a/x.txt`, with extension `txt`. */
  lemma ScenarioFilesOfA()
    ensures FileScan(DirectoryVertex("a", "a"), ListingOfA) == [File(FileVertex("x.txt", Some("txt"), "a/x.txt"))]
  {
    assert ListingOfA == [] + [ListingOfA[0]];
    FileScanSnoc(DirectoryVertex("a", "a"), [], ListingOfA[0]);
    ExtensionExamples();
    var parent, name := "a", "x.txt";
    assert name[0] != '/' && parent[|parent| - 1] != '/';
    assert parent + "/" + name == "a/x.txt";
  }

  /** The example filesystem beneath the origin. */
  const ScenarioTree: Tree := map["" := RootListing, "a" := ListingOfA]

  /** The start edge yields the origin directory. */
  method ScenarioStart(adapter: FilesystemInterpreter) returns (origin: FilesystemVertex)
    ensures origin == Directory(OriginVertex)
  {
    var start := adapter.ResolveStartingVertices("OriginDirectory", map[]);
    var first := start.Next();
    origin := first.value;
  }

  /**
   * Following `out_Directory_ContainsFile` from the origin pairs it with a
   * fresh file iterator that has the file `b`, and nothing else, to come.
   */
  method ScenarioOriginFiles(adapter: FilesystemInterpreter, origin: FilesystemVertex)
    returns (files: DirectoryContainsFileIterator)
    requires adapter.tree == ScenarioTree && origin == Directory(OriginVertex)
    ensures fresh(files) && files.Valid()
    ensures files.Pending() == [File(FileVertex("b", None, "b"))]
  {
    assert ScenarioTree[""] == RootListing;
    var contexts := [DataContext(0, Some(origin))];
    var edges := adapter.ResolveNeighbors(contexts, "Directory", "out_Directory_ContainsFile", map[]);
    assert ContextResolvable(edges.tree, contexts[0]);
    var pair := edges.Next();
    var neighbors := pair.value.1;
    assert edges.handler == ContainsFileHandler && neighbors.Files?;
    ScenarioRootFiles();
    files := neighbors.files;
  }

  /**
   * Following `out_Directory_Subdirectory` from the origin pairs it with a
   * fresh subdirectory iterator that has `a`, and nothing else, to come.
   */
  method ScenarioOriginSubdirectories(adapter: FilesystemInterpreter, origin: FilesystemVertex)
    returns (subdirs: SubdirectoryIterator)
    requires adapter.tree == ScenarioTree && origin == Directory(OriginVertex)
    ensures fresh(subdirs) && subdirs.Valid()
    ensures subdirs.Pending() == [Directory(DirectoryVertex("a", "a"))]
  {
    assert ScenarioTree[""] == RootListing;
    var contexts := [DataContext(0, Some(origin))];
    var edges := adapter.ResolveNeighbors(contexts, "Directory", "out_Directory_Subdirectory", map[]);
    assert ContextResolvable(edges.tree, contexts[0]);
    var pair := edges.Next();
    var neighbors := pair.value.1;
    assert edges.handler == SubdirectoryHandler && neighbors.Subdirectories?;
    ScenarioSubdirectories();
    subdirs := neighbors.subdirs;
  }

  /**
   * Following `out_Directory_ContainsFile` from `a` pairs it with a fresh
   * file iterator that has `x.txt`, and nothing else, to come.
   */
  method ScenarioFilesUnderA(adapter: FilesystemInterpreter, dir: FilesystemVertex)
    returns (files: DirectoryContainsFileIterator)
    requires adapter.tree == ScenarioTree && dir == Directory(DirectoryVertex("a", "a"))
    ensures fresh(files) && files.Valid()
    ensures files.Pending() == [File(FileVertex("x.txt", Some("txt"), "a/x.txt"))]
  {
    assert ScenarioTree["a"] == ListingOfA;
    var contexts := [DataContext(2, Some(dir))];
    var edges := adapter.ResolveNeighbors(contexts, "Directory", "out_Directory_ContainsFile", map[]);
    assert ContextResolvable(edges.tree, contexts[0]);
    var pair := edges.Next();
    var neighbors := pair.value.1;
    assert edges.handler == ContainsFileHandler && neighbors.Files?;
    ScenarioFilesOfA();
    files := neighbors.files;
  }

  /** Pulling from a file iterator with one vertex alone to come yields that vertex. */
  method ScenarioPull(files: DirectoryContainsFileIterator, expected: FilesystemVertex) returns (file: FilesystemVertex)
    requires files.Valid() && files.Pending() == [expected]
    modifies files
    ensures file == expected
  {
    ghost var before := files.Pending();
    var found := files.Next();
    assert before[0] == ([found.value] + files.Pending())[0] == found.value;
    file := found.value;
  }

  /** Pulling from a subdirectory iterator with one vertex alone to come yields that vertex. */
  method ScenarioPullDirectory(subdirs: SubdirectoryIterator, expected: FilesystemVertex) returns (dir: FilesystemVertex)
    requires subdirs.Valid() && subdirs.Pending() == [expected]
    modifies subdirs
    ensures dir == expected
  {
    ghost var before := subdirs.Pending();
    var found := subdirs.Next();
    assert before[0] == ([found.value] + subdirs.Pending())[0] == found.value;
    dir := found.value;
  }

  /**
   * A query over the example tree, driven through the adapter: start at the
   * origin, follow `out_Directory_ContainsFile` from it, pull the first
   * file, and resolve that file's `extension`.
   */
  method ScenarioQuery() returns (origin: FilesystemVertex, file: FilesystemVertex, extension: FieldValue)
    ensures origin == Directory(OriginVertex)
    ensures file == File(FileVertex("b", None, "b"))
    ensures extension == Null
  {
    var adapter := new FilesystemInterpreter("/repo", ScenarioTree);
    origin := ScenarioStart(adapter);
    var files := ScenarioOriginFiles(adapter, origin);
    file := ScenarioPull(files, File(FileVertex("b", None, "b")));
    var contexts := [DataContext(1, Some(file))];
    assert VariantAgrees("File", "extension", contexts[0].activeVertex.value);
    var values := ResolveProperty(contexts, "File", "extension");
    extension := values[0].1;
  }

  /**
   * The nested query over the example tree: start at the origin, follow
   * `out_Directory_Subdirectory` to `a`, follow `out_Directory_ContainsFile`
   * from `a`, pull the first file, and resolve its `path` and `extension`.
   */
  method ScenarioNestedQuery() returns (dir: FilesystemVertex, file: FilesystemVertex, path: FieldValue, extension: FieldValue)
    ensures dir == Directory(DirectoryVertex("a", "a"))
    ensures file == File(FileVertex("x.txt", Some("txt"), "a/x.txt"))
    ensures path == Str("a/x.txt") && extension == Str("txt")
  {
    var adapter := new FilesystemInterpreter("/repo", ScenarioTree);
    var origin := ScenarioStart(adapter);
    var subdirs := ScenarioOriginSubdirectories(adapter, origin);
    dir := ScenarioPullDirectory(subdirs, Directory(DirectoryVertex("a", "a")));
    var files := ScenarioFilesUnderA(adapter, dir);
    file := ScenarioPull(files, File(FileVertex("x.txt", Some("txt"), "a/x.txt")));
    var contexts := [DataContext(3, Some(file))];
    assert VariantAgrees("File", "path", contexts[0].activeVertex.value);
    var paths := ResolveProperty(contexts, "File", "path");
    path := paths[0].1;
    var extensions := ResolveProperty(contexts, "File", "extension");
    extension := extensions[0].1;
  }
}
