/**
 * What a directory listing is, and what each of the two scans makes of one.
 * The functions here are the specification the scan iterators are proved
 * against: a scan is a filter over the listing followed by a conversion of
 * each kept entry into a vertex, in listing order.
 */
module Listing {
  import opened Wrappers
  import opened Paths
  import opened Vertices

  /** What an entry's metadata says it is (metadata is read without following links). */
  datatype FileType = RegularFile | Dir | Other

  /**
   * One item of a `ReadDir`: an entry that failed to read, or an entry with
   * its name and its metadata (`None` when reading the metadata failed).
   */
  datatype Entry =
    | Unreadable
    | Readable(name: string, metadata: Option<FileType>)

  /**
   * The filesystem beneath the origin: the listing of every directory that
   * can be opened, keyed by its path relative to the origin.
   */
  type Tree = map<string, seq<Entry>>

  /** Directory names the subdirectory scan treats as non-existent. */
  predicate Excluded(name: string)
  {
    name == ".git" || name == ".vscode" || name == "target"
  }

  /** Entries of a listing that an operating system produces. */
  predicate ValidListing(entries: seq<Entry>)
  {
    forall i :: 0 <= i < |entries| && entries[i].Readable? ==> ValidName(entries[i].name)
  }

  /** The entry is kept by the file scan: it read, its metadata read, and it is a regular file. */
  predicate KeepsFile(e: Entry)
  {
    e.Readable? && e.metadata == Some(RegularFile)
  }

  /** The entry is kept by the subdirectory scan: a readable directory not excluded by name. */
  predicate KeepsSubdirectory(e: Entry)
  {
    e.Readable? && e.metadata == Some(Dir) && !Excluded(e.name)
  }

  /** The file vertex for the entry `name` of directory `dir`. */
  function ScannedFile(dir: DirectoryVertex, name: string): FileVertex
  {
    FileVertex(name, Extension(name), PathJoin(dir.path, name))
  }

  /** The directory vertex for the entry `name` of directory `dir`. */
  function ScannedDirectory(dir: DirectoryVertex, name: string): DirectoryVertex
  {
    DirectoryVertex(name, PathJoin(dir.path, name))
  }

  /** What the file scan yields for one entry. */
  function FileStep(dir: DirectoryVertex, e: Entry): seq<FilesystemVertex>
  {
    if KeepsFile(e) then [File(ScannedFile(dir, e.name))] else []
  }

  /** What the subdirectory scan yields for one entry. */
  function SubdirectoryStep(dir: DirectoryVertex, e: Entry): seq<FilesystemVertex>
  {
    if KeepsSubdirectory(e) then [Directory(ScannedDirectory(dir, e.name))] else []
  }

  /** Everything the file scan of `dir` yields over `entries`, in order. */
  function FileScan(dir: DirectoryVertex, entries: seq<Entry>): seq<FilesystemVertex>
  {
    if entries == [] then []
    else FileScan(dir, entries[..|entries| - 1]) + FileStep(dir, entries[|entries| - 1])
  }

  /** Everything the subdirectory scan of `dir` yields over `entries`, in order. */
  function SubdirectoryScan(dir: DirectoryVertex, entries: seq<Entry>): seq<FilesystemVertex>
  {
    if entries == [] then []
    else SubdirectoryScan(dir, entries[..|entries| - 1]) + SubdirectoryStep(dir, entries[|entries| - 1])
  }

  /** Scanning one more entry adds what that entry yields. */
  lemma FileScanSnoc(dir: DirectoryVertex, entries: seq<Entry>, e: Entry)
    ensures FileScan(dir, entries + [e]) == FileScan(dir, entries) + FileStep(dir, e)
  {
    assert (entries + [e])[..|entries|] == entries;
  }

  lemma SubdirectoryScanSnoc(dir: DirectoryVertex, entries: seq<Entry>, e: Entry)
    ensures SubdirectoryScan(dir, entries + [e]) == SubdirectoryScan(dir, entries) + SubdirectoryStep(dir, e)
  {
    assert (entries + [e])[..|entries|] == entries;
  }

  /** Scanning a listing in two pieces yields the two scans one after the other. */
  lemma {:induction false} FileScanAppend(dir: DirectoryVertex, a: seq<Entry>, b: seq<Entry>)
    ensures FileScan(dir, a + b) == FileScan(dir, a) + FileScan(dir, b)
    decreases |b|
  {
    if b != [] {
      var b' := b[..|b| - 1];
      assert (a + b)[..|a + b| - 1] == a + b';
      assert (a + b)[|a + b| - 1] == b[|b| - 1];
      FileScanAppend(dir, a, b');
    } else {
      assert a + b == a;
    }
  }

  lemma {:induction false} SubdirectoryScanAppend(dir: DirectoryVertex, a: seq<Entry>, b: seq<Entry>)
    ensures SubdirectoryScan(dir, a + b) == SubdirectoryScan(dir, a) + SubdirectoryScan(dir, b)
    decreases |b|
  {
    if b != [] {
      var b' := b[..|b| - 1];
      assert (a + b)[..|a + b| - 1] == a + b';
      assert (a + b)[|a + b| - 1] == b[|b| - 1];
      SubdirectoryScanAppend(dir, a, b');
    } else {
      assert a + b == a;
    }
  }

  /**
   * Scanning the window `entries[c0..c1]` connects the scans of the two
   * prefixes and of the two suffixes: a cursor moved from `c0` to `c1`
   * has yielded exactly the window's scan, taken from the front of what
   * remained.
   */
  lemma FileScanWindow(dir: DirectoryVertex, entries: seq<Entry>, c0: nat, c1: nat)
    requires c0 <= c1 <= |entries|
    ensures FileScan(dir, entries[..c1]) == FileScan(dir, entries[..c0]) + FileScan(dir, entries[c0..c1])
    ensures FileScan(dir, entries[c0..]) == FileScan(dir, entries[c0..c1]) + FileScan(dir, entries[c1..])
  {
    assert entries[..c1] == entries[..c0] + entries[c0..c1];
    FileScanAppend(dir, entries[..c0], entries[c0..c1]);
    assert entries[c0..] == entries[c0..c1] + entries[c1..];
    FileScanAppend(dir, entries[c0..c1], entries[c1..]);
  }

  lemma SubdirectoryScanWindow(dir: DirectoryVertex, entries: seq<Entry>, c0: nat, c1: nat)
    requires c0 <= c1 <= |entries|
    ensures SubdirectoryScan(dir, entries[..c1]) == SubdirectoryScan(dir, entries[..c0]) + SubdirectoryScan(dir, entries[c0..c1])
    ensures SubdirectoryScan(dir, entries[c0..]) == SubdirectoryScan(dir, entries[c0..c1]) + SubdirectoryScan(dir, entries[c1..])
  {
    assert entries[..c1] == entries[..c0] + entries[c0..c1];
    SubdirectoryScanAppend(dir, entries[..c0], entries[c0..c1]);
    assert entries[c0..] == entries[c0..c1] + entries[c1..];
    SubdirectoryScanAppend(dir, entries[c0..c1], entries[c1..]);
  }

  /**
   * The file scan yields exactly the vertices of the entries that are
   * readable regular files: each such entry gives one, and nothing else
   * appears.
   */
  lemma {:induction false} FileScanMembers(dir: DirectoryVertex, entries: seq<Entry>, v: FilesystemVertex)
    ensures v in FileScan(dir, entries) <==>
              exists i :: 0 <= i < |entries| && KeepsFile(entries[i]) && v == File(ScannedFile(dir, entries[i].name))
    decreases |entries|
  {
    if entries != [] {
      var init := entries[..|entries| - 1];
      FileScanMembers(dir, init, v);
      if v in FileScan(dir, init) {
        var i :| 0 <= i < |init| && KeepsFile(init[i]) && v == File(ScannedFile(dir, init[i].name));
        assert entries[i] == init[i];
      }
      if exists i :: 0 <= i < |entries| && KeepsFile(entries[i]) && v == File(ScannedFile(dir, entries[i].name)) {
        var i :| 0 <= i < |entries| && KeepsFile(entries[i]) && v == File(ScannedFile(dir, entries[i].name));
        if i < |init| {
          assert init[i] == entries[i];
        }
      }
    }
  }

  /**
   * The subdirectory scan yields exactly the vertices of the readable
   * directory entries whose names are not excluded.
   */
  lemma {:induction false} SubdirectoryScanMembers(dir: DirectoryVertex, entries: seq<Entry>, v: FilesystemVertex)
    ensures v in SubdirectoryScan(dir, entries) <==>
              exists i :: 0 <= i < |entries| && KeepsSubdirectory(entries[i]) && v == Directory(ScannedDirectory(dir, entries[i].name))
    decreases |entries|
  {
    if entries != [] {
      var init := entries[..|entries| - 1];
      SubdirectoryScanMembers(dir, init, v);
      if v in SubdirectoryScan(dir, init) {
        var i :| 0 <= i < |init| && KeepsSubdirectory(init[i]) && v == Directory(ScannedDirectory(dir, init[i].name));
        assert entries[i] == init[i];
      }
      if exists i :: 0 <= i < |entries| && KeepsSubdirectory(entries[i]) && v == Directory(ScannedDirectory(dir, entries[i].name)) {
        var i :| 0 <= i < |entries| && KeepsSubdirectory(entries[i]) && v == Directory(ScannedDirectory(dir, entries[i].name));
        if i < |init| {
          assert init[i] == entries[i];
        }
      }
    }
  }

  /** The subdirectory scan never yields a vertex named `.git`, `.vscode` or `target`. */
  lemma SubdirectoryScanExcludes(dir: DirectoryVertex, entries: seq<Entry>, v: FilesystemVertex)
    requires v in SubdirectoryScan(dir, entries)
    ensures v.Directory? && v.dir.name != ".git" && v.dir.name != ".vscode" && v.dir.name != "target"
  {
    SubdirectoryScanMembers(dir, entries, v);
  }

  /**
   * Every file the scan of a directory yields is named after its entry, lies
   * directly beneath the directory, and carries its name's extension.
   */
  lemma FileScanShape(dir: DirectoryVertex, entries: seq<Entry>, v: FilesystemVertex)
    requires ValidPath(dir.path) && ValidListing(entries)
    requires v in FileScan(dir, entries)
    ensures v.File? && ValidPath(v.file.path)
    ensures SplitLast(v.file.path) == (dir.path, v.file.name)
    ensures v.file.extension == Extension(v.file.name)
  {
    FileScanMembers(dir, entries, v);
    var i :| 0 <= i < |entries| && KeepsFile(entries[i]) && v == File(ScannedFile(dir, entries[i].name));
    SplitJoin(dir.path, entries[i].name);
  }

  /** Every directory the scan of a directory yields is named after its entry and lies directly beneath it. */
  lemma SubdirectoryScanShape(dir: DirectoryVertex, entries: seq<Entry>, v: FilesystemVertex)
    requires ValidPath(dir.path) && ValidListing(entries)
    requires v in SubdirectoryScan(dir, entries)
    ensures v.Directory? && ValidPath(v.dir.path)
    ensures SplitLast(v.dir.path) == (dir.path, v.dir.name)
  {
    SubdirectoryScanMembers(dir, entries, v);
    var i :| 0 <= i < |entries| && KeepsSubdirectory(entries[i]) && v == Directory(ScannedDirectory(dir, entries[i].name));
    SplitJoin(dir.path, entries[i].name);
  }
}
