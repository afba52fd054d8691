/**
 * The three vertex iterators: the one-shot origin iterator and the two lazy
 * scans over one directory's listing. Each scan holds the listing the
 * directory handle would return and a cursor into it; `yielded` records
 * what the iterator has produced so far.
 */
module Iterators {
  import opened Wrappers
  import opened Paths
  import opened Vertices
  import opened Listing

  /** Yields the origin directory once, then nothing. */
  class OriginIterator {
    const originVertex: DirectoryVertex
    var produced: bool
    ghost var yielded: seq<FilesystemVertex>

    ghost predicate Valid()
      reads this
    {
      yielded == if produced then [Directory(originVertex)] else []
    }

    constructor (vertex: DirectoryVertex)
      ensures Valid() && originVertex == vertex && !produced && yielded == []
    {
      originVertex := vertex;
      produced := false;
      yielded := [];
    }

    method Next() returns (r: Option<FilesystemVertex>)
      requires Valid()
      modifies this
      ensures Valid() && produced
      ensures r == if old(produced) then None else Some(Directory(originVertex))
      ensures yielded == old(yielded) + (if r.Some? then [r.value] else [])
    {
      if produced {
        r := None;
      } else {
        produced := true;
        r := Some(Directory(originVertex));
        yielded := yielded + [r.value];
      }
    }
  }

  /**
   * The loop inside the file iterator's `next`: starting at `start`, skips
   * entries that failed to read, whose metadata failed, or that are not
   * regular files, and stops just past the first regular file. Returns the
   * position it stopped at and the file it found, if any.
   */
  method SeekFile(directory: DirectoryVertex, entries: seq<Entry>, start: nat)
    returns (next: nat, r: Option<FilesystemVertex>)
    requires start <= |entries|
    ensures start <= next <= |entries|
    ensures FileScan(directory, entries[start..next]) == (if r.Some? then [r.value] else [])
    ensures r.None? ==> next == |entries|
    ensures r.Some? ==> start < next && KeepsFile(entries[next - 1])
                        && r.value == File(ScannedFile(directory, entries[next - 1].name))
  {
    next := start;
    r := None;
    while next < |entries|
      invariant start <= next <= |entries|
      invariant FileScan(directory, entries[start..next]) == []
    {
      var outcome := entries[next];
      assert entries[start..next + 1] == entries[start..next] + [outcome];
      FileScanSnoc(directory, entries[start..next], outcome);
      next := next + 1;
      // Unreadable entries, failed metadata and non-files are skipped.
      if outcome.Readable? && outcome.metadata == Some(RegularFile) {
        // The vertex carries the name, its extension and the joined path.
        r := Some(File(ScannedFile(directory, outcome.name)));
        return;
      }
    }
  }

  /**
   * The loop inside the subdirectory iterator's `next`: like `SeekFile`,
   * but stops past the first directory not named `.git`, `.vscode` or
   * `target`.
   */
  method SeekSubdirectory(directory: DirectoryVertex, entries: seq<Entry>, start: nat)
    returns (next: nat, r: Option<FilesystemVertex>)
    requires start <= |entries|
    ensures start <= next <= |entries|
    ensures SubdirectoryScan(directory, entries[start..next]) == (if r.Some? then [r.value] else [])
    ensures r.None? ==> next == |entries|
    ensures r.Some? ==> start < next && KeepsSubdirectory(entries[next - 1])
                        && r.value == Directory(ScannedDirectory(directory, entries[next - 1].name))
  {
    next := start;
    r := None;
    while next < |entries|
      invariant start <= next <= |entries|
      invariant SubdirectoryScan(directory, entries[start..next]) == []
    {
      var outcome := entries[next];
      assert entries[start..next + 1] == entries[start..next] + [outcome];
      SubdirectoryScanSnoc(directory, entries[start..next], outcome);
      next := next + 1;
      // Unreadable entries, failed metadata, non-directories and the three
      // excluded names are skipped.
      if outcome.Readable? && outcome.metadata == Some(Dir)
        && !Excluded(outcome.name)
      {
        // The vertex carries the name and the joined path.
        r := Some(Directory(ScannedDirectory(directory, outcome.name)));
        return;
      }
    }
  }

  /** The files directly inside `directory`, produced one `Next` at a time. */
  class DirectoryContainsFileIterator {
    const directory: DirectoryVertex
    const entries: seq<Entry>
    var cursor: nat
    ghost var yielded: seq<FilesystemVertex>

    ghost predicate Valid()
      reads this
    {
      cursor <= |entries| && yielded == FileScan(directory, entries[..cursor])
    }

    /** What is still to come. */
    ghost function Pending(): seq<FilesystemVertex>
      reads this
      requires Valid()
    {
      FileScan(directory, entries[cursor..])
    }

    /** Opens `directory`; the source panics when it cannot be opened. */
    constructor (tree: Tree, directory: DirectoryVertex)
      requires directory.path in tree
      ensures Valid() && this.directory == directory && entries == tree[directory.path]
      ensures cursor == 0 && yielded == []
    {
      this.directory := directory;
      entries := tree[directory.path];
      cursor := 0;
      yielded := [];
    }

    /**
     * Yields the next regular file of the listing; `None` once the listing
     * is exhausted. The directory handle ends up past every entry skipped
     * and past the one yielded.
     */
    method Next() returns (r: Option<FilesystemVertex>)
      requires Valid()
      modifies this
      ensures Valid() && old(cursor) <= cursor
      ensures yielded == old(yielded) + (if r.Some? then [r.value] else [])
      ensures old(Pending()) == (if r.Some? then [r.value] else []) + Pending()
      ensures r.None? ==> cursor == |entries|
      ensures old(cursor) == |entries| ==> r.None?
    {
      ghost var pending := Pending();
      var next;
      next, r := SeekFile(directory, entries, cursor);
      ghost var emitted := if r.Some? then [r.value] else [];
      FileScanWindow(directory, entries, cursor, next);
      cursor := next;
      yielded := yielded + emitted;
      assert pending == emitted + Pending();
    }
  }

  /**
   * The subdirectories directly inside `directory`, minus `.git`, `.vscode`
   * and `target`, produced one `Next` at a time.
   */
  class SubdirectoryIterator {
    const directory: DirectoryVertex
    const entries: seq<Entry>
    var cursor: nat
    ghost var yielded: seq<FilesystemVertex>

    ghost predicate Valid()
      reads this
    {
      cursor <= |entries| && yielded == SubdirectoryScan(directory, entries[..cursor])
    }

    /** What is still to come. */
    ghost function Pending(): seq<FilesystemVertex>
      reads this
      requires Valid()
    {
      SubdirectoryScan(directory, entries[cursor..])
    }

    /** Opens `directory`; the source panics when it cannot be opened. */
    constructor (tree: Tree, directory: DirectoryVertex)
      requires directory.path in tree
      ensures Valid() && this.directory == directory && entries == tree[directory.path]
      ensures cursor == 0 && yielded == []
    {
      this.directory := directory;
      entries := tree[directory.path];
      cursor := 0;
      yielded := [];
    }

    /**
     * Yields the next subdirectory of the listing that is not excluded;
     * `None` once the listing is exhausted.
     */
    method Next() returns (r: Option<FilesystemVertex>)
      requires Valid()
      modifies this
      ensures Valid() && old(cursor) <= cursor
      ensures yielded == old(yielded) + (if r.Some? then [r.value] else [])
      ensures old(Pending()) == (if r.Some? then [r.value] else []) + Pending()
      ensures r.None? ==> cursor == |entries|
      ensures old(cursor) == |entries| ==> r.None?
    {
      ghost var pending := Pending();
      var next;
      next, r := SeekSubdirectory(directory, entries, cursor);
      ghost var emitted := if r.Some? then [r.value] else [];
      SubdirectoryScanWindow(directory, entries, cursor, next);
      cursor := next;
      yielded := yielded + emitted;
      assert pending == emitted + Pending();
    }
  }
}
