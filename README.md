# Filesystem adapter of the Trustfall query engine, in Dafny

This project models `trustfall_core/src/filesystem_interpreter.rs`. That file is an adapter that
presents a directory tree to the Trustfall query interpreter as a graph with two kinds of vertex:
- a `Directory`, with a `name` and a `path` relative to the origin directory;
- a `File`, with a `name`, an optional `extension` and a `path`.

It covers:
- the one starting edge `OriginDirectory`;
- the two neighbour edges `out_Directory_ContainsFile` and `out_Directory_Subdirectory`;
- the property resolvers for `name`, `path`, `extension` and `__typename`.

The operating system's directory listings are an input to the model. A `Tree` maps the path of
every directory that can be opened to its listing. Each listing is a sequence of entries:
- an entry can fail to read;
- its metadata can fail to read;
- otherwise it is a regular file, a directory, or something else.

Modules, one per file:

- `Wrappers` (`wrappers.dfy`): the `Option` type used for absent extensions, absent active
  vertices and iterator results.
- `Paths` (`paths.dfy`): `PathBuf::new()` extended with a parent path and a name, following Unix
  rules, and `Path::extension` for a single name. It also proves the round trip between joining and
  splitting paths, and the characterisation of the extension.
- `Vertices` (`vertex.dfy`) and `Interpreter` (`interpreter.dfy`) define the data:
  - `Vertices`: the vertex records, and the origin vertex, named `<origin>` with the empty path;
  - `Interpreter`: the small part of the interpreter's types that the adapter uses. A data context
    has an optional active vertex; a field value is `Null` or a string.
- `Listing` (`listing.dfy`): the specification of the two scans as functions over a listing. It
  proves which entries each scan keeps and in what order, that the excluded names never appear,
  and the shape of every yielded path.
- `Iterators` (`iterators.dfy`): the three iterators as classes with a cursor.
  - The origin iterator yields the origin once.
  - Each scan's `Next` runs the source's skip loop (`SeekFile`, `SeekSubdirectory`). It is proved
    to yield exactly the next element of the scan function and to leave the rest pending.
- `Edges` (`edges.dfy`): the edge-resolver iterator, which pairs each incoming context with a
  fresh neighbour iterator. It is specified by `ResolveEdges` over the contexts pulled so far.
- `Adapter` (`adapter.dfy`) covers the adapter's entry points:
  - property resolution, specified per context by `PropertyValue`;
  - the `(type, edge)` dispatch;
  - the `FilesystemInterpreter` class with its two resolver entry points.
- `Scenario` (`scenario.dfy`): the scans of a three-entry tree (the origin holds `a/` and `b`; `a`
  holds `x.txt`), and two queries driven through the adapter's entry points on that tree. The
  first starts at the origin, follows `out_Directory_ContainsFile`, pulls the first file and
  resolves its `extension`. The second follows `out_Directory_Subdirectory` to `a`, then
  `out_Directory_ContainsFile` to `x.txt`, and resolves its `path` and `extension`.

The source's panics become preconditions:
- `read_dir(..).unwrap()`: the directory's path must be in the tree;
- `unreachable!()`: the vertex variant must agree with the declared type;
- `todo!()`: the property must be declared;
- `unimplemented!()`: the `(type, edge)` pair must be one of the two edges;
- the asserts in `resolve_starting_vertices`: the edge name and empty parameters.

## Model

| member | source | states |
|---|---|---|
| Paths.PathJoin | trustfall_core/src/filesystem_interpreter.rs:89-90 | Definition: `PathBuf::new()` pushed with the parent path and then the name, by the Unix rules of `PathBuf::push`. An absolute name replaces the buffer; an empty parent gives the name itself; otherwise one `/` is inserted unless the parent already ends in one. What it means for the paths a scan builds is proved in `SplitJoin` and `JoinSplit` |
| Paths.Extension | trustfall_core/src/filesystem_interpreter.rs:91-93 | Definition: `Path::extension` of a single name, the text after the last `.`. There is none when the name has no `.`, when its only `.` is the leading one, or for `..`. Characterised independently in `ExtensionSpec` |
| Listing.ScannedFile | trustfall_core/src/filesystem_interpreter.rs:88-98 | Definition: the file vertex built from an entry's name, with that name, the name's extension and the directory's path joined with the name. Its path's shape is proved in `FileScanShape` |
| Listing.ScannedDirectory | trustfall_core/src/filesystem_interpreter.rs:139-147 | Definition: the directory vertex built from an entry's name, with that name and the directory's path joined with it. Its path's shape is proved in `SubdirectoryScanShape` |
| Listing.FileScan | trustfall_core/src/filesystem_interpreter.rs:78-108 | Definition: everything the file iterator yields over a listing, in listing order. Entries that failed to read, whose metadata failed, or that are not regular files are dropped; each remaining entry becomes its `ScannedFile`. Which entries it keeps is proved in `FileScanMembers` |
| Listing.SubdirectoryScan | trustfall_core/src/filesystem_interpreter.rs:129-157 | Definition: everything the subdirectory iterator yields, in listing order. It keeps the readable directory entries not named `.git`, `.vscode` or `target`, each as its `ScannedDirectory`. Which entries it keeps is proved in `SubdirectoryScanMembers` |
| Paths.SplitJoin | trustfall_core/src/filesystem_interpreter.rs:89-90 | A valid name joined onto a valid parent path splits back at its last `/` into exactly that parent and that name, and the result is again a valid path (the root gives just the name, any other parent `parent/name`) |
| Paths.JoinSplit | trustfall_core/src/filesystem_interpreter.rs:144-145 | Conversely, every non-empty valid path is its parent joined with its last component |
| Paths.ExtensionSpec | trustfall_core/src/filesystem_interpreter.rs:91-93 | The extension is absent exactly for `..` or a name with no `.` after its first character; a present extension is the dot-free text that ends the name right after a non-leading `.` |
| Paths.NoExtension | trustfall_core/src/filesystem_interpreter.rs:91-93 | For a name a listing can return, the extension is absent if and only if there is no `.` after the first character (so a single leading `.` gives none) |
| Paths.ExtensionOfStem | trustfall_core/src/filesystem_interpreter.rs:91-93 | A non-empty stem, a `.` and a dot-free suffix give that suffix as the extension (the text after the last `.`) |
| Paths.ExtensionExamples | trustfall_core/src/filesystem_interpreter.rs:91-93 | `a.b.c` has extension `c`, `x.txt` has `txt`, `foo.` has the empty extension |
| Paths.NoExtensionExamples | trustfall_core/src/filesystem_interpreter.rs:91-93 | `.git` and `b` have no extension |
| Listing.FileScanMembers | trustfall_core/src/filesystem_interpreter.rs:78-108 | A vertex is in the file scan if and only if some entry read, had readable metadata, was a regular file, and the vertex is built from that entry's name |
| Listing.SubdirectoryScanMembers | trustfall_core/src/filesystem_interpreter.rs:129-157 | A vertex is in the subdirectory scan if and only if some entry read, had readable metadata, was a directory not named `.git`, `.vscode` or `target`, and the vertex is built from that entry's name |
| Listing.SubdirectoryScanExcludes | trustfall_core/src/filesystem_interpreter.rs:140-142 | The subdirectory scan yields only directories, and none named `.git`, `.vscode` or `target` |
| Listing.FileScanShape | trustfall_core/src/filesystem_interpreter.rs:88-98 | Every scanned file of a validly named directory has a valid path whose parent is the directory's path and whose last component is the file's name, and carries the extension of its name |
| Listing.SubdirectoryScanShape | trustfall_core/src/filesystem_interpreter.rs:139-147 | Every scanned subdirectory has a valid path whose parent is the directory's path and whose last component is its name |
| Listing.FileScanWindow | trustfall_core/src/filesystem_interpreter.rs:79-107 | Moving the cursor over a window of entries yields the window's scan: the scanned prefix grows by it and the pending suffix loses it from the front |
| Listing.SubdirectoryScanWindow | trustfall_core/src/filesystem_interpreter.rs:130-156 | The same for the subdirectory scan |
| Iterators.OriginIterator.constructor | trustfall_core/src/filesystem_interpreter.rs:38-40 | A new origin iterator holds the given vertex and has produced nothing |
| Iterators.OriginIterator.Next | trustfall_core/src/filesystem_interpreter.rs:46-53 | The first call yields the origin directory and sets `produced`; every later call yields `None`; the history of what was yielded is the origin once at most |
| Iterators.SeekFile | trustfall_core/src/filesystem_interpreter.rs:79-107 | The skip loop stops just past the first regular file from its start: the last entry it consumed is that file, the vertex it returns is built from that entry's name, and everything it consumed scans to exactly that vertex; `None` only once the listing is exhausted |
| Iterators.SeekSubdirectory | trustfall_core/src/filesystem_interpreter.rs:130-156 | The same for the first directory that is not excluded: the last entry consumed is that directory and the returned vertex is built from it, against the subdirectory scan |
| Iterators.DirectoryContainsFileIterator.constructor | trustfall_core/src/filesystem_interpreter.rs:64-72 | Opening a directory (which must exist) takes its listing with the cursor at the start and nothing yielded |
| Iterators.DirectoryContainsFileIterator.Next | trustfall_core/src/filesystem_interpreter.rs:78-108 | Each call yields the front of what is still pending of the file scan and removes it, so everything yielded so far is the scan of the consumed prefix; `None` exactly when nothing is pending, after which it stays exhausted |
| Iterators.SubdirectoryIterator.constructor | trustfall_core/src/filesystem_interpreter.rs:119-123 | Opening a directory (which must exist) takes its listing with the cursor at the start and nothing yielded |
| Iterators.SubdirectoryIterator.Next | trustfall_core/src/filesystem_interpreter.rs:129-157 | The same as the file iterator, against the subdirectory scan |
| Edges.ResolveEdges | trustfall_core/src/filesystem_interpreter.rs:185-197 | One pair per context, in input order, with the context unchanged; the neighbours are empty without an active vertex and are the handler's scan of the active vertex otherwise |
| Edges.DirectoryContainsFileHandler | trustfall_core/src/filesystem_interpreter.rs:219-228 | Given a directory that can be opened, returns a fresh file iterator whose pending contents are the directory's whole file scan |
| Edges.DirectorySubdirectoryHandler | trustfall_core/src/filesystem_interpreter.rs:230-239 | Given a directory that can be opened, returns a fresh subdirectory iterator whose pending contents are its whole subdirectory scan |
| Edges.ResolveContext | trustfall_core/src/filesystem_interpreter.rs:187-194 | Without an active vertex a context gets the empty iterator; otherwise it gets a fresh iterator of the handler's kind (a file iterator for the contains-file handler, a subdirectory iterator otherwise) whose pending contents are the handler's scan |
| Edges.EdgeResolverIterator.constructor | trustfall_core/src/filesystem_interpreter.rs:173-179 | A new resolver holds the contexts and the handler and has produced nothing |
| Edges.EdgeResolverIterator.Next | trustfall_core/src/filesystem_interpreter.rs:185-197 | Each call passes the next context through unchanged, paired with a fresh neighbour iterator; the iterator is empty exactly when the active vertex is absent and otherwise is of the handler's kind and holds the handler's scan; what has been produced is always `ResolveEdges` of the contexts pulled; `None` exactly when the contexts are exhausted |
| Adapter.PropertyValue | trustfall_core/src/filesystem_interpreter.rs:264-339 | `Null` for an absent vertex; otherwise the declared type's name for `__typename`, the vertex's own `name` or `path`, and for `extension` `Null` exactly when the file has none and its text otherwise |
| Adapter.ResolveProperty | trustfall_core/src/filesystem_interpreter.rs:264-339 | One pair per context, in input order, each context unchanged and paired with its own `PropertyValue` |
| Adapter.ScannedFileProperties | trustfall_core/src/filesystem_interpreter.rs:298-334 | On a file a scan produced, `__typename` is `File`, `name` is the entry's name, `path` splits into the directory's path and that name, and `extension` is `Null` exactly when the name has no `.` after its first character |
| Adapter.EdgeFor | trustfall_core/src/filesystem_interpreter.rs:350-367 | A handler exists if and only if the type is `Directory` and the edge is `out_Directory_ContainsFile` or `out_Directory_Subdirectory` |
| Adapter.EdgeTargets | trustfall_core/src/filesystem_interpreter.rs:350-366 | `out_Directory_ContainsFile` leads only to files; `out_Directory_Subdirectory` leads only to directories not named `.git`, `.vscode` or `target` |
| Adapter.FilesystemInterpreter.constructor | trustfall_core/src/filesystem_interpreter.rs:26-28 | The adapter holds its origin (and the tree beneath it) |
| Adapter.FilesystemInterpreter.ResolveStartingVertices | trustfall_core/src/filesystem_interpreter.rs:245-255 | Only `OriginDirectory` without parameters is accepted; the result is a fresh iterator over the vertex named `<origin>` with the empty path, not yet produced |
| Adapter.FilesystemInterpreter.ResolveNeighbors | trustfall_core/src/filesystem_interpreter.rs:342-369 | Only the two directory edges are accepted; the result is a fresh resolver over the given contexts with the handler `EdgeFor` selects, nothing produced yet |
| Scenario.ScenarioSubdirectories | trustfall_core/src/filesystem_interpreter.rs:129-157 | In the example tree the origin's subdirectory scan is exactly the directory `a` at path `a` |
| Scenario.ScenarioRootFiles | trustfall_core/src/filesystem_interpreter.rs:78-108 | In the example tree the origin's file scan is exactly the file `b` at path `b` with no extension |
| Scenario.ScenarioFilesOfA | trustfall_core/src/filesystem_interpreter.rs:78-108 | In the example tree the file scan of `a` is exactly `x.txt` at path `a/x.txt` with extension `txt` |
| Scenario.ScenarioStart | trustfall_core/src/filesystem_interpreter.rs:245-255 | The start edge's first vertex is the origin directory |
| Scenario.ScenarioOriginFiles | trustfall_core/src/filesystem_interpreter.rs:350-358 | Following `out_Directory_ContainsFile` from the origin of the example tree gives a fresh file iterator with exactly `b` to come |
| Scenario.ScenarioPull | trustfall_core/src/filesystem_interpreter.rs:78-108 | Pulling from a file iterator with one vertex alone to come yields that vertex |
| Scenario.ScenarioPullDirectory | trustfall_core/src/filesystem_interpreter.rs:129-157 | Pulling from a subdirectory iterator with one vertex alone to come yields that vertex |
| Scenario.ScenarioOriginSubdirectories | trustfall_core/src/filesystem_interpreter.rs:359-366 | Following `out_Directory_Subdirectory` from the origin of the example tree gives a fresh subdirectory iterator with exactly `a` to come |
| Scenario.ScenarioFilesUnderA | trustfall_core/src/filesystem_interpreter.rs:350-358 | Following `out_Directory_ContainsFile` from `a` gives a fresh file iterator with exactly `x.txt` at `a/x.txt` to come |
| Scenario.ScenarioQuery | trustfall_core/src/filesystem_interpreter.rs:318-328 | Driven through the adapter on the example tree, the query reaches the origin, then the file `b` at path `b`, whose `extension` resolves to `Null` |
| Scenario.ScenarioNestedQuery | trustfall_core/src/filesystem_interpreter.rs:308-328 | Driven through the adapter on the example tree, the nested query reaches the directory `a`, then the file `x.txt`, whose `path` resolves to `a/x.txt` and `extension` to `txt` |

## Left out

- Filesystem I/O is an input, the `Tree`. The model does not cover:
  - `fs::read_dir` on the origin joined with the directory path;
  - `DirEntry::metadata`;
  - the conversion of OS strings with `to_str().unwrap()`.

  An entry whose name is not valid UTF-8, which panics in the source, is not represented.
- `Adapter.FilesystemInterpreter.constructor`: the adapter also holds the `Tree` it reads, because
  the model has no real filesystem to open. The origin string is kept but used for nothing else,
  just as the source uses it only to open directories.
- Symbolic links: `DirEntry::metadata` does not follow them. An entry that is neither a regular
  file nor a directory is `Other`, which both scans skip.
- Joining the origin with the directory path for `read_dir`, `Rc`/`Arc` sharing, `Box<dyn Iterator>`, lifetimes, and releasing a directory
  handle on drop are not modelled: none of them changes what is yielded.
- The `Serialize`/`Deserialize` derives on the vertex types are generated code and are not
  modelled.
- `resolve_coercion` is left out: its body is an unconditional `todo!()`.
- `ResolveInfo` and `ResolveEdgeInfo` are left out; the adapter never inspects them. A `DataContext`
  is reduced to a row identifier and an optional active vertex. `DataContext.activeVertex` stands
  for the result of the `AsVertex` conversion `context.active_vertex::<FilesystemVertex>()`, which
  is not modelled itself.
- The incoming context stream is a finite sequence with a cursor, where the source has a lazy
  iterator.
- Each scan copies its directory's whole listing when it is opened, and the `Tree` is fixed for
  the adapter's lifetime. The source reads entries lazily from a live directory handle, so a
  directory that changes while it is being scanned is not modelled.
- `Adapter.ResolveProperty`: requires up front that every context's vertex variant agrees with the
  declared type. The source maps lazily and reaches `unreachable!()` only when a mismatched context
  is actually pulled, so the values before that context are not modelled in that case.
- `Edges.EdgeResolverIterator.Next`: the record of what has been produced is advanced before the
  neighbour iterator is built. The source builds the iterator first. Nothing observable depends on
  this order.
- `Paths.PathJoin`: implements the Unix rules of `PathBuf::push`, including an absolute name
  replacing the buffer and a parent that already ends in `/`. Windows separators and prefixes are
  not modelled.
- `Paths.Extension`: models `Path::extension` on a single name, including `..` (which has no file
  name and therefore no extension). Names with a `/` never come out of a listing, so they are not
  considered.
