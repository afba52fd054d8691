/**
 * The graph's vertices: a closed union of a directory record and a file
 * record. Both are immutable values compared structurally.
 */
module Vertices {
  import opened Wrappers

  /** A directory; `path` is relative to the origin (empty for the origin itself). */
  datatype DirectoryVertex = DirectoryVertex(name: string, path: string)

  /** A file; `extension` is absent when its name has none. */
  datatype FileVertex = FileVertex(name: string, extension: Option<string>, path: string)

  datatype FilesystemVertex =
    | Directory(dir: DirectoryVertex)
    | File(file: FileVertex)

  /** The vertex the traversal starts from: a sentinel name and the empty path. */
  const OriginVertex: DirectoryVertex := DirectoryVertex("<origin>", "")
}
