/**
 * The adapter facade the interpreter calls: the one start edge, property
 * resolution keyed by declared type and property name, and neighbour
 * resolution keyed by declared type and edge name.
 */
module Adapter {
  import opened Wrappers
  import opened Paths
  import opened Vertices
  import opened Listing
  import opened Iterators
  import opened Interpreter
  import opened Edges

  /** The property names each declared vertex type has. */
  predicate PropertyDeclared(typeName: string, propertyName: string)
  {
    || (typeName == "Directory" && propertyName in {"name", "path", "__typename"})
    || (typeName == "File" && propertyName in {"name", "path", "extension", "__typename"})
  }

  /**
   * The variant of an active vertex is the one its declared type names; the
   * `__typename` closures alone do not look at the variant.
   */
  predicate VariantAgrees(typeName: string, propertyName: string, v: FilesystemVertex)
  {
    || propertyName == "__typename"
    || (typeName == "Directory" && v.Directory?)
    || (typeName == "File" && v.File?)
  }

  /**
   * One context's value for the property, the closure `resolve_property`
   * maps over the contexts: `Null` without an active vertex; otherwise the
   * declared type's name for `__typename`, the vertex's field for `name`
   * and `path`, and for `extension` the file's extension or `Null` when it
   * has none.
   */
  function PropertyValue(typeName: string, propertyName: string, c: DataContext): (value: FieldValue)
    requires PropertyDeclared(typeName, propertyName)
    requires c.activeVertex.Some? ==> VariantAgrees(typeName, propertyName, c.activeVertex.value)
    ensures c.activeVertex.None? ==> value == Null
    ensures c.activeVertex.Some? && propertyName == "__typename" ==> value == Str(typeName)
    ensures c.activeVertex.Some? && typeName == "Directory" && propertyName == "name" ==> value == Str(c.activeVertex.value.dir.name)
    ensures c.activeVertex.Some? && typeName == "Directory" && propertyName == "path" ==> value == Str(c.activeVertex.value.dir.path)
    ensures c.activeVertex.Some? && typeName == "File" && propertyName == "name" ==> value == Str(c.activeVertex.value.file.name)
    ensures c.activeVertex.Some? && typeName == "File" && propertyName == "path" ==> value == Str(c.activeVertex.value.file.path)
    ensures c.activeVertex.Some? && typeName == "File" && propertyName == "extension" ==>
              (value == Null <==> c.activeVertex.value.file.extension.None?) &&
              (value.Str? ==> c.activeVertex.value.file.extension == Some(value.s))
  {
    match c.activeVertex
    case None => Null
    case Some(v) =>
      if typeName == "Directory" then
        if propertyName == "name" then Str(v.dir.name)
        else if propertyName == "path" then Str(v.dir.path)
        else Str("Directory")
      else
        if propertyName == "name" then Str(v.file.name)
        else if propertyName == "path" then Str(v.file.path)
        else if propertyName == "extension" then
          match v.file.extension
          case None => Null
          case Some(ext) => Str(ext)
        else Str("File")
  }

  /**
   * `resolve_property`: one value per context, in input order, each context
   * passed through unchanged with its own value.
   */
  function ResolveProperty(contexts: seq<DataContext>, typeName: string, propertyName: string): (r: seq<(DataContext, FieldValue)>)
    requires PropertyDeclared(typeName, propertyName)
    requires forall i :: 0 <= i < |contexts| && contexts[i].activeVertex.Some? ==>
               VariantAgrees(typeName, propertyName, contexts[i].activeVertex.value)
    ensures |r| == |contexts|
    ensures forall i :: 0 <= i < |r| ==> r[i] == (contexts[i], PropertyValue(typeName, propertyName, contexts[i]))
  {
    if contexts == [] then []
    else [(contexts[0], PropertyValue(typeName, propertyName, contexts[0]))] + ResolveProperty(contexts[1..], typeName, propertyName)
  }

  /**
   * The properties of the file vertex a scan of `dir` makes of the entry
   * `name`: its `__typename` is `File`, its `name` is the entry's, its
   * `path` lies directly beneath the directory, and its `extension` is
   * `Null` exactly when the name has no `.` after its first character.
   */
  lemma ScannedFileProperties(dir: DirectoryVertex, name: string, c: DataContext)
    requires ValidPath(dir.path) && ValidName(name)
    requires c.activeVertex == Some(File(ScannedFile(dir, name)))
    ensures PropertyValue("File", "__typename", c) == Str("File")
    ensures PropertyValue("File", "name", c) == Str(name)
    ensures PropertyValue("File", "path", c).Str? && SplitLast(PropertyValue("File", "path", c).s) == (dir.path, name)
    ensures PropertyValue("File", "extension", c) == Null <==> forall j :: 0 < j < |name| ==> name[j] != '.'
  {
    var f := ScannedFile(dir, name);
    assert f.path == PathJoin(dir.path, name) && f.extension == Extension(name);
    assert PropertyValue("File", "path", c) == Str(f.path);
    assert PropertyValue("File", "extension", c) == Null <==> f.extension.None?;
    assert PropertyValue("File", "__typename", c) == Str("File");
    SplitJoin(dir.path, name);
    NoExtension(name);
  }

  /**
   * The `(type, edge)` pairs `resolve_neighbors` accepts and the handler
   * each selects; every other pair is unimplemented.
   */
  function EdgeFor(typeName: string, edgeName: string): (h: Option<EdgeHandler>)
    ensures h.Some? <==>
              typeName == "Directory" &&
              (edgeName == "out_Directory_ContainsFile" || edgeName == "out_Directory_Subdirectory")
  {
    if typeName == "Directory" && edgeName == "out_Directory_ContainsFile" then Some(ContainsFileHandler)
    else if typeName == "Directory" && edgeName == "out_Directory_Subdirectory" then Some(SubdirectoryHandler)
    else None
  }

  /**
   * Each accepted edge leads where its name says: `out_Directory_ContainsFile`
   * to file vertices, `out_Directory_Subdirectory` to directory vertices,
   * never one named `.git`, `.vscode` or `target`.
   */
  lemma EdgeTargets(typeName: string, edgeName: string, tree: Tree, v: FilesystemVertex, w: FilesystemVertex)
    requires EdgeFor(typeName, edgeName).Some? && Resolvable(tree, v)
    requires w in HandlerScan(EdgeFor(typeName, edgeName).value, tree, v)
    ensures edgeName == "out_Directory_ContainsFile" ==> w.File?
    ensures edgeName == "out_Directory_Subdirectory" ==> w.Directory? && !Excluded(w.dir.name)
  {
    if edgeName == "out_Directory_ContainsFile" {
      FileScanMembers(v.dir, tree[v.dir.path], w);
    } else {
      SubdirectoryScanMembers(v.dir, tree[v.dir.path], w);
    }
  }

  /** The adapter: the origin it was built for and the filesystem beneath it. */
  class FilesystemInterpreter {
    const origin: string
    const tree: Tree

    constructor (origin: string, tree: Tree)
      ensures this.origin == origin && this.tree == tree
    {
      this.origin := origin;
      this.tree := tree;
    }

    /**
     * `resolve_starting_vertices`: the only start edge is `OriginDirectory`,
     * without parameters, and it yields the origin directory once.
     */
    method ResolveStartingVertices(edgeName: string, parameters: EdgeParameters) returns (it: OriginIterator)
      requires edgeName == "OriginDirectory" && parameters == map[]
      ensures fresh(it) && it.Valid() && !it.produced && it.yielded == []
      ensures it.originVertex == OriginVertex
    {
      it := new OriginIterator(DirectoryVertex("<origin>", ""));
    }

    /**
     * `resolve_neighbors`: pairs each context with the neighbours the
     * handler of `(typeName, edgeName)` finds; the parameters are ignored.
     */
    method ResolveNeighbors(contexts: seq<DataContext>, typeName: string, edgeName: string, parameters: EdgeParameters)
      returns (it: EdgeResolverIterator)
      requires EdgeFor(typeName, edgeName).Some?
      ensures fresh(it) && it.Valid() && it.cursor == 0 && it.produced == []
      ensures it.tree == tree && it.contexts == contexts && it.handler == EdgeFor(typeName, edgeName).value
    {
      match (typeName, edgeName) {
        case ("Directory", "out_Directory_ContainsFile") =>
          it := new EdgeResolverIterator(tree, contexts, ContainsFileHandler);
        case ("Directory", "out_Directory_Subdirectory") =>
          it := new EdgeResolverIterator(tree, contexts, SubdirectoryHandler);
      }
    }
  }
}
