/**
 * Neighbour resolution: for every incoming context, in order, one pair of
 * that context and a lazy iterator over the neighbours of its active vertex
 * (an empty one when the vertex is absent).
 */
module Edges {
  import opened Wrappers
  import opened Vertices
  import opened Listing
  import opened Iterators
  import opened Interpreter

  /** The per-vertex edge resolver an `EdgeResolverIterator` was built with. */
  datatype EdgeHandler = ContainsFileHandler | SubdirectoryHandler

  /** The neighbour iterator paired with a context. */
  datatype Neighbors =
    | NoNeighbors
    | Files(files: DirectoryContainsFileIterator)
    | Subdirectories(subdirs: SubdirectoryIterator)

  ghost function NeighborObjects(n: Neighbors): set<object>
  {
    match n
    case NoNeighbors => {}
    case Files(it) => {it}
    case Subdirectories(it) => {it}
  }

  ghost predicate NeighborsValid(n: Neighbors)
    reads NeighborObjects(n)
  {
    match n
    case NoNeighbors => true
    case Files(it) => it.Valid()
    case Subdirectories(it) => it.Valid()
  }

  /** The vertices a neighbour iterator has still to produce. */
  ghost function NeighborsPending(n: Neighbors): seq<FilesystemVertex>
    reads NeighborObjects(n)
    requires NeighborsValid(n)
  {
    match n
    case NoNeighbors => []
    case Files(it) => it.Pending()
    case Subdirectories(it) => it.Pending()
  }

  /**
   * The handler can be applied to `v`: it is a directory (the source has
   * `unreachable!()` otherwise) that can be opened (the source unwraps the
   * result of `read_dir`).
   */
  predicate Resolvable(tree: Tree, v: FilesystemVertex)
  {
    v.Directory? && v.dir.path in tree
  }

  /** A context's active vertex, if it has one, can be resolved. */
  predicate ContextResolvable(tree: Tree, c: DataContext)
  {
    c.activeVertex.Some? ==> Resolvable(tree, c.activeVertex.value)
  }

  /** Every context of `contexts` can be resolved. */
  predicate AllResolvable(tree: Tree, contexts: seq<DataContext>)
  {
    forall i :: 0 <= i < |contexts| ==> ContextResolvable(tree, contexts[i])
  }

  /** Everything the handler's scan of `v` yields. */
  function HandlerScan(handler: EdgeHandler, tree: Tree, v: FilesystemVertex): seq<FilesystemVertex>
    requires Resolvable(tree, v)
  {
    match handler
    case ContainsFileHandler => FileScan(v.dir, tree[v.dir.path])
    case SubdirectoryHandler => SubdirectoryScan(v.dir, tree[v.dir.path])
  }

  /** The neighbours a context is paired with: none without an active vertex. */
  function ContextNeighbors(handler: EdgeHandler, tree: Tree, c: DataContext): seq<FilesystemVertex>
    requires ContextResolvable(tree, c)
  {
    match c.activeVertex
    case None => []
    case Some(v) => HandlerScan(handler, tree, v)
  }

  /**
   * What resolving an edge over `contexts` produces, as values: one pair per
   * context, in input order, the context unchanged and paired with its
   * neighbours.
   */
  function ResolveEdges(handler: EdgeHandler, tree: Tree, contexts: seq<DataContext>): (r: seq<(DataContext, seq<FilesystemVertex>)>)
    requires AllResolvable(tree, contexts)
    ensures |r| == |contexts|
    ensures forall i :: 0 <= i < |r| ==> r[i].0 == contexts[i]
    ensures forall i :: 0 <= i < |r| && contexts[i].activeVertex.None? ==> r[i].1 == []
    ensures forall i :: 0 <= i < |r| && contexts[i].activeVertex.Some? ==>
              ContextResolvable(tree, contexts[i]) &&
              r[i].1 == HandlerScan(handler, tree, contexts[i].activeVertex.value)
  {
    if contexts == [] then []
    else
      var last := contexts[|contexts| - 1];
      ResolveEdges(handler, tree, contexts[..|contexts| - 1]) + [(last, ContextNeighbors(handler, tree, last))]
  }

  /** Resolving one more context appends its pair. */
  lemma ResolveEdgesSnoc(handler: EdgeHandler, tree: Tree, contexts: seq<DataContext>, c: DataContext)
    requires AllResolvable(tree, contexts) && ContextResolvable(tree, c)
    ensures AllResolvable(tree, contexts + [c])
    ensures ResolveEdges(handler, tree, contexts + [c])
            == ResolveEdges(handler, tree, contexts) + [(c, ContextNeighbors(handler, tree, c))]
  {
    assert (contexts + [c])[..|contexts|] == contexts;
  }

  /** `directory_contains_file_handler`: a fresh file scan of the directory. */
  method DirectoryContainsFileHandler(tree: Tree, vertex: FilesystemVertex) returns (n: Neighbors)
    requires Resolvable(tree, vertex)
    ensures n.Files? && fresh(n.files) && n.files.Valid() && n.files.yielded == []
    ensures NeighborsPending(n) == FileScan(vertex.dir, tree[vertex.dir.path])
  {
    var it := new DirectoryContainsFileIterator(tree, vertex.dir);
    n := Files(it);
    assert it.entries[it.cursor..] == it.entries;
  }

  /** `directory_subdirectory_handler`: a fresh subdirectory scan of the directory. */
  method DirectorySubdirectoryHandler(tree: Tree, vertex: FilesystemVertex) returns (n: Neighbors)
    requires Resolvable(tree, vertex)
    ensures n.Subdirectories? && fresh(n.subdirs) && n.subdirs.Valid() && n.subdirs.yielded == []
    ensures NeighborsPending(n) == SubdirectoryScan(vertex.dir, tree[vertex.dir.path])
  {
    var it := new SubdirectoryIterator(tree, vertex.dir);
    n := Subdirectories(it);
    assert it.entries[it.cursor..] == it.entries;
  }

  /**
   * The neighbour iterator for one context: none without an active vertex,
   * otherwise the handler applied to that vertex.
   */
  method ResolveContext(handler: EdgeHandler, tree: Tree, context: DataContext) returns (n: Neighbors)
    requires ContextResolvable(tree, context)
    ensures fresh(NeighborObjects(n)) && NeighborsValid(n)
    ensures context.activeVertex.None? <==> n.NoNeighbors?
    ensures context.activeVertex.Some? ==> (n.Files? <==> handler == ContainsFileHandler)
    ensures NeighborsPending(n) == ContextNeighbors(handler, tree, context)
  {
    match context.activeVertex {
      case Some(vertex) =>
        match handler {
          case ContainsFileHandler =>
            n := DirectoryContainsFileHandler(tree, vertex);
          case SubdirectoryHandler =>
            n := DirectorySubdirectoryHandler(tree, vertex);
        }
      case None =>
        n := NoNeighbors;
    }
  }

  /**
   * Pulls contexts one at a time and pairs each with the neighbours of its
   * active vertex. `produced` records the pairs handed out so far, with each
   * neighbour iterator's contents as they were when it was handed out.
   */
  class EdgeResolverIterator {
    const tree: Tree
    const contexts: seq<DataContext>
    const handler: EdgeHandler
    var cursor: nat
    ghost var produced: seq<(DataContext, seq<FilesystemVertex>)>

    ghost predicate Valid()
      reads this
    {
      && cursor <= |contexts|
      && AllResolvable(tree, contexts[..cursor])
      && produced == ResolveEdges(handler, tree, contexts[..cursor])
    }

    constructor (tree: Tree, contexts: seq<DataContext>, handler: EdgeHandler)
      ensures Valid() && this.tree == tree && this.contexts == contexts && this.handler == handler
      ensures cursor == 0 && produced == []
    {
      this.tree := tree;
      this.contexts := contexts;
      this.handler := handler;
      cursor := 0;
      produced := [];
    }

    /**
     * The next context paired with a fresh iterator over its neighbours, or
     * `None` once the contexts are exhausted.
     */
    method Next() returns (r: Option<(DataContext, Neighbors)>)
      requires Valid()
      requires cursor < |contexts| ==> ContextResolvable(tree, contexts[cursor])
      modifies this
      ensures Valid()
      ensures r.None? <==> old(cursor) == |contexts|
      ensures r.None? ==> cursor == old(cursor) && produced == old(produced)
      ensures r.Some? ==>
                && cursor == old(cursor) + 1
                && r.value.0 == contexts[old(cursor)]
                && produced == old(produced) + [(r.value.0, ContextNeighbors(handler, tree, r.value.0))]
                && fresh(NeighborObjects(r.value.1)) && NeighborsValid(r.value.1)
                && (r.value.0.activeVertex.None? <==> r.value.1.NoNeighbors?)
                && (r.value.0.activeVertex.Some? ==> (r.value.1.Files? <==> handler == ContainsFileHandler))
                && NeighborsPending(r.value.1) == ContextNeighbors(handler, tree, r.value.0)
    {
      if cursor == |contexts| {
        return None;
      }
      var context := contexts[cursor];
      ResolveEdgesSnoc(handler, tree, contexts[..cursor], context);
      assert contexts[..cursor + 1] == contexts[..cursor] + [context];
      cursor := cursor + 1;
      produced := produced + [(context, ContextNeighbors(handler, tree, context))];
      var neighbors := ResolveContext(handler, tree, context);
      r := Some((context, neighbors));
    }
  }
}
