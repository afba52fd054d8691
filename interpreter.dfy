/**
 * The parts of the query interpreter's contract the adapter touches: a row
 * ("data context") whose active vertex may be absent, the scalar values
 * properties resolve to, and edge parameters.
 */
module Interpreter {
  import opened Wrappers
  import opened Vertices

  /**
   * One in-flight query row. `row` stands for everything the interpreter
   * threads through the row and the adapter never looks at.
   */
  datatype DataContext = DataContext(row: nat, activeVertex: Option<FilesystemVertex>)

  /** The scalar values this adapter produces. */
  datatype FieldValue = Null | Str(s: string)

  /** Named edge parameters. */
  type EdgeParameters = map<string, FieldValue>
}
