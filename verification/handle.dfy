/** The connection-or-transaction handle the package runs statements through.
    Its responses are uninterpreted: each is a function of the request alone. */
module Handle {
  import opened Types

  /** SQL text with its arguments in ordinal order. */
  datatype Statement = Statement(sql: string, args: seq<Value>)

  /** One request made on the handle or on a statement prepared from it. */
  datatype Call =
    | Exec(st: Statement)
    | QueryRow(st: Statement)
    | Query(st: Statement)
    | Prepare(sql: string)
    | StmtExec(st: Statement)
    | StmtQueryRow(st: Statement)

  /** What a scan left in its destination, and the error it reported. */
  datatype Scanned<T> = Scanned(value: T, err: Option<Error>)

  /** A multi-row query: the scan outcome of each row in result order, and the query error. */
  datatype Rows = Rows(rows: seq<Result<Entity>>, err: Option<Error>)

  /** The executor. `queryRowInt` is a single-row query scanned into an `int`;
      `queryRowEntity` and `query` scan into entities starting from the fresh
      entity they are given; `stmtExec` and `stmtQueryRow` run a prepared text. */
  datatype DB = DB(
    exec: Statement -> Option<Error>,
    queryRowInt: Statement -> Scanned<int>,
    queryRowEntity: (Statement, Entity) -> Scanned<Entity>,
    query: (Statement, Entity) -> Rows,
    prepare: string -> Option<Error>,
    stmtExec: Statement -> Option<Error>,
    stmtQueryRow: (Statement, Value) -> Scanned<Value>
  )

  /** What an operation returned, with the requests it made on the handle, in order. */
  datatype Traced<T> = Traced(value: T, calls: seq<Call>)
}
