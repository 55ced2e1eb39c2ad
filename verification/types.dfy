/** The entity contract: what a caller's type tells the package about itself. */
module Types {

  /** The operation a column or value list is asked for. The source passes the
      labels "insert", "update" and "select" as strings; here they are a closed set. */
  datatype Action = InsertAction | UpdateAction | SelectAction

  /** A value handed to the driver as a statement argument. The package never
      looks inside one; the variants only make values concrete. */
  datatype Value = NullValue | IntValue(i: int) | StringValue(s: string)

  /** An entity: its table and, per action, its ordered columns and values.
      Scanning a row into an entity happens on the executor's side and arrives
      here as the filled entity or an error. */
  datatype Entity = Entity(table: string, columns: Action -> seq<string>, values: Action -> seq<Value>)

  /** A Go `error`: `sql.ErrNoRows` is the one sentinel the package tells apart. */
  datatype Error = ErrNoRows | DriverError(msg: string)

  /** A Go value that may be nil. */
  datatype Option<T> = None | Some(value: T)

  /** The outcome of scanning one row: the filled entity or the scan error. */
  datatype Result<T> = Ok(value: T) | Err(error: Error)
}
