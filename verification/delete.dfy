/** `Delete` (delete.go): the caller's constraint goes into the text exactly as written. */
module Deleting {
  import opened Text
  import opened Format
  import opened Types
  import opened Handle
  import opened DbUtil
  import opened Placeholders
  import opened Counting

  /** The text in front of the constraint. */
  function DeleteOpen(table: string): string {
    "delete from " + table + " "
  }

  /** The statement `Delete` executes: the constraint is not rewritten, whatever
      markers it holds, and the caller's parameters are the arguments. */
  function BuildDelete(table: string, constraints: string, params: seq<Value>): (st: Statement)
    ensures |st.sql| >= |constraints| && st.sql[|st.sql| - |constraints|..] == constraints
    ensures st.sql[..|st.sql| - |constraints|] == DeleteOpen(table)
    ensures st.args == params
  {
    var sql := DeleteOpen(table) + constraints;
    assert sql[|sql| - |constraints|..] == constraints;
    assert sql[..|sql| - |constraints|] == DeleteOpen(table);
    Statement(sql, params)
  }

  /** Asks the provider for a fresh entity for its table, runs one `Exec` and
      returns its error as is. */
  function Delete(dbu: DBUtil, constraints: string, params: seq<Value>): (r: Traced<Option<Error>>)
    ensures r.calls == [Exec(BuildDelete(dbu.provider().table, constraints, params))]
    ensures r.value == dbu.db.exec(r.calls[0].st)
  {
    var st := BuildDelete(dbu.provider().table, constraints, params);
    Traced(dbu.db.exec(st), [Exec(st)])
  }

  /** The delete text names exactly the placeholders the caller wrote, in either dialect. */
  lemma {:induction false} DeleteOrdinals(d: Dialect, table: string, constraints: string, params: seq<Value>)
    requires Plain(d, table)
    ensures Ordinals(d, BuildDelete(table, constraints, params).sql) == Ordinals(d, constraints)
  {
    PlainConcat(d, "delete from ", table);
    PlainConcat(d, "delete from " + table, " ");
    OrdinalsPlainPrefix(d, DeleteOpen(table), constraints);
    assert BuildDelete(table, constraints, params).sql == DeleteOpen(table) + constraints;
  }

  /** A constraint written with `%s` markers, as for `Count`, leaves every
      argument of `Delete` without a placeholder: the text names no ordinal. */
  lemma {:induction false} DeleteLeavesMarkersUnbound(d: Dialect, table: string, constraints: string, params: seq<Value>)
    requires IsTemplate(constraints) && MarkerCount(constraints) == |params|
    requires Plain(d, table) && Plain(d, constraints)
    ensures Ordinals(d, BuildDelete(table, constraints, params).sql) == []
    ensures |BuildDelete(table, constraints, params).args| == MarkerCount(constraints)
  {
    DeleteOrdinals(d, table, constraints, params);
    OrdinalsOfPlain(d, constraints);
  }

  lemma {:induction false} MarkerCountPositive(f: string)
    requires MarkerCount(f) > 0
    ensures !Lacks(f, '%')
  {
    if Lacks(f, '%') {
      MarkerCountLacks(f);
    }
  }

  /** `Delete` and `Count` treat the same constraint differently: for a
      constraint with at least one marker, the `%` survives in the delete text
      and is gone from the count text. */
  lemma {:induction false} DeleteUnlikeCount(d: Dialect, table: string, constraints: string, params: seq<Value>)
    requires IsTemplate(constraints) && MarkerCount(constraints) == |params| && |params| > 0
    requires Lacks(table, '%')
    ensures !Lacks(BuildDelete(table, constraints, params).sql, '%')
    ensures Lacks(BuildCount(d, table, constraints, params).sql, '%')
  {
    CountConsumesMarkers(d, table, constraints, params);
    MarkerCountPositive(constraints);
    var i :| 0 <= i < |constraints| && constraints[i] == '%';
    var sql := BuildDelete(table, constraints, params).sql;
    assert sql[|sql| - |constraints| + i] == '%';
  }
}
