/** `Select` and `SelectMulti` (select.go). */
module Selecting {
  import opened Text
  import opened Types
  import opened Handle
  import opened DbUtil
  import opened Placeholders

  /** The text in front of the constraint. */
  function SelectOpen(cols: seq<string>, table: string): string {
    "select " + Join(cols, ",") + " from " + table + " "
  }

  /** The statement both selects query: the entity's select columns and table,
      then the constraint exactly as written, with the caller's parameters as
      arguments. */
  function BuildSelect(e: Entity, constraints: string, params: seq<Value>): (st: Statement)
    ensures |st.sql| >= |constraints| && st.sql[|st.sql| - |constraints|..] == constraints
    ensures st.sql[..|st.sql| - |constraints|] == SelectOpen(e.columns(SelectAction), e.table)
    ensures st.args == params
  {
    var sql := SelectOpen(e.columns(SelectAction), e.table) + constraints;
    assert sql[|sql| - |constraints|..] == constraints;
    assert sql[..|sql| - |constraints|] == SelectOpen(e.columns(SelectAction), e.table);
    Statement(sql, params)
  }

  /** Runs one single-row query with a fresh entity from the provider and
      returns the entity the scan filled together with the scan's error, as is. */
  function Select(dbu: DBUtil, constraints: string, params: seq<Value>): (r: Traced<(Entity, Option<Error>)>)
    ensures r.calls == [QueryRow(BuildSelect(dbu.provider(), constraints, params))]
    ensures r.value.0 == dbu.db.queryRowEntity(r.calls[0].st, dbu.provider()).value
    ensures r.value.1 == dbu.db.queryRowEntity(r.calls[0].st, dbu.provider()).err
  {
    var e := dbu.provider();
    var st := BuildSelect(e, constraints, params);
    var scanned := dbu.db.queryRowEntity(st, e);
    Traced((scanned.value, scanned.err), [QueryRow(st)])
  }

  /** `i` is the first row whose scan failed. */
  predicate FirstFailure(rows: seq<Result<Entity>>, i: int) {
    0 <= i < |rows| && rows[i].Err? && forall j :: 0 <= j < i ==> rows[j].Ok?
  }

  /** The draining loop over the scan outcome of each row, in row order. When
      every row scanned, the result is the list of scanned entities, one per
      row in row order, and no error; it is the empty list, not nil, for no
      rows. At the first failed scan the loop stops with nil and that error,
      dropping the entities scanned before it. */
  function Drain(rows: seq<Result<Entity>>): (r: (Option<seq<Entity>>, Option<Error>))
    ensures r.0.Some? <==> r.1.None?
    ensures r.0.Some? <==> forall j :: 0 <= j < |rows| ==> rows[j].Ok?
    ensures r.0.Some? ==> |r.0.value| == |rows| && forall j :: 0 <= j < |rows| ==> rows[j] == Ok(r.0.value[j])
    ensures r.1.Some? ==> exists i :: FirstFailure(rows, i) && r.1.value == rows[i].error
    decreases |rows|
  {
    if rows == [] then
      (Some([]), None)
    else if rows[0].Err? then
      assert FirstFailure(rows, 0);
      (None, Some(rows[0].error))
    else
      var rest := Drain(rows[1..]);
      if rest.0.None? then
        var i :| FirstFailure(rows[1..], i) && rest.1.value == rows[1..][i].error;
        assert FirstFailure(rows, i + 1);
        rest
      else
        var list := [rows[0].value] + rest.0.value;
        assert forall j :: 0 < j < |rows| ==> rows[j] == rows[1..][j - 1];
        (Some(list), None)
  }

  /** Runs one multi-row query with a fresh entity from the provider. A query
      error other than `ErrNoRows` ends it with nil and that error; otherwise
      the rows are drained. */
  function SelectMulti(dbu: DBUtil, constraints: string, params: seq<Value>): (r: Traced<(Option<seq<Entity>>, Option<Error>)>)
    ensures r.calls == [Query(BuildSelect(dbu.provider(), constraints, params))]
    ensures var rs := dbu.db.query(r.calls[0].st, dbu.provider());
            if rs.err.Some? && rs.err.value != ErrNoRows then r.value == (None, rs.err)
            else r.value == Drain(rs.rows)
  {
    var e := dbu.provider();
    var st := BuildSelect(e, constraints, params);
    var rs := dbu.db.query(st, e);
    if rs.err.Some? && rs.err.value != ErrNoRows then
      Traced((None, rs.err), [Query(st)])
    else
      Traced(Drain(rs.rows), [Query(st)])
  }

  /** The first failure of a row list is unique. */
  lemma {:induction false} FirstFailureUnique(rows: seq<Result<Entity>>, i: int, j: int)
    requires FirstFailure(rows, i) && FirstFailure(rows, j)
    ensures i == j
  {
  }

  /** The error `Drain` stops with is the error of the first failed row,
      whatever the rows after it hold. */
  lemma {:induction false} DrainStopsAtFirstFailure(rows: seq<Result<Entity>>, i: int)
    requires FirstFailure(rows, i)
    ensures Drain(rows) == (None, Some(rows[i].error))
  {
    var r := Drain(rows);
    assert r.0.None?;
    var k :| FirstFailure(rows, k) && r.1.value == rows[k].error;
    FirstFailureUnique(rows, i, k);
  }

  /** Draining rows that each scan reads back exactly the scanned entities. */
  lemma {:induction false} DrainOfScannedRows(es: seq<Entity>)
    ensures Drain(seq(|es|, j requires 0 <= j < |es| => Ok(es[j]))) == (Some(es), None)
  {
    var rows := seq(|es|, j requires 0 <= j < |es| => Ok(es[j]));
    var r := Drain(rows);
    assert r.0.Some?;
    assert r.0.value == es;
  }

  /** With no rows and no error other than `ErrNoRows`, `SelectMulti` returns
      an empty list, not nil, and no error. */
  lemma {:induction false} SelectMultiNoRows(dbu: DBUtil, constraints: string, params: seq<Value>)
    requires var rs := dbu.db.query(BuildSelect(dbu.provider(), constraints, params), dbu.provider());
             rs.rows == [] && (rs.err.None? || rs.err == Some(ErrNoRows))
    ensures SelectMulti(dbu, constraints, params).value == (Some([]), None)
  {
  }

  /** A statement that matches no row is an error for `Select`, whose scan
      reports `ErrNoRows`, and an empty result for `SelectMulti`, whose query
      returns no rows and no error; both ask the handle with the same statement. */
  lemma {:induction false} SelectAndSelectMultiOnNoRows(dbu: DBUtil, constraints: string, params: seq<Value>)
    requires var st := BuildSelect(dbu.provider(), constraints, params);
             && dbu.db.queryRowEntity(st, dbu.provider()).err == Some(ErrNoRows)
             && dbu.db.query(st, dbu.provider()) == Rows([], None)
    ensures Select(dbu, constraints, params).value.1 == Some(ErrNoRows)
    ensures SelectMulti(dbu, constraints, params).value == (Some([]), None)
    ensures Select(dbu, constraints, params).calls[0].st == SelectMulti(dbu, constraints, params).calls[0].st
  {
  }

  /** The select text names exactly the placeholders the caller wrote: the
      constraint is not rewritten, so a `%s` marker binds no argument. */
  lemma {:induction false} SelectOrdinals(d: Dialect, e: Entity, constraints: string, params: seq<Value>)
    requires Plain(d, e.table) && AllPlain(d, e.columns(SelectAction))
    ensures Ordinals(d, BuildSelect(e, constraints, params).sql) == Ordinals(d, constraints)
  {
    var cols := e.columns(SelectAction);
    JoinPlain(d, cols, ",");
    PlainConcat(d, "select ", Join(cols, ","));
    PlainConcat(d, "select " + Join(cols, ","), " from ");
    PlainConcat(d, "select " + Join(cols, ",") + " from ", e.table);
    PlainConcat(d, "select " + Join(cols, ",") + " from " + e.table, " ");
    OrdinalsPlainPrefix(d, SelectOpen(cols, e.table), constraints);
    assert BuildSelect(e, constraints, params).sql == SelectOpen(cols, e.table) + constraints;
  }
}
