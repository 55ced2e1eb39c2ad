/** `PrepareInsert` (prepare.go): one insert text prepared up front from the
    provider's entity, then run once per entity. */
module Preparing {
  import opened Types
  import opened Handle
  import opened DbUtil
  import opened Placeholders
  import opened Inserting

  /** The function `PrepareInsert` returns: a statement prepared on the handle. */
  datatype InsertHandle = InsertHandle(db: DB, sql: string)

  /** The placeholder list, filled slot by slot: slot i holds the placeholder
      for ordinal i + 1. */
  method PlaceholderList(d: Dialect, n: nat) returns (ps: seq<string>)
    ensures |ps| == n
    ensures forall i :: 0 <= i < n ==> ps[i] == BindParam(d, i + 1)
    ensures ps == BindParams(d, 1, n)
  {
    ps := seq(n, _ => "");
    var i := 0;
    while i < n
      invariant 0 <= i <= n && |ps| == n
      invariant forall k :: 0 <= k < i ==> ps[k] == BindParam(d, k + 1)
    {
      ps := ps[i := BindParam(d, i + 1)];
      i := i + 1;
    }
  }

  /** Prepares the insert text for the provider entity's table and insert
      columns. On failure it returns nil and the error; otherwise a handle on
      that text and no error. */
  function PrepareInsert(dbu: DBUtil, additional: seq<string>): (r: Traced<(Option<InsertHandle>, Option<Error>)>)
    ensures r.calls == [Prepare(BuildInsert(dbu.dialect, dbu.provider(), additional).sql)]
    ensures dbu.db.prepare(r.calls[0].sql).Some? ==> r.value == (None, dbu.db.prepare(r.calls[0].sql))
    ensures dbu.db.prepare(r.calls[0].sql).None? ==>
              r.value == (Some(InsertHandle(dbu.db, r.calls[0].sql)), None)
  {
    var sql := BuildInsert(dbu.dialect, dbu.provider(), additional).sql;
    match dbu.db.prepare(sql)
    case Some(err) => Traced((None, Some(err)), [Prepare(sql)])
    case None => Traced((Some(InsertHandle(dbu.db, sql)), None), [Prepare(sql)])
  }

  /** One run of the handle: executes the prepared text with the given entity's
      insert values and returns the error as is. */
  function RunInsertHandle(h: InsertHandle, e: Entity): (r: Traced<Option<Error>>)
    ensures r.calls == [StmtExec(Statement(h.sql, e.values(InsertAction)))]
    ensures r.value == h.db.stmtExec(r.calls[0].st)
  {
    var st := Statement(h.sql, e.values(InsertAction));
    Traced(h.db.stmtExec(st), [StmtExec(st)])
  }

  /** For an entity of the provider's table and insert columns, a run of the
      prepared handle sends the statement `Insert` would execute for it. */
  lemma {:induction false} HandleRunsAsInsert(dbu: DBUtil, additional: seq<string>, e: Entity)
    requires dbu.db.prepare(BuildInsert(dbu.dialect, dbu.provider(), additional).sql).None?
    requires e.table == dbu.provider().table
    requires e.columns(InsertAction) == dbu.provider().columns(InsertAction)
    ensures var h := PrepareInsert(dbu, additional).value.0;
            && h.Some?
            && RunInsertHandle(h.value, e).calls == [StmtExec(Insert(dbu, e, additional).calls[0].st)]
  {
  }

  /** The handle's text is fixed at preparation: two runs with any two entities
      execute the same text, each with its own entity's insert values. */
  lemma {:induction false} HandleTextFixed(h: InsertHandle, e1: Entity, e2: Entity)
    ensures RunInsertHandle(h, e1).calls[0].st.sql == RunInsertHandle(h, e2).calls[0].st.sql == h.sql
    ensures RunInsertHandle(h, e2).calls[0].st.args == e2.values(InsertAction)
  {
  }

  /** The prepared text numbers its placeholders 1..n over the provider
      entity's insert columns. */
  lemma {:induction false} PreparedOrdinals(dbu: DBUtil, additional: seq<string>)
    requires Plain(dbu.dialect, dbu.provider().table)
    requires AllPlain(dbu.dialect, dbu.provider().columns(InsertAction))
    requires AllPlain(dbu.dialect, additional)
    ensures Ordinals(dbu.dialect, PrepareInsert(dbu, additional).calls[0].sql)
         == Range(1, 1 + |dbu.provider().columns(InsertAction)|)
  {
    InsertOrdinals(dbu.dialect, dbu.provider(), additional);
  }

  /** A failed prepare returns no handle, only the error. */
  lemma {:induction false} PrepareFailure(dbu: DBUtil, additional: seq<string>)
    requires dbu.db.prepare(BuildInsert(dbu.dialect, dbu.provider(), additional).sql).Some?
    ensures PrepareInsert(dbu, additional).value.0.None?
    ensures PrepareInsert(dbu, additional).value.1
         == dbu.db.prepare(BuildInsert(dbu.dialect, dbu.provider(), additional).sql)
  {
  }
}
