/** `Insert`, `InsertOrReplace` and `InsertReturning` (insert.go). */
module Inserting {
  import opened Text
  import opened Types
  import opened Handle
  import opened DbUtil
  import opened Placeholders

  /** `verb + " " + table + "(" + columns + ") values(" + placeholders + ")"`, the
      part the insert statements share: one placeholder per column, numbered
      from 1 in column order. */
  function InsertHead(verb: string, d: Dialect, table: string, cols: seq<string>): string {
    InsertOpen(verb, table, cols) + Join(BindParams(d, 1, |cols|), ",") + ")"
  }

  /** The insert head up to its placeholder list. */
  function InsertOpen(verb: string, table: string, cols: seq<string>): string {
    verb + InsertTarget(table, cols)
  }

  /** `" " + table + "(" + columns + ") values("`: what follows the verb up
      to the placeholder list. */
  function InsertTarget(table: string, cols: seq<string>): string {
    " " + table + "(" + Join(cols, ",") + ") values("
  }

  /** The statement `Insert` executes: the insert head, a space and the
      additional clauses joined by spaces, with the entity's insert values as
      arguments exactly as the entity gives them. The text opens with the verb
      and ends with the clauses as the caller gave them. */
  function BuildInsert(d: Dialect, e: Entity, additional: seq<string>): (st: Statement)
    ensures st.args == e.values(InsertAction)
    ensures |st.sql| >= |"insert into"| && st.sql[..|"insert into"|] == "insert into"
    ensures var tail := " " + Join(additional, " ");
            |st.sql| >= |tail| && st.sql[|st.sql| - |tail|..] == tail
  {
    var cols := e.columns(InsertAction);
    var t, jp, ja := InsertTarget(e.table, cols), Join(BindParams(d, 1, |cols|), ","), Join(additional, " ");
    PrefixThenRest("insert into", t, jp, ")", " ", ja);
    Affixes("insert into", t + jp + ")", " " + ja);
    Statement(InsertHead("insert into", d, e.table, cols) + " " + ja, e.values(InsertAction))
  }

  /** The statement `InsertOrReplace` executes: the statement of `Insert` with
      the leading `insert into` replaced by `insert or replace into`, and the
      same arguments. */
  function BuildInsertOrReplace(d: Dialect, e: Entity, additional: seq<string>): (st: Statement)
    ensures st.args == BuildInsert(d, e, additional).args
    ensures st.sql == "insert or replace into" + BuildInsert(d, e, additional).sql[|"insert into"|..]
  {
    var cols := e.columns(InsertAction);
    var t, jp, ja := InsertTarget(e.table, cols), Join(BindParams(d, 1, |cols|), ","), Join(additional, " ");
    PrefixThenRest("insert into", t, jp, ")", " ", ja);
    PrefixThenRest("insert or replace into", t, jp, ")", " ", ja);
    Statement(InsertHead("insert or replace into", d, e.table, cols) + " " + ja, e.values(InsertAction))
  }

  /** The text `InsertReturning` prepares: the text `Insert` builds without
      additional clauses, followed by the returning clause. */
  function InsertReturningText(d: Dialect, e: Entity, retField: string): (sql: string)
    ensures sql == BuildInsert(d, e, []).sql + "returning " + retField
  {
    var head := InsertHead("insert into", d, e.table, e.columns(InsertAction));
    assert Join([], " ") == "";
    assert BuildInsert(d, e, []).sql == head + " ";
    assert head + " returning " + retField == head + " " + "returning " + retField;
    head + " returning " + retField
  }

  /** Runs one `Exec` of the insert statement and returns its error as is. */
  function Insert(dbu: DBUtil, e: Entity, additional: seq<string>): (r: Traced<Option<Error>>)
    ensures r.calls == [Exec(BuildInsert(dbu.dialect, e, additional))]
    ensures r.value == dbu.db.exec(r.calls[0].st)
  {
    var st := BuildInsert(dbu.dialect, e, additional);
    Traced(dbu.db.exec(st), [Exec(st)])
  }

  /** Runs one `Exec` of the insert-or-replace statement and returns its error as is. */
  function InsertOrReplace(dbu: DBUtil, e: Entity, additional: seq<string>): (r: Traced<Option<Error>>)
    ensures r.calls == [Exec(BuildInsertOrReplace(dbu.dialect, e, additional))]
    ensures r.value == dbu.db.exec(r.calls[0].st)
  {
    var st := BuildInsertOrReplace(dbu.dialect, e, additional);
    Traced(dbu.db.exec(st), [Exec(st)])
  }

  /** Prepares the returning insert; on failure returns that error, leaves the
      destination as it was and runs nothing else. Otherwise runs the prepared
      text once with the insert values and returns what the scan of its row
      left in the destination, with the scan error. */
  function InsertReturning(dbu: DBUtil, e: Entity, retField: string, retValue: Value): (r: Traced<(Value, Option<Error>)>)
    ensures |r.calls| >= 1 && r.calls[0] == Prepare(InsertReturningText(dbu.dialect, e, retField))
    ensures dbu.db.prepare(r.calls[0].sql).Some? ==>
              r.calls == [r.calls[0]] && r.value == (retValue, dbu.db.prepare(r.calls[0].sql))
    ensures dbu.db.prepare(r.calls[0].sql).None? ==>
              var st := Statement(r.calls[0].sql, e.values(InsertAction));
              && r.calls == [r.calls[0], StmtQueryRow(st)]
              && r.value == (dbu.db.stmtQueryRow(st, retValue).value, dbu.db.stmtQueryRow(st, retValue).err)
  {
    var sql := InsertReturningText(dbu.dialect, e, retField);
    match dbu.db.prepare(sql)
    case Some(err) => Traced((retValue, Some(err)), [Prepare(sql)])
    case None =>
      var st := Statement(sql, e.values(InsertAction));
      var scanned := dbu.db.stmtQueryRow(st, retValue);
      Traced((scanned.value, scanned.err), [Prepare(sql), StmtQueryRow(st)])
  }

  lemma {:induction false} InsertOpenPlain(d: Dialect, verb: string, table: string, cols: seq<string>)
    requires Plain(d, verb) && Plain(d, table) && AllPlain(d, cols)
    ensures Plain(d, InsertOpen(verb, table, cols))
  {
    var jc := Join(cols, ",");
    JoinPlain(d, cols, ",");
    PlainConcat(d, " ", table);
    PlainConcat(d, " " + table, "(");
    PlainConcat(d, " " + table + "(", jc);
    PlainConcat(d, " " + table + "(" + jc, ") values(");
    PlainConcat(d, verb, InsertTarget(table, cols));
  }

  lemma {:induction false} Regroup(a: string, b: string, c: string, e: string)
    ensures a + b + c + e == a + b + (c + e)
  {
  }

  /** The placeholder list of every insert form reads as ordinals 1..n, n the
      number of insert columns, as long as table and columns hold no sigil. */
  lemma {:induction false} InsertHeadOrdinals(verb: string, d: Dialect, table: string, cols: seq<string>, tail: string)
    requires Plain(d, verb) && Plain(d, table) && AllPlain(d, cols) && Plain(d, tail)
    ensures Ordinals(d, InsertHead(verb, d, table, cols) + tail) == Range(1, 1 + |cols|)
  {
    var pre := InsertOpen(verb, table, cols);
    var jp := Join(BindParams(d, 1, |cols|), ",");
    InsertOpenPlain(d, verb, table, cols);
    PlainConcat(d, ")", tail);
    Regroup(pre, jp, ")", tail);
    OrdinalsFramed(d, pre, jp, ")" + tail);
    OrdinalsOfEachBindParam(d, 1, |cols|);
    OrdinalsJoinNumbered(d, BindParams(d, 1, |cols|), ",", 1, 1 + |cols|);
    var h := InsertHead(verb, d, table, cols);
    assert h == pre + jp + ")";
    assert h + tail == pre + jp + ")" + tail;
    assert Ordinals(d, h + tail) == Ordinals(d, pre + jp + (")" + tail));
  }

  /** `Insert` puts exactly one placeholder per insert column into its text,
      numbered 1..n in column order, whatever the number of values. */
  lemma {:induction false} InsertOrdinals(d: Dialect, e: Entity, additional: seq<string>)
    requires Plain(d, e.table) && AllPlain(d, e.columns(InsertAction)) && AllPlain(d, additional)
    ensures Ordinals(d, BuildInsert(d, e, additional).sql) == Range(1, 1 + |e.columns(InsertAction)|)
  {
    JoinPlain(d, additional, " ");
    var tail := " " + Join(additional, " ");
    assert Plain(d, tail);
    assert Plain(d, "insert into");
    InsertHeadOrdinals("insert into", d, e.table, e.columns(InsertAction), tail);
    BuildInsertText(d, e, additional);
  }

  /** The insert text as its head and its tail. */
  lemma {:induction false} BuildInsertText(d: Dialect, e: Entity, additional: seq<string>)
    ensures BuildInsert(d, e, additional).sql
         == InsertHead("insert into", d, e.table, e.columns(InsertAction)) + (" " + Join(additional, " "))
  {
  }

  /** The insert text is a function of table, columns, dialect and clauses:
      entities that differ only in their values give the same text. */
  lemma {:induction false} InsertTextIgnoresValues(d: Dialect, e1: Entity, e2: Entity, additional: seq<string>)
    requires e1.table == e2.table && e1.columns(InsertAction) == e2.columns(InsertAction)
    ensures BuildInsert(d, e1, additional).sql == BuildInsert(d, e2, additional).sql
    ensures BuildInsert(d, e1, additional).args == e1.values(InsertAction)
  {
  }

  lemma {:induction false} PrefixThenRest(v: string, a: string, b: string, c: string, e: string, f: string)
    ensures var r := a + b + c + e + f;
            && v + a + b + c + e + f == v + r
            && (v + r)[..|v|] == v && (v + r)[|v|..] == r
  {
  }

  /** A failed prepare ends `InsertReturning` with that error and no query. */
  lemma {:induction false} InsertReturningPrepareFailure(dbu: DBUtil, e: Entity, retField: string, retValue: Value)
    requires dbu.db.prepare(InsertReturningText(dbu.dialect, e, retField)).Some?
    ensures InsertReturning(dbu, e, retField, retValue).calls
         == [Prepare(InsertReturningText(dbu.dialect, e, retField))]
    ensures InsertReturning(dbu, e, retField, retValue).value.1
         == dbu.db.prepare(InsertReturningText(dbu.dialect, e, retField))
  {
  }
}
