/** `Count` (count.go): the one single-row query whose constraint markers are rewritten. */
module Counting {
  import opened Text
  import opened Format
  import opened Types
  import opened Handle
  import opened DbUtil
  import opened Placeholders

  /** The text in front of the constraint. */
  function CountOpen(table: string): string {
    "select count(*) from " + table + " "
  }

  /** The statement `Count` queries: the caller's `%s` markers become the
      placeholders for ordinals 1..P and the caller's parameters are the
      arguments, unchanged and in order. */
  function BuildCount(d: Dialect, table: string, constraints: string, params: seq<Value>): (st: Statement)
    requires IsTemplate(constraints) && MarkerCount(constraints) == |params|
    ensures st.sql == CountOpen(table) + Interleave(Segments(constraints), BindParams(d, 1, |params|))
    ensures st.args == params
  {
    Statement(CountOpen(table) + FormatBindParams(d, constraints, |params|), params)
  }

  /** Asks the provider for a fresh entity for its table, runs one single-row
      query and returns the integer the scan left with the scan's error. */
  function Count(dbu: DBUtil, constraints: string, params: seq<Value>): (r: Traced<(int, Option<Error>)>)
    requires IsTemplate(constraints) && MarkerCount(constraints) == |params|
    ensures r.calls == [QueryRow(BuildCount(dbu.dialect, dbu.provider().table, constraints, params))]
    ensures r.value.0 == dbu.db.queryRowInt(r.calls[0].st).value
    ensures r.value.1 == dbu.db.queryRowInt(r.calls[0].st).err
  {
    var st := BuildCount(dbu.dialect, dbu.provider().table, constraints, params);
    var scanned := dbu.db.queryRowInt(st);
    Traced((scanned.value, scanned.err), [QueryRow(st)])
  }

  /** The count text names ordinals 1..P, left to right, one per caller parameter. */
  lemma {:induction false} CountOrdinals(d: Dialect, table: string, constraints: string, params: seq<Value>)
    requires SafeTemplate(d, constraints) && MarkerCount(constraints) == |params|
    requires Plain(d, table)
    ensures Ordinals(d, BuildCount(d, table, constraints, params).sql) == Range(1, |params| + 1)
  {
    var fc := FormatBindParams(d, constraints, |params|);
    PlainConcat(d, "select count(*) from ", table);
    PlainConcat(d, "select count(*) from " + table, " ");
    OrdinalsPlainPrefix(d, CountOpen(table), fc);
    FormatBindParamsOrdinals(d, constraints, |params|);
  }

  /** No `%s` marker survives into the count text. */
  lemma {:induction false} CountConsumesMarkers(d: Dialect, table: string, constraints: string, params: seq<Value>)
    requires IsTemplate(constraints) && MarkerCount(constraints) == |params|
    requires Lacks(table, '%')
    ensures Lacks(BuildCount(d, table, constraints, params).sql, '%')
  {
    var open, fc := CountOpen(table), FormatBindParams(d, constraints, |params|);
    FormatBindParamsLacksPercent(d, constraints, |params|);
    assert Lacks(open, '%') by {
      forall i | 0 <= i < |open| ensures open[i] != '%' {
        if 21 <= i < 21 + |table| {
          assert open[i] == table[i - 21];
        }
      }
    }
    forall i | 0 <= i < |open + fc| ensures (open + fc)[i] != '%' {
      if i >= |open| {
        assert (open + fc)[i] == fc[i - |open|];
      }
    }
  }
}
