/** `Update` (update.go): caller parameters first, then one parameter per
    updated column. */
module Updating {
  import opened Text
  import opened Format
  import opened Types
  import opened Handle
  import opened DbUtil
  import opened Placeholders

  /** The assignments of the set list: column `i` is assigned the placeholder
      for ordinal `from + i`. */
  function SetClauses(d: Dialect, cols: seq<string>, from: int): (cs: seq<string>)
    ensures |cs| == |cols|
    ensures forall i :: 0 <= i < |cols| ==> cs[i] == cols[i] + " = " + BindParam(d, from + i)
  {
    seq(|cols|, i requires 0 <= i < |cols| => cols[i] + " = " + BindParam(d, from + i))
  }

  /** The text in front of the set list. */
  function UpdateOpen(table: string): string {
    "update " + table + " set "
  }

  /** The update text around the formatted constraint `fc` of `p` caller
      parameters: it opens with the table's update clause and ends with a space
      and the constraint. */
  function UpdateText(d: Dialect, table: string, cols: seq<string>, p: nat, fc: string): (sql: string)
    ensures |sql| >= |UpdateOpen(table)| + 1 + |fc|
    ensures sql[..|UpdateOpen(table)|] == UpdateOpen(table)
    ensures sql[|sql| - |fc| - 1..] == " " + fc
  {
    Affixes(UpdateOpen(table), Join(SetClauses(d, cols, p + 1), ","), " " + fc);
    UpdateOpen(table) + Join(SetClauses(d, cols, p + 1), ",") + (" " + fc)
  }

  /** The statement `Update` executes. The caller's `%s` markers become the
      placeholders for ordinals 1..P, P the number of caller parameters; the
      updated columns take ordinals P+1..P+U in column order; the arguments are
      the caller's parameters followed by the first U update values. The
      update values must cover the update columns (the source indexes them by
      column position). */
  function BuildUpdate(d: Dialect, e: Entity, constraints: string, params: seq<Value>): (st: Statement)
    requires IsTemplate(constraints) && MarkerCount(constraints) == |params|
    requires |e.values(UpdateAction)| >= |e.columns(UpdateAction)|
    ensures var p, u := |params|, |e.columns(UpdateAction)|;
            && |st.args| == p + u
            && st.args[..p] == params
            && (forall i :: 0 <= i < u ==> st.args[p + i] == e.values(UpdateAction)[i])
    ensures st.sql == UpdateText(d, e.table, e.columns(UpdateAction), |params|, FormatBindParams(d, constraints, |params|))
  {
    var cols, values := e.columns(UpdateAction), e.values(UpdateAction);
    var fc := FormatBindParams(d, constraints, |params|);
    var args := params + values[..|cols|];
    assert args[..|params|] == params;
    Statement(UpdateText(d, e.table, cols, |params|, fc), args)
  }

  /** Runs one `Exec` of the update statement and returns its error as is. */
  function Update(dbu: DBUtil, e: Entity, constraints: string, params: seq<Value>): (r: Traced<Option<Error>>)
    requires IsTemplate(constraints) && MarkerCount(constraints) == |params|
    requires |e.values(UpdateAction)| >= |e.columns(UpdateAction)|
    ensures r.calls == [Exec(BuildUpdate(dbu.dialect, e, constraints, params))]
    ensures r.value == dbu.db.exec(r.calls[0].st)
  {
    var st := BuildUpdate(dbu.dialect, e, constraints, params);
    Traced(dbu.db.exec(st), [Exec(st)])
  }

  /** Each assignment reads as the one ordinal it was numbered with. */
  lemma {:induction false} OrdinalsOfSetClauses(d: Dialect, cols: seq<string>, from: nat)
    requires AllPlain(d, cols)
    ensures forall k :: 0 <= k < |cols| ==> Ordinals(d, SetClauses(d, cols, from)[k]) == [from + k]
  {
    forall k | 0 <= k < |cols|
      ensures Ordinals(d, SetClauses(d, cols, from)[k]) == [from + k]
    {
      assert Plain(d, " = ");
      PlainConcat(d, cols[k], " = ");
      OrdinalsPlainPrefix(d, cols[k] + " = ", BindParam(d, from + k));
      OrdinalsOfBindParam(d, from + k);
    }
  }

  /** The set list reads as the ordinals its assignments were numbered with. */
  lemma {:induction false} SetListOrdinals(d: Dialect, cols: seq<string>, from: nat, to: nat)
    requires AllPlain(d, cols) && to == from + |cols|
    ensures Ordinals(d, Join(SetClauses(d, cols, from), ",")) == Range(from, to)
  {
    OrdinalsOfSetClauses(d, cols, from);
    OrdinalsJoinNumbered(d, SetClauses(d, cols, from), ",", from, to);
  }

  lemma {:induction false} UpdateOpenPlain(d: Dialect, table: string)
    requires Plain(d, table)
    ensures Plain(d, UpdateOpen(table))
  {
  }

  /** The update text around an already formatted constraint `fc` whose
      placeholders are ordinals 1..p. */
  lemma {:induction false} UpdateTextOrdinals(d: Dialect, table: string, cols: seq<string>, p: nat, fc: string)
    requires Plain(d, table) && AllPlain(d, cols)
    requires Ordinals(d, fc) == Range(1, p + 1)
    ensures Ordinals(d, UpdateText(d, table, cols, p, fc)) == Range(p + 1, p + |cols| + 1) + Range(1, p + 1)
  {
    UpdateOpenPlain(d, table);
    SpaceThen(d, fc);
    OrdinalsAfterPlain(d, UpdateOpen(table), Join(SetClauses(d, cols, p + 1), ","), " " + fc);
    SetListOrdinals(d, cols, p + 1, p + |cols| + 1);
  }

  /** A space in front of a text starts it with a non-digit and adds no placeholder. */
  lemma {:induction false} SpaceThen(d: Dialect, s: string)
    ensures " " + s != [] && !IsDigit((" " + s)[0])
    ensures Ordinals(d, " " + s) == Ordinals(d, s)
  {
  }

  /** The ordinals p+1..p+u followed by 1..p name each of 1..p+u exactly once. */
  lemma {:induction false} RotatedRange(p: nat, u: nat, os: seq<int>)
    requires os == Range(p + 1, p + u + 1) + Range(1, p + 1)
    ensures |os| == p + u
    ensures forall k :: 0 <= k < |os| ==> 1 <= os[k] <= p + u
    ensures forall i, j :: 0 <= i < j < |os| ==> os[i] != os[j]
  {
  }

  /** The placeholders of an update, in text order: the set list's ordinals
      P+1..P+U, then the constraint's ordinals 1..P. */
  lemma {:induction false} UpdateOrdinals(d: Dialect, e: Entity, constraints: string, params: seq<Value>)
    requires SafeTemplate(d, constraints) && MarkerCount(constraints) == |params|
    requires |e.values(UpdateAction)| >= |e.columns(UpdateAction)|
    requires Plain(d, e.table) && AllPlain(d, e.columns(UpdateAction))
    ensures Ordinals(d, BuildUpdate(d, e, constraints, params).sql)
         == Range(|params| + 1, |params| + |e.columns(UpdateAction)| + 1) + Range(1, |params| + 1)
  {
    var p := |params|;
    var st := BuildUpdate(d, e, constraints, params);
    FormatBindParamsOrdinals(d, constraints, p);
    UpdateTextOrdinals(d, e.table, e.columns(UpdateAction), p, FormatBindParams(d, constraints, p));
  }

  /** Every argument of an update is named by exactly one placeholder: the
      ordinals are 1..|args|, each once. */
  lemma {:induction false} UpdateNamesEachArgumentOnce(d: Dialect, e: Entity, constraints: string, params: seq<Value>)
    requires SafeTemplate(d, constraints) && MarkerCount(constraints) == |params|
    requires |e.values(UpdateAction)| >= |e.columns(UpdateAction)|
    requires Plain(d, e.table) && AllPlain(d, e.columns(UpdateAction))
    ensures var st := BuildUpdate(d, e, constraints, params);
            var os := Ordinals(d, st.sql);
            && |os| == |st.args|
            && (forall k :: 0 <= k < |os| ==> 1 <= os[k] <= |st.args|)
            && (forall i, j :: 0 <= i < j < |os| ==> os[i] != os[j])
  {
    var st := BuildUpdate(d, e, constraints, params);
    UpdateOrdinals(d, e, constraints, params);
    RotatedRange(|params|, |e.columns(UpdateAction)|, Ordinals(d, st.sql));
  }

  /** The arguments line up with the ordinals: ordinal k of a constraint marker
      (1 <= k <= P) names caller parameter `params[k - 1]`, and the ordinal in
      the assignment of column i names that column's update value. */
  lemma {:induction false} UpdateBindsColumns(d: Dialect, e: Entity, constraints: string, params: seq<Value>, i: nat)
    requires IsTemplate(constraints) && MarkerCount(constraints) == |params|
    requires |e.values(UpdateAction)| >= |e.columns(UpdateAction)|
    requires i < |e.columns(UpdateAction)|
    ensures var st := BuildUpdate(d, e, constraints, params);
            var k := |params| + 1 + i;
            && SetClauses(d, e.columns(UpdateAction), |params| + 1)[i]
               == e.columns(UpdateAction)[i] + " = " + BindParam(d, k)
            && 1 <= k <= |st.args| && st.args[k - 1] == e.values(UpdateAction)[i]
            && (forall j :: 0 <= j < |params| ==> st.args[j] == params[j])
  {
  }

  /** Without markers the constraint text is kept as written and the only
      arguments are the update values. */
  lemma {:induction false} UpdateWithoutParams(d: Dialect, e: Entity, constraints: string)
    requires Lacks(constraints, '%')
    requires |e.values(UpdateAction)| >= |e.columns(UpdateAction)|
    ensures IsTemplate(constraints) && MarkerCount(constraints) == 0
    ensures BuildUpdate(d, e, constraints, []).args == e.values(UpdateAction)[..|e.columns(UpdateAction)|]
    ensures var sql := BuildUpdate(d, e, constraints, []).sql;
            |sql| >= |constraints| && sql[|sql| - |constraints|..] == constraints
  {
    FormatBindParamsIdentity(d, constraints);
    var st := BuildUpdate(d, e, constraints, []);
    var head := UpdateOpen(e.table) + Join(SetClauses(d, e.columns(UpdateAction), 1), ",") + " ";
    assert st.sql == head + constraints;
    assert st.args == [] + e.values(UpdateAction)[..|e.columns(UpdateAction)|];
  }
}
