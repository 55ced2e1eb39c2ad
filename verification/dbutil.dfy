/** The package's handle on a database: the executor, the SQL dialect and the
    entity provider, and the dialect's placeholder tokens. */
module DbUtil {
  import opened Text
  import opened Format
  import opened Types
  import opened Handle

  /** The SQL dialect. SQLite is special-cased; `Postgres` stands for every
      other dialect, which all use the dollar form. */
  datatype Dialect = SQLite | Postgres

  /** The state a `DBUtil` carries: fixed at construction, never changed. */
  datatype DBUtil = DBUtil(db: DB, dialect: Dialect, provider: () -> Entity)

  /** Builds a handle from its three parts, each kept as given. */
  function New(db: DB, dialect: Dialect, provider: () -> Entity): (dbu: DBUtil)
    ensures dbu.db == db && dbu.dialect == dialect && dbu.provider == provider
  {
    DBUtil(db, dialect, provider)
  }

  /** The character that opens a placeholder in a dialect. */
  function Sigil(d: Dialect): char {
    if d == SQLite then '?' else '$'
  }

  /** The placeholder for ordinal `i`: the dialect's sigil followed by the
      decimal text of `i`. */
  function BindParam(d: Dialect, i: int): (token: string)
    ensures |token| >= 2
    ensures token[0] == (if d == SQLite then '?' else '$')
  {
    [Sigil(d)] + Decimal(i)
  }

  /** After its sigil, a placeholder is the `%d` text of its ordinal: decimal
      text without a leading zero that reads back as the ordinal, and for an
      ordinal that is not negative exactly the ordinal's digits. */
  lemma {:induction false} BindParamReadsBack(d: Dialect, i: int)
    ensures IsDecimalText(BindParam(d, i)[1..])
    ensures ParseDecimal(BindParam(d, i)[1..]) == i
    ensures i >= 0 ==> BindParam(d, i)[1..] == NatDigits(i)
  {
  }

  /** Two placeholders of one dialect are equal only for equal ordinals. */
  lemma {:induction false} BindParamInjective(d: Dialect, i: int, j: int)
    requires BindParam(d, i) == BindParam(d, j)
    ensures i == j
  {
    BindParamReadsBack(d, i);
    BindParamReadsBack(d, j);
  }

  /** Placeholders of different dialects never coincide. */
  lemma {:induction false} BindParamDialectsDiffer(i: int, j: int)
    ensures BindParam(SQLite, i) != BindParam(Postgres, j)
  {
  }

  /** The placeholders for `count` consecutive ordinals starting at `from`. */
  function BindParams(d: Dialect, from: int, count: nat): (ps: seq<string>)
    ensures |ps| == count
    ensures forall k :: 0 <= k < count ==> ps[k] == BindParam(d, from + k)
  {
    seq(count, k => BindParam(d, from + k))
  }

  /** A placeholder holds no `%`, so substituting one never creates a marker. */
  lemma {:induction false} BindParamLacksPercent(d: Dialect, i: int)
    ensures Lacks(BindParam(d, i), '%')
  {
  }

  /** Rewrites the `%s` markers of a caller's fragment, left to right, into the
      placeholders for ordinals 1..n; the text between markers is kept as is. */
  function FormatBindParams(d: Dialect, s: string, n: int): (r: string)
    requires IsTemplate(s) && MarkerCount(s) == n
    ensures r == Interleave(Segments(s), BindParams(d, 1, n))
    ensures n == 0 ==> r == s
  {
    SprintfSegments(s, BindParams(d, 1, n));
    Sprintf(s, BindParams(d, 1, n))
  }

  /** For any fragment written as marker-free segments joined by `n` markers,
      the k-th marker becomes the k-th placeholder and every segment survives. */
  lemma {:induction false} FormatBindParamsMarkers(d: Dialect, segs: seq<string>)
    requires |segs| >= 1
    requires forall k :: 0 <= k < |segs| ==> Lacks(segs[k], '%')
    ensures IsTemplate(Interleave(segs, Markers(|segs| - 1)))
    ensures MarkerCount(Interleave(segs, Markers(|segs| - 1))) == |segs| - 1
    ensures FormatBindParams(d, Interleave(segs, Markers(|segs| - 1)), |segs| - 1)
            == Interleave(segs, BindParams(d, 1, |segs| - 1))
  {
    SprintfInterleave(segs, BindParams(d, 1, |segs| - 1));
  }

  /** Formatting consumes every marker: the result holds no `%`. */
  lemma {:induction false} FormatBindParamsLacksPercent(d: Dialect, s: string, n: int)
    requires IsTemplate(s) && MarkerCount(s) == n
    ensures Lacks(FormatBindParams(d, s, n), '%')
  {
    var ps := BindParams(d, 1, n);
    forall k | 0 <= k < |ps|
      ensures Lacks(ps[k], '%')
    {
      BindParamLacksPercent(d, 1 + k);
    }
    InterleaveLacks(Segments(s), ps, '%');
  }

  /** A fragment without `%` and without markers comes back unchanged. */
  lemma {:induction false} FormatBindParamsIdentity(d: Dialect, s: string)
    requires Lacks(s, '%')
    ensures IsTemplate(s) && MarkerCount(s) == 0
    ensures FormatBindParams(d, s, 0) == s
  {
    MarkerCountLacks(s);
  }

  /** The placeholders for ordinals 1 and 2. */
  lemma {:induction false} FirstTwoBindParams(d: Dialect)
    ensures BindParams(d, 1, 2) == [[Sigil(d), '1'], [Sigil(d), '2']]
  {
    assert Decimal(1) == "1" && Decimal(2) == "2";
    assert BindParam(d, 1) == [Sigil(d), '1'];
    assert BindParam(d, 2) == [Sigil(d), '2'];
  }

  lemma {:induction false} InterleaveTwo(segs: seq<string>, a: string, b: string)
    requires |segs| == 3
    ensures Interleave(segs, [a, b]) == segs[0] + a + segs[1] + b + segs[2]
  {
    assert [a, b][1..] == [b];
    assert [b][1..] == [];
    assert segs[1..][1..] == segs[2..];
    assert Interleave(segs[2..], []) == segs[2];
    assert Interleave(segs[1..], [b]) == segs[1] + b + segs[2];
  }

  /** The two-marker fragment from the package's own tests, in either dialect. */
  lemma {:induction false} FormatBindParamsExample(d: Dialect, f: string, r: string)
    requires f == "where x = %s and y = %s"
    requires r == if d == SQLite then "where x = ?1 and y = ?2" else "where x = $1 and y = $2"
    ensures IsTemplate(f) && MarkerCount(f) == 2
    ensures FormatBindParams(d, f, 2) == r
  {
    var segs := ["where x = ", " and y = ", ""];
    var t1, t2 := [Sigil(d), '1'], [Sigil(d), '2'];
    assert Markers(2) == ["%s", "%s"];
    assert Lacks(segs[0], '%') && Lacks(segs[1], '%') && Lacks(segs[2], '%');
    InterleaveTwo(segs, "%s", "%s");
    InterleaveTwo(segs, t1, t2);
    assert segs[0] + "%s" + segs[1] + "%s" + segs[2] == f;
    assert segs[0] + t1 + segs[1] + t2 + segs[2] == r;
    assert Interleave(segs, Markers(2)) == f;
    FormatBindParamsMarkers(d, segs);
    FirstTwoBindParams(d);
  }
}
