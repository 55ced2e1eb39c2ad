/** Strings as the Go standard library builds them for this package:
    `strings.Join` and the `%d` verb of `fmt` (decimal text of an `int`). */
module Text {

  predicate IsDigit(c: char) {
    '0' <= c <= '9'
  }

  /** True when no character of `s` is `c`. */
  predicate Lacks(s: string, c: char) {
    forall i :: 0 <= i < |s| ==> s[i] != c
  }

  predicate AllDigits(s: string) {
    forall i :: 0 <= i < |s| ==> IsDigit(s[i])
  }

  function DigitChar(d: nat): (c: char)
    requires d < 10
    ensures IsDigit(c)
  {
    ('0' as int + d) as char
  }

  function DigitValue(c: char): nat {
    if IsDigit(c) then c as int - '0' as int else 0
  }

  /** The value of a run of decimal digits, most significant first. */
  function DigitsValue(s: string): nat {
    if s == [] then 0 else DigitsValue(s[..|s| - 1]) * 10 + DigitValue(s[|s| - 1])
  }

  /** Decimal digits of a natural number, without leading zeros. */
  function NatDigits(n: nat): (s: string)
    ensures |s| >= 1
    ensures AllDigits(s)
    ensures |s| > 1 ==> s[0] != '0'
    ensures s[0] == '0' <==> n == 0
    ensures DigitsValue(s) == n
    decreases n
  {
    if n < 10 then
      [DigitChar(n)]
    else
      var s := NatDigits(n / 10) + [DigitChar(n % 10)];
      assert s[..|s| - 1] == NatDigits(n / 10);
      s
  }

  /** Decimal text as `%d` writes it: digits without a leading zero, or a minus
      sign in front of the digits of a number that is not zero. */
  predicate IsDecimalText(t: string) {
    || (|t| >= 1 && AllDigits(t) && (|t| > 1 ==> t[0] != '0'))
    || (|t| >= 2 && t[0] == '-' && AllDigits(t[1..]) && t[1] != '0')
  }

  /** The text of `fmt.Sprintf("%d", i)`: an optional minus sign, then the
      digits. It reads back as `i`, and it has a minus sign exactly when `i`
      is negative. */
  function Decimal(i: int): (s: string)
    ensures ParseDecimal(s) == i
    ensures |s| >= 1 && (s[0] == '-' <==> i < 0)
  {
    if i < 0 then
      var s := "-" + NatDigits(-i);
      assert s[1..] == NatDigits(-i);
      s
    else
      NatDigits(i)
  }

  /** Reads back the text `Decimal` writes. */
  function ParseDecimal(s: string): int {
    if |s| > 0 && s[0] == '-' then -(DigitsValue(s[1..]) as int) else DigitsValue(s)
  }

  /** Digits without a leading zero are the digits of their own value. */
  lemma {:induction false} NatDigitsUnique(t: string)
    requires |t| >= 1 && AllDigits(t) && (|t| > 1 ==> t[0] != '0')
    ensures NatDigits(DigitsValue(t)) == t
    decreases |t|
  {
    var last := t[|t| - 1];
    assert DigitChar(DigitValue(last)) == last;
    if |t| > 1 {
      var p := t[..|t| - 1];
      NatDigitsUnique(p);
      var v := DigitsValue(t);
      assert v / 10 == DigitsValue(p) && v % 10 == DigitValue(last);
      assert DigitsValue(p) != 0;
      assert p + [last] == t;
    }
  }

  /** `Decimal` writes decimal text: no leading zero, and no minus sign in
      front of zero. */
  lemma {:induction false} DecimalIsText(i: int)
    ensures IsDecimalText(Decimal(i))
  {
  }

  /** `Decimal` writes the only decimal text of each integer. */
  lemma {:induction false} DecimalCanonical(t: string)
    requires IsDecimalText(t)
    ensures Decimal(ParseDecimal(t)) == t
  {
    if t[0] == '-' {
      NatDigitsUnique(t[1..]);
      assert "-" + t[1..] == t;
    } else {
      NatDigitsUnique(t);
    }
  }

  lemma {:induction false} DecimalInjective(i: int, j: int)
    requires Decimal(i) == Decimal(j)
    ensures i == j
  {
  }

  /** `strings.Join`: the parts with `sep` between neighbours. */
  function Join(parts: seq<string>, sep: string): string {
    if |parts| == 0 then ""
    else if |parts| == 1 then parts[0]
    else parts[0] + sep + Join(parts[1..], sep)
  }

  /** The sum of the lengths of some strings. */
  function TotalLength(ss: seq<string>): nat {
    if ss == [] then 0 else |ss[0]| + TotalLength(ss[1..])
  }

  /** A join holds every character of its parts and one separator between
      each two neighbours, nothing more. */
  lemma {:induction false} JoinLength(parts: seq<string>, sep: string)
    ensures |parts| == 0 ==> Join(parts, sep) == ""
    ensures |parts| >= 1 ==> |Join(parts, sep)| == TotalLength(parts) + (|parts| - 1) * |sep|
  {
    if |parts| > 1 {
      JoinLength(parts[1..], sep);
      assert (|parts| - 1) * |sep| == (|parts| - 2) * |sep| + |sep|;
    }
  }

  /** A join is its parts in order with the separator between neighbours: one
      part joins to itself, and one more part adds the separator and that part
      at the end. */
  lemma {:induction false} JoinAppend(parts: seq<string>, p: string, sep: string)
    ensures Join([p], sep) == p
    ensures |parts| >= 1 ==> Join(parts + [p], sep) == Join(parts, sep) + sep + p
    decreases |parts|
  {
    if |parts| == 1 {
      assert (parts + [p])[1..] == [p];
    } else if |parts| > 1 {
      var rest := parts[1..];
      assert (parts + [p])[1..] == rest + [p];
      JoinAppend(rest, p, sep);
      assert Join(parts + [p], sep) == parts[0] + sep + (Join(rest, sep) + sep + p);
    }
  }

  /** The front and the back of a text made of three pieces. */
  lemma {:induction false} Affixes(v: string, m: string, t: string)
    ensures var s := v + m + t;
            |s| >= |v| + |t| && s[..|v|] == v && s[|s| - |t|..] == t
  {
  }

  /** A character absent from every part and from the separator is absent from the join. */
  lemma {:induction false} JoinLacks(parts: seq<string>, sep: string, c: char)
    requires Lacks(sep, c)
    requires forall k :: 0 <= k < |parts| ==> Lacks(parts[k], c)
    ensures Lacks(Join(parts, sep), c)
  {
    if |parts| > 1 {
      JoinLacks(parts[1..], sep, c);
    }
  }
}
