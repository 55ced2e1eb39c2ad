/** A simplified reading of numbered placeholders: a sigil followed by a run
    of decimal digits names an argument ordinal. This is the yardstick the
    statement builders are measured against. */
module Placeholders {
  import opened Text
  import opened Format
  import opened DbUtil

  /** Text that cannot contribute a placeholder: it holds no sigil of the dialect. */
  predicate Plain(d: Dialect, s: string) {
    Lacks(s, Sigil(d))
  }

  /** Ordinals `lo, lo+1, ..., hi-1`. */
  function Range(lo: int, hi: int): (r: seq<int>)
    ensures |r| == if lo <= hi then hi - lo else 0
    ensures forall k :: 0 <= k < |r| ==> r[k] == lo + k
    decreases hi - lo
  {
    if lo >= hi then [] else [lo] + Range(lo + 1, hi)
  }

  /** The length of the run of digits at the front of `s`. */
  function DigitRun(s: string): (k: nat)
    ensures k <= |s|
    ensures k < |s| ==> !IsDigit(s[k])
  {
    if s == [] || !IsDigit(s[0]) then 0 else 1 + DigitRun(s[1..])
  }

  /** The ordinal named by the digits right after a sigil, if there are any. */
  function Ordinal(s: string): seq<int> {
    var k := DigitRun(s);
    if k == 0 then [] else [DigitsValue(s[..k])]
  }

  /** The ordinals of the placeholders in `s`, in text order. */
  function Ordinals(d: Dialect, s: string): seq<int>
    decreases |s|
  {
    if s == [] then []
    else if s[0] != Sigil(d) then Ordinals(d, s[1..])
    else Ordinal(s[1..]) + Ordinals(d, s[1 + DigitRun(s[1..])..])
  }

  lemma {:induction false} OrdinalAppend(a: string, b: string)
    requires b == [] || !IsDigit(b[0])
    ensures DigitRun(a + b) == DigitRun(a)
    ensures Ordinal(a + b) == Ordinal(a)
  {
    DigitRunAppend(a, b);
    var k := DigitRun(a);
    assert (a + b)[..k] == a[..k];
  }

  /** Sigil-free text in front of a statement adds no placeholder. */
  lemma {:induction false} OrdinalsPlainPrefix(d: Dialect, a: string, b: string)
    requires Plain(d, a)
    ensures Ordinals(d, a + b) == Ordinals(d, b)
  {
    if a == [] {
      assert a + b == b;
    } else {
      var ab := a + b;
      assert ab[0] == a[0] != Sigil(d);
      assert ab[1..] == a[1..] + b;
      assert Plain(d, a[1..]) by {
        forall i | 0 <= i < |a[1..]| ensures a[1..][i] != Sigil(d) {
          assert a[1..][i] == a[i + 1];
        }
      }
      OrdinalsPlainPrefix(d, a[1..], b);
      assert Ordinals(d, ab) == Ordinals(d, ab[1..]);
    }
  }

  lemma {:induction false} DigitRunAppend(a: string, b: string)
    requires b == [] || !IsDigit(b[0])
    ensures DigitRun(a + b) == DigitRun(a)
  {
    if a == [] {
      assert a + b == b;
    } else if IsDigit(a[0]) {
      assert (a + b)[1..] == a[1..] + b;
      DigitRunAppend(a[1..], b);
    }
  }

  /** Two texts read as the concatenation of their placeholders, as long as
      the second does not start with a digit that would extend the first's last ordinal. */
  lemma {:induction false} OrdinalsAppend(d: Dialect, a: string, b: string)
    requires b == [] || !IsDigit(b[0])
    ensures Ordinals(d, a + b) == Ordinals(d, a) + Ordinals(d, b)
    decreases |a|
  {
    if a == [] {
      assert a + b == b;
    } else if a[0] != Sigil(d) {
      OrdinalsAppend(d, a[1..], b);
      OrdinalsAppendAtText(d, a, b);
    } else {
      var k := DigitRun(a[1..]);
      OrdinalsAppend(d, a[1 + k..], b);
      OrdinalsAppendAtSigil(d, a, b, k);
    }
  }

  /** The step of `OrdinalsAppend` at a character that is not the sigil. */
  lemma {:induction false} OrdinalsAppendAtText(d: Dialect, a: string, b: string)
    requires a != [] && a[0] != Sigil(d)
    requires Ordinals(d, a[1..] + b) == Ordinals(d, a[1..]) + Ordinals(d, b)
    ensures Ordinals(d, a + b) == Ordinals(d, a) + Ordinals(d, b)
  {
    var ab := a + b;
    assert ab[0] == a[0];
    assert ab[1..] == a[1..] + b;
  }

  /** One reading step at a sigil: its ordinal, then the text after its digits. */
  lemma {:induction false} OrdinalsAtSigil(d: Dialect, s: string, k: nat)
    requires s != [] && s[0] == Sigil(d) && k == DigitRun(s[1..])
    ensures Ordinals(d, s) == Ordinal(s[1..]) + Ordinals(d, s[1 + k..])
  {
  }

  /** The step of `OrdinalsAppend` at the sigil: the digits after it stay with it. */
  lemma {:induction false} OrdinalsAppendAtSigil(d: Dialect, a: string, b: string, k: nat)
    requires a != [] && a[0] == Sigil(d) && k == DigitRun(a[1..])
    requires b == [] || !IsDigit(b[0])
    requires Ordinals(d, a[1 + k..] + b) == Ordinals(d, a[1 + k..]) + Ordinals(d, b)
    ensures Ordinals(d, a + b) == Ordinals(d, a) + Ordinals(d, b)
  {
    var ab := a + b;
    DropOfAppend(a, b, 1);
    DropOfAppend(a, b, 1 + k);
    OrdinalAppend(a[1..], b);
    OrdinalsAtSigil(d, ab, k);
    OrdinalsAtSigil(d, a, k);
    Associate(Ordinal(a[1..]), Ordinals(d, a[1 + k..]), Ordinals(d, b));
  }

  lemma {:induction false} DropOfAppend(a: string, b: string, j: nat)
    requires j <= |a|
    ensures (a + b)[j..] == a[j..] + b
    ensures j < |a| ==> (a + b)[j] == a[j]
  {
  }

  lemma {:induction false} Associate(h: seq<int>, x: seq<int>, y: seq<int>)
    ensures h + (x + y) == (h + x) + y
  {
  }

  /** A placeholder token reads as its own ordinal. */
  lemma {:induction false} OrdinalsOfBindParam(d: Dialect, i: nat)
    ensures Ordinals(d, BindParam(d, i)) == [i]
  {
    var t := BindParam(d, i);
    var ds := t[1..];
    assert ds == NatDigits(i);
    DigitRunAll(ds);
    assert ds[..|ds|] == ds;
    assert Ordinal(ds) == [i];
    assert t[1 + |ds|..] == [];
    assert t[0] == Sigil(d);
    assert Ordinals(d, t) == Ordinal(ds) + Ordinals(d, t[1 + |ds|..]);
  }

  lemma {:induction false} DigitRunAll(s: string)
    requires AllDigits(s)
    ensures DigitRun(s) == |s|
  {
  }

  /** Joining tokens that carry consecutive ordinals, with a sigil-free
      separator that does not start with a digit, reads as those ordinals in order. */
  lemma {:induction false} OrdinalsJoinNumbered(d: Dialect, parts: seq<string>, sep: string, from: int, to: int)
    requires sep != [] && !IsDigit(sep[0]) && Plain(d, sep)
    requires forall k :: 0 <= k < |parts| ==> Ordinals(d, parts[k]) == [from + k]
    requires to == from + |parts|
    ensures Ordinals(d, Join(parts, sep)) == Range(from, to)
    decreases |parts|
  {
    if |parts| == 1 {
      assert Ordinals(d, parts[0]) == [from + 0];
    } else if |parts| > 1 {
      var tail := parts[1..];
      forall k | 0 <= k < |tail|
        ensures Ordinals(d, tail[k]) == [from + 1 + k]
      {
        assert tail[k] == parts[k + 1];
      }
      OrdinalsJoinNumbered(d, tail, sep, from + 1, to);
      assert Ordinals(d, parts[0]) == [from + 0];
      JoinNumberedStep(d, parts[0], sep, Join(tail, sep), from, to);
    }
  }

  /** The step of `OrdinalsJoinNumbered`: a token for `from` in front of the
      separator and the rest of the list. */
  lemma {:induction false} JoinNumberedStep(d: Dialect, first: string, sep: string, rest: string, from: int, to: int)
    requires sep != [] && !IsDigit(sep[0]) && Plain(d, sep)
    requires Ordinals(d, first) == [from]
    requires to > from && Ordinals(d, rest) == Range(from + 1, to)
    ensures Ordinals(d, first + sep + rest) == Range(from, to)
  {
    assert first + sep + rest == first + (sep + rest);
    OrdinalsAppend(d, first, sep + rest);
    OrdinalsPlainPrefix(d, sep, rest);
  }

  /** A fragment whose markers are the only source of placeholders once formatted:
      it holds no sigil, and no marker is directly followed by a digit. */
  predicate SafeTemplate(d: Dialect, f: string) {
    && IsTemplate(f)
    && Plain(d, f)
    && forall i :: 0 <= i && i + 2 < |f| && f[i] == '%' ==> !IsDigit(f[i + 2])
  }

  /** Cutting a safe template anywhere but inside a marker leaves a safe template. */
  lemma {:induction false} SafeTemplateSuffix(d: Dialect, f: string, j: nat)
    requires SafeTemplate(d, f) && j <= |f| && (j == 0 || f[j - 1] != '%')
    ensures SafeTemplate(d, f[j..])
  {
  }

  /** One step of `Sprintf` at a marker. */
  lemma {:induction false} SprintfAtMarker(f: string, args: seq<string>)
    requires IsTemplate(f) && MarkerCount(f) == |args|
    requires f != [] && f[0] == '%'
    ensures IsTemplate(f[2..]) && MarkerCount(f[2..]) == |args| - 1
    ensures Sprintf(f, args) == args[0] + Sprintf(f[2..], args[1..])
  {
  }

  /** Formatting never starts with a digit unless the template does. */
  lemma {:induction false} SprintfHead(d: Dialect, g: string, from: nat, m: nat)
    requires SafeTemplate(d, g) && MarkerCount(g) == m
    requires g == [] || !IsDigit(g[0])
    ensures var r := Sprintf(g, BindParams(d, from, m)); r == [] || !IsDigit(r[0])
  {
  }

  /** Formatting a safe template with consecutive placeholders yields exactly
      those ordinals, left to right. */
  lemma {:induction false} OrdinalsSprintf(d: Dialect, f: string, from: nat, m: nat)
    requires SafeTemplate(d, f) && MarkerCount(f) == m
    ensures Ordinals(d, Sprintf(f, BindParams(d, from, m))) == Range(from, from + m)
    decreases |f|
  {
    var args := BindParams(d, from, m);
    if f == [] {
      assert Sprintf(f, args) == [];
    } else if f[0] != '%' {
      SafeTemplateSuffix(d, f, 1);
      OrdinalsSprintf(d, f[1..], from, m);
      OrdinalsAtText(d, f, args);
    } else {
      SprintfAtMarker(f, args);
      SafeTemplateSuffix(d, f, 2);
      OrdinalsSprintf(d, f[2..], from + 1, m - 1);
      OrdinalsAtMarker(d, f, from, m);
    }
  }

  /** The step of `OrdinalsSprintf` at plain text: the character adds no placeholder. */
  lemma {:induction false} OrdinalsAtText(d: Dialect, f: string, args: seq<string>)
    requires SafeTemplate(d, f) && MarkerCount(f) == |args|
    requires f != [] && f[0] != '%'
    ensures IsTemplate(f[1..]) && MarkerCount(f[1..]) == |args|
    ensures Ordinals(d, Sprintf(f, args)) == Ordinals(d, Sprintf(f[1..], args))
  {
  }

  /** The step of `OrdinalsSprintf` at a marker: the marker's token comes first. */
  lemma {:induction false} OrdinalsAtMarker(d: Dialect, f: string, from: nat, m: nat)
    requires SafeTemplate(d, f) && MarkerCount(f) == m
    requires f != [] && f[0] == '%'
    requires SafeTemplate(d, f[2..]) && MarkerCount(f[2..]) == m - 1
    requires Ordinals(d, Sprintf(f[2..], BindParams(d, from + 1, m - 1))) == Range(from + 1, from + m)
    ensures Ordinals(d, Sprintf(f, BindParams(d, from, m))) == Range(from, from + m)
  {
    var args := BindParams(d, from, m);
    SprintfAtMarker(f, args);
    assert args[1..] == BindParams(d, from + 1, m - 1);
    SprintfHead(d, f[2..], from + 1, m - 1);
    var rest := Sprintf(f[2..], args[1..]);
    var token := BindParam(d, from);
    assert Sprintf(f, args) == token + rest;
    OrdinalsAppend(d, token, rest);
    OrdinalsOfBindParam(d, from);
  }

  /** `FormatBindParams` on a safe fragment with `n` markers yields ordinals 1..n in order. */
  lemma {:induction false} FormatBindParamsOrdinals(d: Dialect, f: string, n: nat)
    requires SafeTemplate(d, f) && MarkerCount(f) == n
    ensures Ordinals(d, FormatBindParams(d, f, n)) == Range(1, n + 1)
  {
    OrdinalsSprintf(d, f, 1, n);
  }

  /** Every piece of a list is plain text. */
  predicate AllPlain(d: Dialect, parts: seq<string>) {
    forall k :: 0 <= k < |parts| ==> Plain(d, parts[k])
  }

  /** Plain text holds no placeholder. */
  lemma {:induction false} OrdinalsOfPlain(d: Dialect, s: string)
    requires Plain(d, s)
    ensures Ordinals(d, s) == []
  {
    OrdinalsPlainPrefix(d, s, []);
    assert s + [] == s;
  }

  /** Placeholders framed by plain text read as they would alone, as long as
      the text after them does not start with a digit. */
  lemma {:induction false} OrdinalsFramed(d: Dialect, pre: string, mid: string, post: string)
    requires Plain(d, pre) && Plain(d, post)
    requires post == [] || !IsDigit(post[0])
    ensures Ordinals(d, pre + mid + post) == Ordinals(d, mid)
  {
    assert pre + mid + post == pre + (mid + post);
    OrdinalsPlainPrefix(d, pre, mid + post);
    OrdinalsAppend(d, mid, post);
    OrdinalsOfPlain(d, post);
    assert Ordinals(d, mid) + [] == Ordinals(d, mid);
  }

  /** Behind a plain prefix, two texts read as the concatenation of their
      placeholders, as long as the second does not start with a digit. */
  lemma {:induction false} OrdinalsAfterPlain(d: Dialect, pre: string, mid: string, post: string)
    requires Plain(d, pre)
    requires post == [] || !IsDigit(post[0])
    ensures Ordinals(d, pre + mid + post) == Ordinals(d, mid) + Ordinals(d, post)
  {
    assert pre + mid + post == pre + (mid + post);
    OrdinalsPlainPrefix(d, pre, mid + post);
    OrdinalsAppend(d, mid, post);
  }

  /** Each of a run of consecutive placeholders reads as its own ordinal. */
  lemma {:induction false} OrdinalsOfEachBindParam(d: Dialect, from: nat, n: nat)
    ensures forall k :: 0 <= k < n ==> Ordinals(d, BindParams(d, from, n)[k]) == [from + k]
  {
    forall k | 0 <= k < n
      ensures Ordinals(d, BindParams(d, from, n)[k]) == [from + k]
    {
      OrdinalsOfBindParam(d, from + k);
    }
  }

  /** Joining plain pieces with a plain separator gives plain text. */
  lemma {:induction false} JoinPlain(d: Dialect, parts: seq<string>, sep: string)
    requires AllPlain(d, parts) && Plain(d, sep)
    ensures Plain(d, Join(parts, sep))
  {
    JoinLacks(parts, sep, Sigil(d));
  }

  lemma {:induction false} PlainConcat(d: Dialect, a: string, b: string)
    requires Plain(d, a) && Plain(d, b)
    ensures Plain(d, a + b)
  {
  }
}
