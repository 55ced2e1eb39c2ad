/** `fmt.Sprintf` restricted to what this package feeds it: a format whose every
    `%` opens a `%s` verb, and exactly one string argument per verb. */
module Format {
  import opened Text

  /** Every `%` of `f` is the start of a `%s` marker. */
  predicate IsTemplate(f: string) {
    forall i :: 0 <= i < |f| && f[i] == '%' ==> i + 1 < |f| && f[i + 1] == 's'
  }

  /** The number of `%s` markers of a template (the number of `%` characters). */
  function MarkerCount(f: string): nat {
    if f == [] then 0 else (if f[0] == '%' then 1 else 0) + MarkerCount(f[1..])
  }

  lemma {:induction false} MarkerCountLacks(f: string)
    requires Lacks(f, '%')
    ensures MarkerCount(f) == 0
  {
    if f != [] {
      MarkerCountLacks(f[1..]);
    }
  }

  /** `n` generic markers. */
  function Markers(n: nat): (ms: seq<string>)
    ensures |ms| == n
    ensures forall k :: 0 <= k < n ==> ms[k] == "%s"
  {
    seq(n, _ => "%s")
  }

  /** `segs[0] + toks[0] + segs[1] + ... + toks[n-1] + segs[n]`. */
  function Interleave(segs: seq<string>, toks: seq<string>): string
    requires |segs| == |toks| + 1
  {
    if toks == [] then segs[0] else segs[0] + toks[0] + Interleave(segs[1..], toks[1..])
  }

  lemma {:induction false} InterleaveConsChar(c: char, segs: seq<string>, toks: seq<string>)
    requires |segs| == |toks| + 1
    ensures Interleave([[c] + segs[0]] + segs[1..], toks) == [c] + Interleave(segs, toks)
  {
  }

  /** A character absent from every segment and every token is absent from their interleaving. */
  lemma {:induction false} InterleaveLacks(segs: seq<string>, toks: seq<string>, c: char)
    requires |segs| == |toks| + 1
    requires forall k :: 0 <= k < |segs| ==> Lacks(segs[k], c)
    requires forall k :: 0 <= k < |toks| ==> Lacks(toks[k], c)
    ensures Lacks(Interleave(segs, toks), c)
    decreases |toks|
  {
    if toks != [] {
      InterleaveLacks(segs[1..], toks[1..], c);
      var a, b, r := segs[0], toks[0], Interleave(segs[1..], toks[1..]);
      assert Interleave(segs, toks) == a + b + r;
      forall i | 0 <= i < |a + b + r|
        ensures (a + b + r)[i] != c
      {
        if i < |a| {
          assert (a + b + r)[i] == a[i];
        } else if i < |a| + |b| {
          assert (a + b + r)[i] == b[i - |a|];
        } else {
          assert (a + b + r)[i] == r[i - |a| - |b|];
        }
      }
    }
  }

  /** An empty segment and a marker in front of an interleaving with markers. */
  lemma {:induction false} InterleaveMarkerFront(rest: seq<string>, n: nat)
    requires |rest| == n + 1
    ensures Interleave([""] + rest, Markers(n + 1)) == "%s" + Interleave(rest, Markers(n))
  {
    var segs := [""] + rest;
    assert segs[1..] == rest;
    assert Markers(n + 1)[1..] == Markers(n);
  }

  /** The text of a template between its markers, left to right. Joining the
      segments back with markers gives the template again. */
  function Segments(f: string): (segs: seq<string>)
    requires IsTemplate(f)
    ensures |segs| == MarkerCount(f) + 1
    ensures forall k :: 0 <= k < |segs| ==> Lacks(segs[k], '%')
    ensures Interleave(segs, Markers(MarkerCount(f))) == f
    decreases |f|
  {
    if f == [] then
      [""]
    else if f[0] == '%' then
      TemplateDrop(f, 2);
      var rest := Segments(f[2..]);
      SegmentsAtMarker(f, rest);
      [""] + rest
    else
      TemplateDrop(f, 1);
      var rest := Segments(f[1..]);
      SegmentsAtText(f, rest);
      [[f[0]] + rest[0]] + rest[1..]
  }

  /** Cutting a template anywhere but inside a marker leaves a template. */
  lemma {:induction false} TemplateDrop(f: string, j: nat)
    requires IsTemplate(f) && j <= |f| && (j == 0 || f[j - 1] != '%')
    ensures IsTemplate(f[j..])
  {
  }

  /** The step of `Segments` at a marker: an empty segment in front of the
      segments of the text after the marker. */
  lemma {:induction false} SegmentsAtMarker(f: string, rest: seq<string>)
    requires IsTemplate(f) && f != [] && f[0] == '%'
    requires |rest| == MarkerCount(f[2..]) + 1
    requires forall k :: 0 <= k < |rest| ==> Lacks(rest[k], '%')
    requires Interleave(rest, Markers(MarkerCount(f[2..]))) == f[2..]
    ensures |[""] + rest| == MarkerCount(f) + 1
    ensures forall k :: 0 <= k < |[""] + rest| ==> Lacks(([""] + rest)[k], '%')
    ensures Interleave([""] + rest, Markers(MarkerCount(f))) == f
  {
    var segs := [""] + rest;
    assert f[1..][1..] == f[2..];
    assert MarkerCount(f) == 1 + MarkerCount(f[2..]);
    InterleaveMarkerFront(rest, MarkerCount(f[2..]));
    assert f == "%s" + f[2..];
    forall k | 0 <= k < |segs|
      ensures Lacks(segs[k], '%')
    {
      if k > 0 {
        assert segs[k] == rest[k - 1];
      }
    }
  }

  /** The step of `Segments` at a character that is not `%`: it joins the
      first segment of the rest of the text. */
  lemma {:induction false} SegmentsAtText(f: string, rest: seq<string>)
    requires IsTemplate(f) && f != [] && f[0] != '%'
    requires |rest| == MarkerCount(f[1..]) + 1
    requires forall k :: 0 <= k < |rest| ==> Lacks(rest[k], '%')
    requires Interleave(rest, Markers(MarkerCount(f[1..]))) == f[1..]
    ensures |[[f[0]] + rest[0]] + rest[1..]| == MarkerCount(f) + 1
    ensures forall k :: 0 <= k < |[[f[0]] + rest[0]] + rest[1..]| ==> Lacks(([[f[0]] + rest[0]] + rest[1..])[k], '%')
    ensures Interleave([[f[0]] + rest[0]] + rest[1..], Markers(MarkerCount(f))) == f
  {
  }

  /** The result of `fmt.Sprintf(f, args...)` for a template with one marker per argument. */
  function Sprintf(f: string, args: seq<string>): string
    requires IsTemplate(f) && MarkerCount(f) == |args|
    decreases |f|
  {
    if f == [] then
      ""
    else if f[0] == '%' then
      assert f[1..][1..] == f[2..];
      args[0] + Sprintf(f[2..], args[1..])
    else
      [f[0]] + Sprintf(f[1..], args)
  }

  /** Formatting replaces each two-character marker by its argument and keeps
      every other character. */
  lemma {:induction false} SprintfLength(f: string, args: seq<string>)
    requires IsTemplate(f) && MarkerCount(f) == |args|
    ensures |Sprintf(f, args)| == |f| - 2 * |args| + TotalLength(args)
    decreases |f|
  {
    if f == [] {
    } else if f[0] == '%' {
      assert f[1..][1..] == f[2..];
      SprintfLength(f[2..], args[1..]);
    } else {
      SprintfLength(f[1..], args);
    }
  }

  /** Sprintf puts the k-th argument where the k-th marker was and keeps every
      segment between markers as it was. */
  lemma {:induction false} SprintfSegments(f: string, args: seq<string>)
    requires IsTemplate(f) && MarkerCount(f) == |args|
    ensures Sprintf(f, args) == Interleave(Segments(f), args)
    decreases |f|
  {
    if f == [] {
    } else if f[0] == '%' {
      assert f[1..][1..] == f[2..];
      SprintfSegments(f[2..], args[1..]);
      assert ([""] + Segments(f[2..]))[1..] == Segments(f[2..]);
    } else {
      SprintfSegments(f[1..], args);
      InterleaveConsChar(f[0], Segments(f[1..]), args);
    }
  }

  /** A character other than `%` in front of a template. */
  lemma {:induction false} ConsChar(c: char, f: string, args: seq<string>)
    requires c != '%' && IsTemplate(f) && MarkerCount(f) == |args|
    ensures IsTemplate([c] + f) && MarkerCount([c] + f) == |args|
    ensures Sprintf([c] + f, args) == [c] + Sprintf(f, args)
  {
  }

  /** A marker in front of a template. */
  lemma {:induction false} ConsMarker(f: string, args: seq<string>)
    requires IsTemplate(f) && MarkerCount(f) + 1 == |args|
    ensures IsTemplate("%s" + f) && MarkerCount("%s" + f) == |args|
    ensures Sprintf("%s" + f, args) == args[0] + Sprintf(f, args[1..])
  {
  }

  /** Sprintf reads segments and markers back out of their interleaving:
      for any marker-free segments, formatting their join with markers puts
      the arguments exactly where the markers were. */
  lemma {:induction false} SprintfInterleave(segs: seq<string>, args: seq<string>)
    requires |segs| == |args| + 1
    requires forall k :: 0 <= k < |segs| ==> Lacks(segs[k], '%')
    ensures IsTemplate(Interleave(segs, Markers(|args|)))
    ensures MarkerCount(Interleave(segs, Markers(|args|))) == |args|
    ensures Sprintf(Interleave(segs, Markers(|args|)), args) == Interleave(segs, args)
    decreases |args|, |segs[0]|
  {
    if segs[0] != [] {
      var c := segs[0][0];
      var segs' := [segs[0][1..]] + segs[1..];
      assert segs'[1..] == segs[1..];
      assert [c] + segs'[0] == segs[0];
      assert [[c] + segs'[0]] + segs'[1..] == segs;
      SprintfInterleave(segs', args);
      InterleaveConsChar(c, segs', Markers(|args|));
      InterleaveConsChar(c, segs', args);
      ConsChar(c, Interleave(segs', Markers(|args|)), args);
    } else if args == [] {
      assert Interleave(segs, Markers(0)) == [];
    } else {
      var rest := Interleave(segs[1..], Markers(|args| - 1));
      SprintfInterleave(segs[1..], args[1..]);
      assert [""] + segs[1..] == segs;
      InterleaveMarkerFront(segs[1..], |args| - 1);
      ConsMarker(rest, args);
    }
  }

  /** The segments of a template written as an interleaving are the segments it was written from. */
  lemma {:induction false} SegmentsOfInterleave(segs: seq<string>, n: nat)
    requires |segs| == n + 1
    requires forall k :: 0 <= k < |segs| ==> Lacks(segs[k], '%')
    ensures IsTemplate(Interleave(segs, Markers(n)))
    ensures Segments(Interleave(segs, Markers(n))) == segs
    decreases n, |segs[0]|
  {
    SprintfInterleave(segs, Markers(n));
    var f := Interleave(segs, Markers(n));
    if segs[0] != [] {
      var c := segs[0][0];
      var segs' := [segs[0][1..]] + segs[1..];
      assert segs'[1..] == segs[1..];
      assert [c] + segs'[0] == segs[0];
      assert [[c] + segs'[0]] + segs'[1..] == segs;
      SegmentsOfInterleave(segs', n);
      InterleaveConsChar(c, segs', Markers(n));
      var f' := Interleave(segs', Markers(n));
      assert f == [c] + f';
      assert f[1..] == f';
    } else if n == 0 {
      assert f == [];
    } else {
      var rest := Interleave(segs[1..], Markers(n)[1..]);
      assert Markers(n)[1..] == Markers(n - 1);
      SegmentsOfInterleave(segs[1..], n - 1);
      assert f == "%s" + rest;
      assert f[1..][1..] == rest;
      assert f[2..] == rest;
      assert [""] + segs[1..] == segs;
    }
  }
}
