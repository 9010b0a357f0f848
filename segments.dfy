/**
  Splitting a resource name on a one-character separator, as Python's
  `str.split(sep)` does, and the two indexings the handlers apply to the
  result: `[-1]` (always defined) and `[-2]` (an IndexError when the
  separator does not occur).
 */
module Segments {
  import opened Sequences

  /** `s.split(sep)`: the pieces between consecutive separators, in order,
      empty ones included (`"a::b"` gives `["a", "", "b"]`). Never empty: a
      string without the separator yields `[s]`. */
  function Split(s: string, sep: char): (parts: seq<string>)
    ensures |parts| >= 1
    ensures forall i :: 0 <= i < |parts| ==> sep !in parts[i]
    decreases |s|
  {
    if |s| == 0 then [""]
    else
      var init := Split(s[..|s| - 1], sep);
      var c := s[|s| - 1];
      if c == sep then init + [""]
      else
        var last := init[|init| - 1];
        assert sep !in last + [c];
        init[..|init| - 1] + [last + [c]]
  }

  /** `sep.join(parts)`, the inverse of Split. */
  function Join(parts: seq<string>, sep: char): string
    requires |parts| >= 1
    decreases |parts|
  {
    if |parts| == 1 then parts[0]
    else Join(parts[..|parts| - 1], sep) + [sep] + parts[|parts| - 1]
  }

  /** Splitting one more character either starts a new piece (the
      separator) or extends the last one. */
  lemma SplitSnoc(s: string, c: char, sep: char)
    ensures var parts := Split(s, sep);
            Split(s + [c], sep) ==
              if c == sep then parts + [""] else parts[..|parts| - 1] + [parts[|parts| - 1] + [c]]
  {
    assert (s + [c])[..|s|] == s;
  }

  lemma JoinSnoc(parts: seq<string>, p: string, sep: char)
    requires |parts| >= 1
    ensures Join(parts + [p], sep) == Join(parts, sep) + [sep] + p
  {
    assert (parts + [p])[..|parts|] == parts;
  }

  lemma JoinExtendLast(parts: seq<string>, c: char, sep: char)
    requires |parts| >= 1
    ensures var n := |parts|;
            Join(parts[..n - 1] + [parts[n - 1] + [c]], sep) == Join(parts, sep) + [c]
  {
    var n := |parts|;
    var init := parts[..n - 1];
    if n == 1 {
      assert init + [parts[0] + [c]] == [parts[0] + [c]];
    } else {
      JoinSnoc(init, parts[n - 1] + [c], sep);
      JoinSnoc(init, parts[n - 1], sep);
      assert init + [parts[n - 1]] == parts;
      assert Join(init, sep) + [sep] + (parts[n - 1] + [c]) == (Join(init, sep) + [sep] + parts[n - 1]) + [c];
    }
  }

  /** Joining the pieces of a split gives the string back. */
  lemma {:induction false} JoinSplit(s: string, sep: char)
    ensures Join(Split(s, sep), sep) == s
    decreases |s|
  {
    if |s| > 0 {
      var s' := s[..|s| - 1];
      var c := s[|s| - 1];
      var init := Split(s', sep);
      JoinSplit(s', sep);
      SnocParts(s);
      SplitSnoc(s', c, sep);
      if c == sep {
        JoinSnoc(init, "", sep);
        assert [sep] + "" == [c];
      } else {
        JoinExtendLast(init, c, sep);
      }
    }
  }

  /** Appending separator-free text extends the last piece of a split. */
  lemma {:induction false} SplitAppendRun(s: string, v: string, sep: char)
    requires sep !in v
    ensures var parts := Split(s, sep);
            Split(s + v, sep) == parts[..|parts| - 1] + [parts[|parts| - 1] + v]
    decreases |v|
  {
    var parts := Split(s, sep);
    var n := |parts|;
    if |v| == 0 {
      assert s + v == s;
      assert parts[n - 1] + v == parts[n - 1];
      assert parts == parts[..n - 1] + [parts[n - 1]];
    } else {
      var v' := v[..|v| - 1];
      var c := v[|v| - 1];
      assert v == v' + [c];
      SplitAppendRun(s, v', sep);
      var q := Split(s + v', sep);
      assert q[..n - 1] == parts[..n - 1];
      AppendSnoc(s, v', c);
      AppendSnoc(parts[n - 1], v', c);
      SplitSnoc(s + v', c, sep);
    }
  }

  /** Splitting the join of separator-free pieces gives the pieces back. */
  lemma {:induction false} SplitJoin(parts: seq<string>, sep: char)
    requires |parts| >= 1
    requires forall i :: 0 <= i < |parts| ==> sep !in parts[i]
    ensures Split(Join(parts, sep), sep) == parts
    decreases |parts|
  {
    var n := |parts|;
    var last := parts[n - 1];
    if n == 1 {
      SplitAppendRun("", last, sep);
      assert "" + last == last;
      assert [""][..0] + ["" + last] == parts;
    } else {
      var init := parts[..n - 1];
      SnocParts(parts);
      SplitJoin(init, sep);
      JoinSnoc(init, last, sep);
      var j := Join(init, sep) + [sep];
      SplitSnoc(Join(init, sep), sep, sep);
      SplitAppendRun(j, last, sep);
      SnocAppend(init, "");
      assert "" + last == last;
    }
  }

  /** A split has at least two pieces exactly when the separator occurs. */
  lemma {:induction false} SplitCount(s: string, sep: char)
    ensures |Split(s, sep)| >= 2 <==> sep in s
    decreases |s|
  {
    if |s| > 0 {
      var s' := s[..|s| - 1];
      var c := s[|s| - 1];
      SplitCount(s', sep);
      assert s == s' + [c];
      assert sep in s <==> sep in s' || c == sep;
      if c != sep {
        assert |Split(s, sep)| == |Split(s', sep)|;
      }
    }
  }

  /** `s.split(sep)[-1]`: the text after the last separator, or all of
      `s` when the separator does not occur. */
  function LastSegment(s: string, sep: char): string
  {
    var parts := Split(s, sep);
    parts[|parts| - 1]
  }

  /** LastSegment is the text after the last separator: a separator-free
      suffix of `s` that is either all of `s` (exactly when `s` has no
      separator) or preceded by a separator. */
  lemma LastSegmentSpec(s: string, sep: char)
    ensures var r := LastSegment(s, sep);
            && sep !in r
            && |r| <= |s| && s[|s| - |r|..] == r
            && (sep in s <==> |r| < |s|)
            && (|r| < |s| ==> s[|s| - |r| - 1] == sep)
  {
    var parts := Split(s, sep);
    var n := |parts|;
    JoinSplit(s, sep);
    SplitCount(s, sep);
    if n > 1 {
      assert s == Join(parts[..n - 1], sep) + [sep] + parts[n - 1];
    }
  }
}
