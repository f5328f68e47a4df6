/**
 The two newline rewritings the adapter applies to generated text before it
 is sent: report descriptions get CR LF line ends, comments get every line
 break doubled.
 */
module Newlines {
  import opened Text

  /** The description of a reported issue: every LF becomes CR LF. */
  function ToCrlf(s: string): (r: string)
    ensures |r| == |s| + Count(s, '\n')
    ensures Count(r, '\n') == Count(s, '\n')
    ensures forall i :: 0 <= i < |r| && r[i] == '\n' ==> 0 < i && r[i - 1] == '\r'
    ensures Remove(r, '\r') == Remove(s, '\r')
  {
    CrlfShape(s);
    CrlfLineEnds(s);
    ReplaceAll(s, "\n", "\r\n")
  }

  lemma {:induction false} CrlfShape(s: string)
    ensures var r := ReplaceAll(s, "\n", "\r\n");
      && |r| == |s| + Count(s, '\n')
      && Count(r, '\n') == Count(s, '\n')
      && Remove(r, '\r') == Remove(s, '\r')
    decreases |s|
  {
    if |s| > 0 {
      var r := ReplaceAll(s, "\n", "\r\n");
      var r' := ReplaceAll(s[1..], "\n", "\r\n");
      ReplaceCharStep(s, '\n', "\r\n");
      CrlfShape(s[1..]);
      assert s == [s[0]] + s[1..];
      CountAppend([s[0]], s[1..], '\n');
      RemoveAppend([s[0]], s[1..], '\r');
      if s[0] == '\n' {
        assert r == "\r\n" + r';
        CountAppend("\r\n", r', '\n');
        RemoveAppend("\r\n", r', '\r');
        assert Remove("\r\n", '\r') == "\n" == Remove([s[0]], '\r');
      } else {
        assert r == [s[0]] + r';
        CountAppend([s[0]], r', '\n');
        RemoveAppend([s[0]], r', '\r');
      }
    }
  }

  lemma {:induction false} CrlfLineEnds(s: string)
    ensures var r := ReplaceAll(s, "\n", "\r\n");
      forall i :: 0 <= i < |r| && r[i] == '\n' ==> 0 < i && r[i - 1] == '\r'
    decreases |s|
  {
    if |s| > 0 {
      var r := ReplaceAll(s, "\n", "\r\n");
      var r' := ReplaceAll(s[1..], "\n", "\r\n");
      var h := if s[0] == '\n' then "\r\n" else [s[0]];
      ReplaceCharStep(s, '\n', "\r\n");
      assert r == h + r';
      CrlfLineEnds(s[1..]);
      forall i | 0 <= i < |r| && r[i] == '\n'
        ensures 0 < i && r[i - 1] == '\r'
      {
        if i >= |h| {
          assert r[i] == r'[i - |h|];
          if i > |h| {
            assert r[i - 1] == r'[i - 1 - |h|];
          }
        }
      }
    }
  }

  /** The body of a posted comment: every LF becomes LF LF. */
  function DoubleNewlines(s: string): (r: string)
    ensures |r| == |s| + Count(s, '\n')
    ensures Count(r, '\n') == 2 * Count(s, '\n')
    ensures Remove(r, '\n') == Remove(s, '\n')
  {
    DoubledShape(s);
    ReplaceAll(s, "\n", "\n\n")
  }

  lemma {:induction false} DoubledShape(s: string)
    ensures var r := ReplaceAll(s, "\n", "\n\n");
      && |r| == |s| + Count(s, '\n')
      && Count(r, '\n') == 2 * Count(s, '\n')
      && Remove(r, '\n') == Remove(s, '\n')
    decreases |s|
  {
    if |s| > 0 {
      var r := ReplaceAll(s, "\n", "\n\n");
      var r' := ReplaceAll(s[1..], "\n", "\n\n");
      var h := if s[0] == '\n' then "\n\n" else [s[0]];
      ReplaceCharStep(s, '\n', "\n\n");
      assert r == h + r';
      DoubledShape(s[1..]);
      CountAppend(h, r', '\n');
      RemoveAppend(h, r', '\n');
      assert s == [s[0]] + s[1..];
      CountAppend([s[0]], s[1..], '\n');
      RemoveAppend([s[0]], s[1..], '\n');
    }
  }

  /** Turning CR LF back into LF recovers the original report text, whatever CRs it held. */
  lemma {:induction false} CrlfRoundTrip(s: string)
    ensures ReplaceAll(ToCrlf(s), "\r\n", "\n") == s
    decreases |s|
  {
    if |s| > 0 {
      var y := ToCrlf(s[1..]);
      ReplaceCharStep(s, '\n', "\r\n");
      CrlfRoundTrip(s[1..]);
      if s[0] == '\n' {
        assert ToCrlf(s) == "\r\n" + y;
        assert ("\r\n" + y)[2..] == y;
      } else {
        var x := [s[0]] + y;
        assert ToCrlf(s) == x;
        assert !("\r\n" <= x) by {
          if |y| > 0 { assert y[0] != '\n'; assert x[1] == y[0]; }
        }
        assert x[1..] == y;
      }
      assert s == [s[0]] + s[1..];
    }
  }

  /** Collapsing LF LF back into LF recovers the original comment text. */
  lemma {:induction false} DoubledRoundTrip(s: string)
    ensures ReplaceAll(DoubleNewlines(s), "\n\n", "\n") == s
    decreases |s|
  {
    if |s| > 0 {
      var y := DoubleNewlines(s[1..]);
      ReplaceCharStep(s, '\n', "\n\n");
      DoubledRoundTrip(s[1..]);
      if s[0] == '\n' {
        assert DoubleNewlines(s) == "\n\n" + y;
        assert ("\n\n" + y)[2..] == y;
      } else {
        var x := [s[0]] + y;
        assert DoubleNewlines(s) == x;
        assert x[0] != '\n';
        assert x[1..] == y;
      }
      assert s == [s[0]] + s[1..];
    }
  }

  /** Text without line breaks is sent unchanged by both rewritings. */
  lemma NoNewlinesUnchanged(s: string)
    requires '\n' !in s
    ensures ToCrlf(s) == s && DoubleNewlines(s) == s
  {
    ReplaceAllAbsent(s, "\n", "\r\n", 0);
    ReplaceAllAbsent(s, "\n", "\n\n", 0);
  }
}
