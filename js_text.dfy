/**
 * The pieces of JavaScript string semantics the front-end relies on: the
 * `\s` character class, `String.prototype.trim`, `replace(/\s+/g, '-')`
 * and the truthiness of a nullable string.
 */
module JsText {
  import opened Wrappers

  /** A character of the ECMAScript `\s` class (WhiteSpace or LineTerminator).
      `trim` strips exactly this set as well. */
  predicate IsSpace(c: char): (space: bool)
    ensures c == '-' || 'a' <= c <= 'z' || 'A' <= c <= 'Z' || '0' <= c <= '9' ==> !space
    ensures c == ' ' || c == '\t' || c == '\n' || c == '\r' ==> space
  {
    || c == '\t' || c == '\n' || c == '\U{000B}' || c == '\U{000C}' || c == '\r' || c == ' '
    || c == '\U{00A0}' || c == '\U{1680}' || ('\U{2000}' <= c <= '\U{200A}')
    || c == '\U{2028}' || c == '\U{2029}' || c == '\U{202F}' || c == '\U{205F}'
    || c == '\U{3000}' || c == '\U{FEFF}'
  }

  /** Every character of `s` is whitespace (this includes the empty string). */
  ghost predicate Blank(s: string) {
    forall i :: 0 <= i < |s| ==> IsSpace(s[i])
  }

  /** No character of `s` is whitespace. */
  ghost predicate SpaceFree(s: string) {
    forall i :: 0 <= i < |s| ==> !IsSpace(s[i])
  }

  /** A `string | null` value used as a condition: null and "" are falsy. */
  predicate Truthy(s: Option<string>): (t: bool)
    ensures t <==> s != None && s != Some("")
  {
    s.Some? && s.value != ""
  }

  /** How many whitespace characters `s` starts with. */
  function LeadingSpaceCount(s: string): (n: nat)
    ensures n <= |s|
    ensures forall i :: 0 <= i < n ==> IsSpace(s[i])
    ensures n < |s| ==> !IsSpace(s[n])
  {
    if s != [] && IsSpace(s[0]) then 1 + LeadingSpaceCount(s[1..]) else 0
  }

  /** How many whitespace characters `s` ends with. */
  function TrailingSpaceCount(s: string): (n: nat)
    ensures n <= |s|
    ensures forall i :: |s| - n <= i < |s| ==> IsSpace(s[i])
    ensures n < |s| ==> !IsSpace(s[|s| - 1 - n])
  {
    if s != [] && IsSpace(s[|s| - 1]) then 1 + TrailingSpaceCount(s[..|s| - 1]) else 0
  }

  /** `s.trim()`: the slice of `s` between its leading and trailing whitespace
      runs; it has no whitespace at either end, and it is empty exactly when
      `s` is blank. */
  function Trim(s: string): (r: string)
    ensures r == [] <==> Blank(s)
    ensures r != [] ==> !IsSpace(r[0]) && !IsSpace(r[|r| - 1])
  {
    var lead := LeadingSpaceCount(s);
    if lead == |s| then
      assert s[..lead] == s;
      []
    else
      var trail := TrailingSpaceCount(s);
      assert trail < |s| - lead;
      s[lead..|s| - trail]
  }

  /** `trim` only cuts whitespace: the result is a contiguous slice of `s`
      with nothing but whitespace before and after it. */
  lemma TrimIsSlice(s: string)
    ensures var r := Trim(s);
      exists i :: 0 <= i <= |s| - |r| && r == s[i..i + |r|] && Blank(s[..i]) && Blank(s[i + |r|..])
  {
    var r, lead := Trim(s), LeadingSpaceCount(s);
    var prefix := s[..lead];
    forall i | 0 <= i < lead
      ensures IsSpace(prefix[i])
    {
      assert prefix[i] == s[i];
    }
    if lead == |s| {
      assert r == s[lead..lead] && s[lead..] == [];
    } else {
      var trail := TrailingSpaceCount(s);
      assert lead + |r| == |s| - trail;
      var suffix := s[|s| - trail..];
      forall i | 0 <= i < trail
        ensures IsSpace(suffix[i])
      {
        assert suffix[i] == s[|s| - trail + i];
      }
    }
    assert r == s[lead..lead + |r|] && Blank(prefix) && Blank(s[lead + |r|..]);
  }

  /** `s.replace(/\s+/g, '-')`: every maximal whitespace run becomes one
      hyphen. Written one character at a time: a whitespace character followed
      by another one is dropped, the last one of a run becomes the hyphen. */
  function HyphenateSpaceRuns(s: string): (r: string)
    ensures |r| <= |s|
    ensures r == [] <==> s == []
  {
    if s == [] then []
    else if !IsSpace(s[0]) then [s[0]] + HyphenateSpaceRuns(s[1..])
    else if |s| > 1 && IsSpace(s[1]) then HyphenateSpaceRuns(s[1..])
    else "-" + HyphenateSpaceRuns(s[1..])
  }

  /** The result contains no whitespace. */
  lemma {:induction false} HyphenatedSpaceFree(s: string)
    ensures SpaceFree(HyphenateSpaceRuns(s))
  {
    if s != [] {
      HyphenatedSpaceFree(s[1..]);
      var rest := HyphenateSpaceRuns(s[1..]);
      assert forall i :: 0 <= i < |rest| ==> !IsSpace(rest[i]);
    }
  }

  /** A string without whitespace is left as it is. */
  lemma {:induction false} HyphenateSpaceFree(s: string)
    requires SpaceFree(s)
    ensures HyphenateSpaceRuns(s) == s
  {
    if s != [] {
      assert !IsSpace(s[0]);
      HyphenateSpaceFree(s[1..]);
    }
  }

  /** Replacing twice gives the same as replacing once. */
  lemma {:induction false} HyphenateIdempotent(s: string)
    ensures HyphenateSpaceRuns(HyphenateSpaceRuns(s)) == HyphenateSpaceRuns(s)
  {
    HyphenatedSpaceFree(s);
    HyphenateSpaceFree(HyphenateSpaceRuns(s));
  }

  /** A whitespace run at the front becomes a single hyphen. */
  lemma {:induction false} HyphenateLeadingRun(w: string, b: string)
    requires w != [] && Blank(w)
    requires b == [] || !IsSpace(b[0])
    ensures HyphenateSpaceRuns(w + b) == "-" + HyphenateSpaceRuns(b)
  {
    var wb := w + b;
    assert wb[0] == w[0];
    assert wb[1..] == w[1..] + b;
    if |w| == 1 {
      assert wb[1..] == b;
    } else {
      assert wb[1] == w[1];
      HyphenateLeadingRun(w[1..], b);
    }
  }

  /** One step of the replacement, for a text given as its first character
      and the rest. */
  lemma HyphenateCons(c: char, s: string)
    ensures HyphenateSpaceRuns([c] + s)
         == if !IsSpace(c) then [c] + HyphenateSpaceRuns(s)
            else if s != [] && IsSpace(s[0]) then HyphenateSpaceRuns(s)
            else "-" + HyphenateSpaceRuns(s)
  {
    assert ([c] + s)[1..] == s;
  }

  /** The replacement can be done piecewise wherever a cut does not split a
      whitespace run. */
  lemma {:induction false} HyphenateAppend(x: string, y: string)
    requires x == [] || y == [] || !IsSpace(x[|x| - 1]) || !IsSpace(y[0])
    ensures HyphenateSpaceRuns(x + y) == HyphenateSpaceRuns(x) + HyphenateSpaceRuns(y)
  {
    if x == [] {
      assert x + y == y;
    } else {
      var c, t := x[0], x[1..];
      assert x == [c] + t;
      assert x + y == [c] + (t + y);
      assert t != [] ==> t[|t| - 1] == x[|x| - 1];
      HyphenateAppend(t, y);
      if !IsSpace(c) {
        AppendStepWord(c, t, y);
      } else if t != [] && IsSpace(t[0]) {
        AppendStepSpaceRun(c, t, y);
      } else {
        AppendStepRunEnd(c, t, y);
      }
    }
  }

  /** `HyphenateAppend`, the step over a leading non-space character. */
  lemma {:induction false} AppendStepWord(c: char, t: string, y: string)
    requires !IsSpace(c)
    requires HyphenateSpaceRuns(t + y) == HyphenateSpaceRuns(t) + HyphenateSpaceRuns(y)
    ensures HyphenateSpaceRuns([c] + (t + y)) == HyphenateSpaceRuns([c] + t) + HyphenateSpaceRuns(y)
  {
    HyphenateCons(c, t);
    HyphenateCons(c, t + y);
  }

  /** `HyphenateAppend`, the step over a whitespace character followed by another one. */
  lemma {:induction false} AppendStepSpaceRun(c: char, t: string, y: string)
    requires IsSpace(c) && t != [] && IsSpace(t[0])
    requires HyphenateSpaceRuns(t + y) == HyphenateSpaceRuns(t) + HyphenateSpaceRuns(y)
    ensures HyphenateSpaceRuns([c] + (t + y)) == HyphenateSpaceRuns([c] + t) + HyphenateSpaceRuns(y)
  {
    assert (t + y)[0] == t[0];
    HyphenateCons(c, t);
    HyphenateCons(c, t + y);
  }

  /** `HyphenateAppend`, the step over the last whitespace character of a run. */
  lemma {:induction false} AppendStepRunEnd(c: char, t: string, y: string)
    requires IsSpace(c) && (t == [] || !IsSpace(t[0]))
    requires t == [] ==> y == [] || !IsSpace(y[0])
    requires HyphenateSpaceRuns(t + y) == HyphenateSpaceRuns(t) + HyphenateSpaceRuns(y)
    ensures HyphenateSpaceRuns([c] + (t + y)) == HyphenateSpaceRuns([c] + t) + HyphenateSpaceRuns(y)
  {
    if t == [] {
      assert t + y == y;
    } else {
      assert (t + y)[0] == t[0];
    }
    HyphenateCons(c, t);
    HyphenateCons(c, t + y);
  }

  /** Each maximal whitespace run, wherever it stands, becomes exactly one hyphen. */
  lemma {:induction false} HyphenateRun(a: string, w: string, b: string)
    requires a == [] || !IsSpace(a[|a| - 1])
    requires w != [] && Blank(w)
    requires b == [] || !IsSpace(b[0])
    ensures HyphenateSpaceRuns(a + w + b) == HyphenateSpaceRuns(a) + "-" + HyphenateSpaceRuns(b)
  {
    assert a + w + b == a + (w + b);
    HyphenateAppend(a, w + b);
    HyphenateLeadingRun(w, b);
  }
}
