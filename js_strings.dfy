/** The two JavaScript string built-ins the quiz relies on:
    `String.prototype.trim` and `Array.prototype.join`. */
module JsStrings {

  /** The code points `trim` removes: ECMAScript WhiteSpace (TAB, VT, FF, SP,
      NBSP, ZWNBSP and the Unicode space separators) and LineTerminator
      (LF, CR, LS, PS). */
  const WhitespaceChars: set<char> := {
    '\t', '\U{000B}', '\U{000C}', ' ', '\U{00A0}', '\U{FEFF}',
    '\U{1680}', '\U{2000}', '\U{2001}', '\U{2002}', '\U{2003}', '\U{2004}',
    '\U{2005}', '\U{2006}', '\U{2007}', '\U{2008}', '\U{2009}', '\U{200A}',
    '\U{202F}', '\U{205F}', '\U{3000}',
    '\n', '\r', '\U{2028}', '\U{2029}'}

  predicate IsWhitespace(c: char) {
    c in WhitespaceChars
  }

  predicate AllWhitespace(s: string) {
    forall i :: 0 <= i < |s| ==> IsWhitespace(s[i])
  }

  /** No whitespace at either end (the empty string qualifies). */
  predicate Trimmed(s: string) {
    s == [] || (!IsWhitespace(s[0]) && !IsWhitespace(s[|s| - 1]))
  }

  /** How many whitespace characters `s` starts with. */
  function LeadingWhitespace(s: string): (n: nat)
    ensures n <= |s|
    ensures forall j :: 0 <= j < n ==> IsWhitespace(s[j])
    ensures n == |s| || !IsWhitespace(s[n])
  {
    if |s| > 0 && IsWhitespace(s[0]) then
      var m := LeadingWhitespace(s[1..]);
      assert forall j :: 1 <= j < m + 1 ==> s[j] == s[1..][j - 1];
      m + 1
    else 0
  }

  /** How many whitespace characters `s` ends with. */
  function TrailingWhitespace(s: string): (n: nat)
    ensures n <= |s|
    ensures forall j :: |s| - n <= j < |s| ==> IsWhitespace(s[j])
    ensures n == |s| || !IsWhitespace(s[|s| - n - 1])
  {
    if |s| > 0 && IsWhitespace(s[|s| - 1]) then
      var m := TrailingWhitespace(s[..|s| - 1]);
      assert forall j :: 0 <= j < |s| - 1 ==> s[j] == s[..|s| - 1][j];
      m + 1
    else 0
  }

  /** `s.trim()`: the slice of `s` left after dropping whitespace at both
      ends; empty exactly when `s` is all whitespace, and otherwise beginning
      and ending with a non-whitespace character. */
  function Trim(s: string): (r: string)
    ensures |r| <= |s|
    ensures Trimmed(r)
    ensures r == [] <==> AllWhitespace(s)
    ensures exists k :: (0 <= k <= |s| - |r| && r == s[k..k + |r|]
      && AllWhitespace(s[..k]) && AllWhitespace(s[k + |r|..]))
  {
    var lead := LeadingWhitespace(s);
    var trail := TrailingWhitespace(s);
    if lead == |s| then
      assert s[..0] == [] && s[0..0] == [] && s[0..] == s;
      []
    else
      assert lead < |s| - trail;
      var r := s[lead..|s| - trail];
      assert AllWhitespace(s[..lead]) by {
        assert forall j :: 0 <= j < lead ==> s[..lead][j] == s[j];
      }
      var tail := s[|s| - trail..];
      assert AllWhitespace(tail) by {
        assert forall j :: 0 <= j < |tail| ==> tail[j] == s[|s| - trail + j];
      }
      r
  }

  lemma TrimOfTrimmed(s: string)
    requires Trimmed(s)
    ensures Trim(s) == s
  {
  }

  /** Trimming twice is trimming once. */
  lemma TrimIdempotent(s: string)
    ensures Trim(Trim(s)) == Trim(s)
  {
    TrimOfTrimmed(Trim(s));
  }

  function TotalLength(xs: seq<string>): nat {
    if xs == [] then 0 else |xs[0]| + TotalLength(xs[1..])
  }

  /** `xs.join(sep)`: the elements in order with `sep` between neighbours. */
  function Join(xs: seq<string>, sep: string): (r: string)
    ensures |r| == TotalLength(xs) + (if xs == [] then 0 else |sep| * (|xs| - 1))
  {
    if xs == [] then ""
    else if |xs| == 1 then xs[0]
    else xs[0] + sep + Join(xs[1..], sep)
  }

  /** Joining one more element puts one more separator before it. */
  lemma {:induction false} JoinSnoc(xs: seq<string>, x: string, sep: string)
    requires xs != []
    ensures Join(xs + [x], sep) == Join(xs, sep) + sep + x
  {
    if |xs| == 1 {
      assert xs + [x] == [xs[0], x];
    } else {
      assert (xs + [x])[1..] == xs[1..] + [x];
      JoinSnoc(xs[1..], x, sep);
    }
  }

  /** When no element is empty, the join is empty exactly when there is nothing to join. */
  lemma JoinEmptyIff(xs: seq<string>, sep: string)
    requires forall i :: 0 <= i < |xs| ==> xs[i] != ""
    ensures Join(xs, sep) == "" <==> xs == []
  {
    if xs != [] {
      assert TotalLength(xs) >= |xs[0]| > 0;
    }
  }
}
