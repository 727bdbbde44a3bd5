/** Small value types and the JavaScript string operations the sync code relies on. */
module Base {

  datatype Option<+T> = None | Some(value: T) {
    function GetOr(default: T): T {
      match this
      case Some(v) => v
      case None => default
    }
  }

  datatype Result<+T, +E> = Ok(value: T) | Err(error: E)

  /** Milliseconds since the epoch; JavaScript `Date` values are modelled by this number. */
  type Instant = int

  /** Decimal rendering of a natural number, as a template literal `${n}` prints it. */
  function NatToString(n: nat): (r: string)
    ensures |r| >= 1
    decreases n
  {
    var d := ['0', '1', '2', '3', '4', '5', '6', '7', '8', '9'][n % 10];
    if n < 10 then [d] else NatToString(n / 10) + [d]
  }

  predicate StartsWith(s: string, prefix: string) {
    |prefix| <= |s| && s[..|prefix|] == prefix
  }

  /** The characters `String.prototype.trim` removes (WhiteSpace and LineTerminator of ECMA-262). */
  predicate IsJsWhitespace(c: char) {
    c == '\t' || c == '\n' || c == '\U{B}' || c == '\U{C}' || c == '\r' || c == ' '
    || c == '\U{A0}' || c == '\U{1680}' || ('\U{2000}' <= c <= '\U{200A}')
    || c == '\U{2028}' || c == '\U{2029}' || c == '\U{202F}' || c == '\U{205F}'
    || c == '\U{3000}' || c == '\U{FEFF}'
  }

  function TrimStart(s: string): (r: string)
    ensures |r| <= |s| && r == s[|s| - |r|..]
    ensures r == [] || !IsJsWhitespace(r[0])
    ensures forall i :: 0 <= i < |s| - |r| ==> IsJsWhitespace(s[i])
  {
    if s == [] || !IsJsWhitespace(s[0]) then s else TrimStart(s[1..])
  }

  function TrimEnd(s: string): (r: string)
    ensures |r| <= |s| && r == s[..|r|]
    ensures r == [] || !IsJsWhitespace(r[|r| - 1])
    ensures forall i :: |r| <= i < |s| ==> IsJsWhitespace(s[i])
  {
    if s == [] || !IsJsWhitespace(s[|s| - 1]) then s else TrimEnd(s[..|s| - 1])
  }

  /** `String.prototype.trim`. */
  function Trim(s: string): string {
    TrimEnd(TrimStart(s))
  }

  /** A string that ends in a non-whitespace character loses only its leading whitespace. */
  lemma TrimOfNonBlankEnd(s: string)
    requires s != [] && !IsJsWhitespace(s[|s| - 1])
    ensures Trim(s) == TrimStart(s)
  {
    var t := TrimStart(s);
    assert t != [] && t[|t| - 1] == s[|s| - 1];
  }

  /** Leading whitespace of a concatenation: once the left part has a non-blank character the
      right part is kept whole, otherwise the right part is trimmed in turn. */
  lemma {:induction false} TrimStartConcat(a: string, b: string)
    ensures TrimStart(a + b) == if TrimStart(a) == [] then TrimStart(b) else TrimStart(a) + b
    decreases |a|
  {
    if a == [] {
      assert a + b == b;
    } else if !IsJsWhitespace(a[0]) {
    } else {
      assert (a + b)[1..] == a[1..] + b;
      TrimStartConcat(a[1..], b);
    }
  }

  /** `Array.prototype.join(sep)`. */
  function Join(xs: seq<string>, sep: char): string
    decreases |xs|
  {
    if xs == [] then "" else if |xs| == 1 then xs[0] else xs[0] + [sep] + Join(xs[1..], sep)
  }

  /** Index of the first `c` in `s`, or `|s|` when there is none. */
  function IndexOfChar(s: string, c: char): (k: nat)
    ensures k <= |s|
    ensures forall i :: 0 <= i < k ==> s[i] != c
    ensures k < |s| ==> s[k] == c
  {
    if s == [] then 0 else if s[0] == c then 0 else 1 + IndexOfChar(s[1..], c)
  }

  /** `String.prototype.split(sep)` for a one-character separator. */
  function Split(s: string, sep: char): (r: seq<string>)
    ensures |r| >= 1
    decreases |s|
  {
    var k := IndexOfChar(s, sep);
    if k == |s| then [s] else [s[..k]] + Split(s[k + 1..], sep)
  }

  /** Splitting a joined list on the separator gives the list back when no element holds it. */
  lemma {:induction false} SplitJoin(xs: seq<string>, sep: char)
    requires |xs| >= 1
    requires forall i, j :: 0 <= i < |xs| && 0 <= j < |xs[i]| ==> xs[i][j] != sep
    ensures Split(Join(xs, sep), sep) == xs
    decreases |xs|
  {
    var x := xs[0];
    assert forall j :: 0 <= j < |x| ==> x[j] != sep;
    if |xs| == 1 {
      assert IndexOfChar(x, sep) == |x| by { IndexOfCharAbsent(x, sep); }
    } else {
      var rest := Join(xs[1..], sep);
      var s := x + [sep] + rest;
      assert Join(xs, sep) == s;
      IndexOfCharAfter(x, sep, rest);
      assert s[..|x|] == x;
      assert s[|x| + 1..] == rest;
      SplitJoin(xs[1..], sep);
    }
  }

  lemma {:induction false} IndexOfCharAbsent(s: string, c: char)
    requires forall j :: 0 <= j < |s| ==> s[j] != c
    ensures IndexOfChar(s, c) == |s|
  {
    if s != [] {
      IndexOfCharAbsent(s[1..], c);
    }
  }

  lemma IndexOfCharAfter(x: string, c: char, rest: string)
    requires forall j :: 0 <= j < |x| ==> x[j] != c
    ensures IndexOfChar(x + [c] + rest, c) == |x|
  {
    var s := x + [c] + rest;
    assert s[|x|] == c;
    assert forall j :: 0 <= j < |x| ==> s[j] == x[j];
  }

  predicate OccursAt(s: string, pat: string, i: int) {
    0 <= i <= |s| - |pat| && s[i..i + |pat|] == pat
  }

  /** Index of the first occurrence of `pat` in `s`, `-1` when there is none (`indexOf`). */
  function IndexOf(s: string, pat: string): (k: int)
    requires |pat| > 0
    ensures k == -1 || OccursAt(s, pat, k)
    ensures forall i :: 0 <= i < |s| && (k == -1 || i < k) ==> !OccursAt(s, pat, i)
    decreases |s|
  {
    if |s| < |pat| then -1
    else if s[..|pat|] == pat then 0
    else
      var k := IndexOf(s[1..], pat);
      assert forall i :: 1 <= i <= |s| - |pat| ==> (OccursAt(s, pat, i) <==> OccursAt(s[1..], pat, i - 1)) by {
        forall i | 1 <= i <= |s| - |pat| ensures OccursAt(s, pat, i) <==> OccursAt(s[1..], pat, i - 1) {
          var a, b := s[i..i + |pat|], s[1..][i - 1..i - 1 + |pat|];
          assert |a| == |b| && forall j :: 0 <= j < |a| ==> a[j] == s[i + j] == b[j];
        }
      }
      if k < 0 then -1 else k + 1
  }

  /** `s.replace(pat, "")` with a string pattern: only the first occurrence is removed. */
  function RemoveFirst(s: string, pat: string): (r: string)
    requires |pat| > 0
  {
    var k := IndexOf(s, pat);
    if k < 0 then s else s[..k] + s[k + |pat|..]
  }

  /** Character equality under the ignore-case rule of a non-Unicode JavaScript regular
      expression, for a pattern character that is ASCII lower case or punctuation. */
  predicate IgnoreCaseEq(c: char, p: char) {
    c == p || ('a' <= p <= 'z' && c as int == p as int - 32)
  }

  predicate IgnoreCasePrefix(s: string, pat: string) {
    |pat| <= |s| && forall j :: 0 <= j < |pat| ==> IgnoreCaseEq(s[j], pat[j])
  }
}
