/**
 * The JavaScript string primitives the application relies on, over strings
 * of code points: `trim`, the whitespace class `\s`, `indexOf`, `split` with a
 * literal separator, a global `replace` of a literal pattern, and the decimal
 * rendering of a natural number.
 */
module Text {
  import opened Wrappers

  // ---------------------------------------------------------------------------
  // Whitespace and trim
  // ---------------------------------------------------------------------------

  /** ECMAScript WhiteSpace or LineTerminator: what `trim` removes and `\s` matches. */
  predicate IsSpace(c: char) {
    || c == '\t' || c == '\n' || c == '\U{000B}' || c == '\U{000C}' || c == '\r' || c == ' '
    || c == '\U{00A0}' || c == '\U{1680}' || ('\U{2000}' <= c <= '\U{200A}')
    || c == '\U{2028}' || c == '\U{2029}' || c == '\U{202F}' || c == '\U{205F}'
    || c == '\U{3000}' || c == '\U{FEFF}'
  }

  /** Every character of `s` is whitespace (the empty string included). */
  predicate IsBlank(s: string) {
    forall i :: 0 <= i < |s| ==> IsSpace(s[i])
  }

  /** Neither end of `s` is whitespace. */
  predicate IsTrimmed(s: string) {
    s == [] || (!IsSpace(s[0]) && !IsSpace(s[|s| - 1]))
  }

  /** `String.prototype.trimStart`: drop the leading whitespace. */
  function TrimStart(s: string): (r: string)
    ensures |r| <= |s| && r == s[|s| - |r|..]
    ensures IsBlank(s[..|s| - |r|])
    ensures r == [] || !IsSpace(r[0])
  {
    if s != [] && IsSpace(s[0]) then TrimStart(s[1..]) else s
  }

  /** `String.prototype.trimEnd`: drop the trailing whitespace. */
  function TrimEnd(s: string): (r: string)
    ensures |r| <= |s| && r == s[..|r|]
    ensures IsBlank(s[|r|..])
    ensures r == [] || !IsSpace(r[|r| - 1])
  {
    if s != [] && IsSpace(s[|s| - 1]) then TrimEnd(s[..|s| - 1]) else s
  }

  /** `String.prototype.trim`. */
  function Trim(s: string): (r: string)
    ensures IsTrimmed(r)
    ensures r == [] <==> IsBlank(s)
  {
    var t := TrimStart(s);
    var r := TrimEnd(t);
    assert r == [] ==> IsBlank(t) by {
      if r == [] { assert t[|r|..] == t; }
    }
    assert r == [] ==> IsBlank(s) by {
      if r == [] {
        assert t == [];
        assert s[..|s| - |t|] == s;
      }
    }
    r
  }

  lemma {:induction false} TrimStartOfBlankPrefix(a: string, t: string)
    requires IsBlank(a)
    requires t == [] || !IsSpace(t[0])
    ensures TrimStart(a + t) == t
    decreases |a|
  {
    if a != [] {
      assert (a + t)[1..] == a[1..] + t;
      TrimStartOfBlankPrefix(a[1..], t);
    }
  }

  lemma {:induction false} TrimEndOfBlankSuffix(t: string, b: string)
    requires IsBlank(b)
    requires t == [] || !IsSpace(t[|t| - 1])
    ensures TrimEnd(t + b) == t
    decreases |b|
  {
    if b != [] {
      assert (t + b)[..|t + b| - 1] == t + b[..|b| - 1];
      TrimEndOfBlankSuffix(t, b[..|b| - 1]);
    }
  }

  /**
   * Trim is determined by the decomposition of its input into blank prefix,
   * trimmed middle and blank suffix: it returns the middle.
   */
  lemma TrimOfPadded(a: string, m: string, b: string)
    requires IsBlank(a) && IsTrimmed(m) && IsBlank(b)
    ensures Trim(a + m + b) == m
  {
    if m == [] {
      assert a + m + b == a + b;
      assert IsBlank(a + b);
      TrimStartOfBlankPrefix(a + b, []);
      assert a + b + [] == a + b;
    } else {
      assert a + m + b == a + (m + b);
      TrimStartOfBlankPrefix(a, m + b);
      TrimEndOfBlankSuffix(m, b);
    }
  }

  /** Trimming a trimmed string changes nothing. */
  lemma TrimOfTrimmed(m: string)
    requires IsTrimmed(m)
    ensures Trim(m) == m
  {
    assert TrimStart(m) == m;
    assert TrimEnd(m) == m;
  }

  // ---------------------------------------------------------------------------
  // Occurrences and indexOf
  // ---------------------------------------------------------------------------

  /** `pat` occurs in `s` starting at index `i`. */
  predicate OccursAt(s: string, pat: string, i: int) {
    0 <= i && i + |pat| <= |s| && s[i..i + |pat|] == pat
  }

  /** `String.prototype.includes`. */
  predicate Contains(s: string, pat: string) {
    exists i :: 0 <= i <= |s| && OccursAt(s, pat, i)
  }

  lemma OccursShift(s: string, pat: string, j: nat)
    requires s != []
    ensures OccursAt(s, pat, j + 1) <==> OccursAt(s[1..], pat, j)
  {
    if j + 1 + |pat| <= |s| {
      assert s[j + 1..j + 1 + |pat|] == s[1..][j..j + |pat|];
    }
  }

  /** `String.prototype.indexOf`: the first index at which `pat` occurs. */
  function IndexOf(s: string, pat: string): (r: Option<nat>)
    ensures r.Some? ==> OccursAt(s, pat, r.value)
    ensures r.Some? ==> forall j :: 0 <= j < r.value ==> !OccursAt(s, pat, j)
    ensures r.None? ==> !Contains(s, pat)
    decreases |s|
  {
    if |s| < |pat| then None
    else if s[..|pat|] == pat then Some(0)
    else
      var rest := IndexOf(s[1..], pat);
      assert !OccursAt(s, pat, 0) by {
        assert s[0..|pat|] == s[..|pat|];
      }
      assert forall j :: 1 <= j ==> (OccursAt(s, pat, j) <==> OccursAt(s[1..], pat, j - 1)) by {
        forall j | 1 <= j ensures OccursAt(s, pat, j) <==> OccursAt(s[1..], pat, j - 1) {
          OccursShift(s, pat, j - 1);
        }
      }
      match rest
      case None => None
      case Some(k) => Some(k + 1)
  }

  /** The text before the first occurrence of `sep`, or all of `s` when there is none. */
  function Before(s: string, sep: string): (r: string)
    requires sep != []
    ensures r == s <==> !Contains(s, sep)
    ensures |r| <= |s| && r == s[..|r|]
    ensures !Contains(r, sep)
    ensures Contains(s, sep) ==> OccursAt(s, sep, |r|)
  {
    match IndexOf(s, sep)
    case None => s
    case Some(i) =>
      NoOccurrenceBeforeFirst(s, sep, i);
      s[..i]
  }

  /** A prefix that ends before the first occurrence cannot contain the pattern. */
  lemma NoOccurrenceBeforeFirst(s: string, pat: string, i: nat)
    requires pat != [] && i <= |s|
    requires forall j :: 0 <= j < i ==> !OccursAt(s, pat, j)
    ensures !Contains(s[..i], pat)
  {
    forall j | 0 <= j <= i && j + |pat| <= i
      ensures !OccursAt(s[..i], pat, j)
    {
      assert s[..i][j..j + |pat|] == s[j..j + |pat|];
      assert !OccursAt(s, pat, j);
    }
  }

  /** Every character of a pattern that occurs in `s` is a character of `s`. */
  lemma CharOfOccurrence(s: string, pat: string, k: nat)
    requires Contains(s, pat) && k < |pat|
    ensures pat[k] in s
  {
    var i :| 0 <= i <= |s| && OccursAt(s, pat, i);
    assert s[i..i + |pat|][k] == s[i + k];
  }

  /**
   * A pattern that does not hold the character `c` cannot straddle a `c`:
   * joining two strings without the pattern by `c` gives a string without it.
   */
  lemma NotContainsAcross(x: string, c: char, y: string, pat: string)
    requires c !in pat
    requires !Contains(x, pat) && !Contains(y, pat)
    ensures !Contains(x + [c] + y, pat)
  {
    var s := x + [c] + y;
    forall i | 0 <= i <= |s| && i + |pat| <= |s|
      ensures !OccursAt(s, pat, i)
    {
      if i + |pat| <= |x| {
        assert s[i..i + |pat|] == x[i..i + |pat|];
        assert !OccursAt(x, pat, i);
      } else if i > |x| {
        assert s[i..i + |pat|] == y[i - |x| - 1..i - |x| - 1 + |pat|];
        assert !OccursAt(y, pat, i - |x| - 1);
      } else {
        assert s[i..i + |pat|][|x| - i] == c;
      }
    }
  }

  /**
   * When `pat` follows a `c` it does not contain, and `x` before that `c` does
   * not contain it, the first occurrence is the one right after the `c`.
   */
  lemma FirstOccurrenceAfter(x: string, c: char, pat: string, y: string)
    requires c !in pat
    requires !Contains(x, pat)
    ensures IndexOf(x + [c] + pat + y, pat) == Some(|x| + 1)
  {
    var s := x + [c] + pat + y;
    assert s[|x| + 1..|x| + 1 + |pat|] == pat;
    assert OccursAt(s, pat, |x| + 1);
    forall j | 0 <= j < |x| + 1 && j + |pat| <= |s|
      ensures !OccursAt(s, pat, j)
    {
      if j + |pat| <= |x| {
        assert s[j..j + |pat|] == x[j..j + |pat|];
        assert !OccursAt(x, pat, j);
      } else {
        assert s[j..j + |pat|][|x| - j] == c;
      }
    }
  }

  // ---------------------------------------------------------------------------
  // split, join and a global replace
  // ---------------------------------------------------------------------------

  /** `Array.prototype.join`. */
  function Join(parts: seq<string>, sep: string): string
    decreases |parts|
  {
    if |parts| == 0 then ""
    else if |parts| == 1 then parts[0]
    else parts[0] + sep + Join(parts[1..], sep)
  }

  /**
   * `String.prototype.split` with a non-empty literal separator: the pieces
   * between the occurrences found scanning left to right.
   */
  function Split(s: string, sep: string): (parts: seq<string>)
    requires sep != []
    ensures |parts| >= 1
    ensures Join(parts, sep) == s
    ensures forall k :: 0 <= k < |parts| ==> !Contains(parts[k], sep)
    ensures |parts| >= 2 <==> Contains(s, sep)
    decreases |s|
  {
    match IndexOf(s, sep)
    case None => [s]
    case Some(i) =>
      var rest := Split(s[i + |sep|..], sep);
      NoOccurrenceBeforeFirst(s, sep, i);
      assert s == s[..i] + sep + s[i + |sep|..] by {
        assert s[i..i + |sep|] == sep;
      }
      assert ([s[..i]] + rest)[1..] == rest;
      [s[..i]] + rest
  }

  /** The first piece of a split is the text before the first separator. */
  lemma SplitFirst(s: string, sep: string)
    requires sep != []
    ensures Split(s, sep)[0] == Before(s, sep)
  {
  }

  /**
   * The second piece of a split is the text after the first separator, up to
   * the next separator.
   */
  lemma SplitSecond(s: string, sep: string, i: nat)
    requires sep != []
    requires IndexOf(s, sep) == Some(i)
    ensures |Split(s, sep)| >= 2
    ensures Split(s, sep)[1] == Before(s[i + |sep|..], sep)
  {
    SplitFirst(s[i + |sep|..], sep);
  }

  /**
   * A global `replace` of the literal `pat` by `rep`: every occurrence found
   * scanning left to right is replaced.
   */
  function ReplaceAll(s: string, pat: string, rep: string): string
    requires pat != []
    decreases |s|
  {
    match IndexOf(s, pat)
    case None => s
    case Some(i) => s[..i] + rep + ReplaceAll(s[i + |pat|..], pat, rep)
  }

  /**
   * Replacing is splitting at the pattern and joining with the replacement:
   * the text between occurrences is kept as it is.
   */
  lemma {:induction false} ReplaceAllSplitsAndJoins(s: string, pat: string, rep: string)
    requires pat != []
    ensures ReplaceAll(s, pat, rep) == Join(Split(s, pat), rep)
    decreases |s|
  {
    match IndexOf(s, pat)
    case None =>
    case Some(i) =>
      var rest := s[i + |pat|..];
      ReplaceAllSplitsAndJoins(rest, pat, rep);
      var parts := Split(s, pat);
      assert parts == [s[..i]] + Split(rest, pat);
      assert parts[1..] == Split(rest, pat);
  }

  /** A string without the pattern comes back unchanged. */
  lemma ReplaceAllWithout(s: string, pat: string, rep: string)
    requires pat != []
    requires !Contains(s, pat)
    ensures ReplaceAll(s, pat, rep) == s
  {
  }

  /**
   * When no character of `pat` is in the non-empty `rep`, the result of
   * replacing holds no occurrence of `pat`.
   */
  lemma {:induction false} ReplaceAllRemoves(s: string, pat: string, rep: string)
    requires pat != [] && rep != []
    requires forall k :: 0 <= k < |rep| ==> rep[k] !in pat
    ensures !Contains(ReplaceAll(s, pat, rep), pat)
    decreases |s|
  {
    match IndexOf(s, pat)
    case None =>
    case Some(i) =>
      var rest := s[i + |pat|..];
      var tail := ReplaceAll(rest, pat, rep);
      assert !Contains(tail, pat) by {
        ReplaceAllRemoves(rest, pat, rep);
      }
      assert !Contains(s[..i], pat) by {
        NoOccurrenceBeforeFirst(s, pat, i);
      }
      assert !Contains(rep[1..] + tail, pat) by {
        NotContainsInFront(rep[1..], tail, pat);
      }
      assert !Contains(s[..i] + [rep[0]] + (rep[1..] + tail), pat) by {
        NotContainsAcross(s[..i], rep[0], rep[1..] + tail, pat);
      }
      assert s[..i] + [rep[0]] + (rep[1..] + tail) == s[..i] + rep + tail by {
        assert rep == [rep[0]] + rep[1..];
      }
  }

  /** Putting characters that are not in the pattern in front keeps a string free of it. */
  lemma {:induction false} NotContainsInFront(w: string, y: string, pat: string)
    requires forall k :: 0 <= k < |w| ==> w[k] !in pat
    requires !Contains(y, pat)
    ensures !Contains(w + y, pat)
    decreases |w|
  {
    if w != [] {
      NotContainsInFront(w[1..], y, pat);
      assert OccursAt(y, [], 0);
      assert pat != [];
      assert !Contains([], pat);
      assert w[0] !in pat;
      NotContainsAcross([], w[0], w[1..] + y, pat);
      assert [] + [w[0]] + (w[1..] + y) == w + y;
      assert !Contains(w + y, pat);
    } else {
      assert w + y == y;
    }
  }

  /** `Before` cuts at the first occurrence. */
  lemma BeforeFirst(s: string, sep: string, i: nat)
    requires sep != [] && IndexOf(s, sep) == Some(i)
    ensures Before(s, sep) == s[..i]
  {
  }

  /** A string without `sep` is its own part before `sep`. */
  lemma BeforeWithout(s: string, sep: string)
    requires sep != [] && !Contains(s, sep)
    ensures Before(s, sep) == s
  {
  }

  /** Joining splits at any inner index into the two joins around one separator. */
  lemma {:induction false} JoinSplitAt(parts: seq<string>, sep: string, k: nat)
    requires 0 < k < |parts|
    ensures Join(parts, sep) == Join(parts[..k], sep) + sep + Join(parts[k..], sep)
    decreases k
  {
    if k > 1 {
      var tail := parts[1..];
      JoinSplitAt(tail, sep, k - 1);
      assert tail[..k - 1] == parts[..k][1..];
      assert tail[k - 1..] == parts[k..];
    } else {
      assert parts[..1] == [parts[0]];
      assert parts[1..] == parts[k..];
    }
  }

  /** Joined with one character, pieces free of a pattern that lacks it stay free of it. */
  lemma {:induction false} JoinNotContains(parts: seq<string>, c: char, pat: string)
    requires pat != [] && c !in pat
    requires forall k :: 0 <= k < |parts| ==> !Contains(parts[k], pat)
    ensures !Contains(Join(parts, [c]), pat)
    decreases |parts|
  {
    if |parts| == 0 {
      assert !OccursAt([], pat, 0);
    } else if |parts| > 1 {
      JoinNotContains(parts[1..], c, pat);
      NotContainsAcross(parts[0], c, Join(parts[1..], [c]), pat);
    }
  }

  /** The first `c` after a string without `c` is the one right after it. */
  lemma IndexOfChar(x: string, c: char, y: string)
    requires c !in x
    ensures IndexOf(x + [c] + y, [c]) == Some(|x|)
  {
    var s := x + [c] + y;
    assert s[|x|..|x| + 1] == [c];
    assert OccursAt(s, [c], |x|);
    forall j | 0 <= j < |x|
      ensures !OccursAt(s, [c], j)
    {
      assert s[j..j + 1][0] == x[j];
    }
  }

  /** Splitting at a character undoes joining pieces that do not hold it. */
  lemma {:induction false} SplitJoinChar(parts: seq<string>, c: char)
    requires |parts| >= 1
    requires forall k :: 0 <= k < |parts| ==> c !in parts[k]
    ensures Split(Join(parts, [c]), [c]) == parts
    decreases |parts|
  {
    if |parts| == 1 {
      forall i | 0 <= i <= |parts[0]| ensures !OccursAt(parts[0], [c], i) {
        if i + 1 <= |parts[0]| {
          assert parts[0][i..i + 1][0] == parts[0][i];
        }
      }
    } else {
      var rest := Join(parts[1..], [c]);
      SplitJoinChar(parts[1..], c);
      IndexOfChar(parts[0], c, rest);
      var s := parts[0] + [c] + rest;
      assert s[..|parts[0]|] == parts[0];
      assert s[|parts[0]| + 1..] == rest;
    }
  }

  // ---------------------------------------------------------------------------
  // Decimal digits
  // ---------------------------------------------------------------------------

  predicate IsDigit(c: char) {
    48 <= c as int <= 57
  }

  function DigitChar(d: nat): (c: char)
    requires d < 10
    ensures IsDigit(c)
  {
    (48 + d) as char
  }

  /** The decimal rendering of `n`, as JavaScript's template strings produce it. */
  function NatToString(n: nat): (r: string)
    ensures r != []
    ensures forall i :: 0 <= i < |r| ==> IsDigit(r[i])
    decreases n
  {
    if n < 10 then [DigitChar(n)] else NatToString(n / 10) + [DigitChar(n % 10)]
  }

  /** The value of a string of decimal digits. */
  function DigitsValue(s: string): nat
    requires forall i :: 0 <= i < |s| ==> IsDigit(s[i])
    decreases |s|
  {
    if s == [] then 0
    else
      assert IsDigit(s[|s| - 1]);
      DigitsValue(s[..|s| - 1]) * 10 + ((s[|s| - 1] as int) - 48)
  }

  /** Reading back the decimal rendering gives the number. */
  lemma {:induction false} DigitsValueOfNatToString(n: nat)
    ensures DigitsValue(NatToString(n)) == n
    decreases n
  {
    if n >= 10 {
      var s := NatToString(n);
      assert s[..|s| - 1] == NatToString(n / 10);
      DigitsValueOfNatToString(n / 10);
    }
  }

  /** Different numbers render differently. */
  lemma NatToStringInjective(m: nat, n: nat)
    ensures NatToString(m) == NatToString(n) ==> m == n
  {
    DigitsValueOfNatToString(m);
    DigitsValueOfNatToString(n);
  }
}
