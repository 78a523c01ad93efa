/**
 * A reply in the order the prompt asks for, written out: the main post, then
 * each delimiter followed by its section, the hooks numbered "1. ", "2. ", and
 * so on. The pieces are joined by single line breaks, where the prompt's
 * template puts a blank line between them. Parsing a reply written this way
 * gives back its sections.
 */
module RenderedReply {
  import opened Wrappers
  import opened Types
  import Text
  import LinkScan
  import opened ResponseParser

  // ---------------------------------------------------------------------------
  // The delimiters never overlap
  // ---------------------------------------------------------------------------

  /** Three dashes, a word with no dash and no line break, three dashes. */
  predicate MarkerShape(m: string) {
    |m| > 6 && m[..3] == "---" && m[|m| - 3..] == "---"
    && forall j :: 3 <= j < |m| - 3 ==> m[j] != '-' && m[j] != '\n'
  }

  /** Two delimiters of that shape whose words start differently do not contain each other. */
  lemma ShapedMarkersDistinct(a: string, b: string)
    requires MarkerShape(a) && MarkerShape(b) && a[3] != b[3]
    ensures !Text.Contains(a, b)
  {
    assert b[0] == '-' && b[1] == '-' && b[2] == '-';
    forall i | 0 <= i && i + |b| <= |a|
      ensures !Text.OccursAt(a, b, i)
    {
      if i == 0 {
        assert a[i..i + |b|][3] != b[3];
      } else if i <= 2 {
        assert a[i..i + |b|][3 - i] == a[3];
      } else {
        assert a[i..i + |b|][0] == a[i];
      }
    }
  }

  /** Three dashes around a word without dashes or line breaks have the delimiter shape. */
  lemma ShapeOf(word: string)
    requires |word| > 0 && forall j :: 0 <= j < |word| ==> word[j] != '-' && word[j] != '\n'
    ensures MarkerShape("---" + word + "---")
  {
    var m := "---" + word + "---";
    assert m[..3] == "---";
    assert m[|m| - 3..] == "---";
    assert forall j :: 3 <= j < |m| - 3 ==> m[j] == word[j - 3];
  }

  /** Every delimiter has the delimiter shape. */
  lemma MarkersShaped()
    ensures forall k :: 0 <= k < |MARKERS| ==> MarkerShape(MARKERS[k])
  {
    ShortShaped();
    TelegramShaped();
    InstagramShaped();
    YoutubeShaped();
    HooksShaped();
  }

  /** The short-version delimiter has the delimiter shape. */
  lemma ShortShaped()
    ensures MarkerShape(SHORT_MARKER)
  {
    ShapeOf("SHORT_VERSION");
    assert SHORT_MARKER == "---" + "SHORT_VERSION" + "---";
  }

  /** The Telegram delimiter has the delimiter shape. */
  lemma TelegramShaped()
    ensures MarkerShape(TELEGRAM_MARKER)
  {
    ShapeOf("TELEGRAM_VERSION");
    assert TELEGRAM_MARKER == "---" + "TELEGRAM_VERSION" + "---";
  }

  /** The Instagram delimiter has the delimiter shape. */
  lemma InstagramShaped()
    ensures MarkerShape(INSTAGRAM_MARKER)
  {
    ShapeOf("INSTAGRAM_VERSION");
    assert INSTAGRAM_MARKER == "---" + "INSTAGRAM_VERSION" + "---";
  }

  /** The YouTube delimiter has the delimiter shape. */
  lemma YoutubeShaped()
    ensures MarkerShape(YOUTUBE_MARKER)
  {
    ShapeOf("YOUTUBE_VERSION");
    assert YOUTUBE_MARKER == "---" + "YOUTUBE_VERSION" + "---";
  }

  /** The hooks delimiter has the delimiter shape. */
  lemma HooksShaped()
    ensures MarkerShape(HOOKS_MARKER)
  {
    ShapeOf("HOOKS");
    assert HOOKS_MARKER == "---" + "HOOKS" + "---";
  }

  /** The words of the delimiters start with different letters. */
  lemma MarkerInitials()
    ensures forall k :: 0 <= k < |MARKERS| ==> |MARKERS[k]| > 3 && MARKERS[k][3] == "STIYH"[k]
  {
  }

  /** A delimiter-shaped string is not empty and holds no line break. */
  lemma ShapedOneLine(m: string)
    requires MarkerShape(m)
    ensures m != [] && '\n' !in m
  {
    forall j | 0 <= j < |m| ensures m[j] != '\n' {
      if j < 3 {
        assert m[..3][j] == '-';
      } else if j >= |m| - 3 {
        assert m[|m| - 3..][j - (|m| - 3)] == '-';
      }
    }
  }

  /** No delimiter contains another, and none holds a line break. */
  lemma MarkersDistinct()
    ensures forall a, b :: 0 <= a < |MARKERS| && 0 <= b < |MARKERS| && a != b ==>
      !Text.Contains(MARKERS[a], MARKERS[b])
    ensures forall a :: 0 <= a < |MARKERS| ==> MARKERS[a] != [] && '\n' !in MARKERS[a]
  {
    MarkersShaped();
    MarkerInitials();
    forall a, b | 0 <= a < |MARKERS| && 0 <= b < |MARKERS| && a != b
      ensures !Text.Contains(MARKERS[a], MARKERS[b])
    {
      ShapedMarkersDistinct(MARKERS[a], MARKERS[b]);
    }
    forall a | 0 <= a < |MARKERS| ensures MARKERS[a] != [] && '\n' !in MARKERS[a] {
      ShapedOneLine(MARKERS[a]);
    }
  }

  /** No delimiter occurs in `s`. */
  predicate MarkerFree(s: string) {
    forall k :: 0 <= k < |MARKERS| ==> !Text.Contains(s, MARKERS[k])
  }

  // ---------------------------------------------------------------------------
  // The numbered hooks
  // ---------------------------------------------------------------------------

  /** A hook as the prompt lays it out: "3. " then the hook. */
  function NumberedLine(n: nat, hook: string): string {
    Text.NatToString(n) + ". " + hook
  }

  /** The hooks numbered from 1. */
  function NumberedLines(hooks: seq<string>): (lines: seq<string>)
    ensures |lines| == |hooks|
    ensures forall k :: 0 <= k < |hooks| ==> lines[k] == NumberedLine(k + 1, hooks[k])
  {
    seq(|hooks|, k requires 0 <= k < |hooks| => NumberedLine(k + 1, hooks[k]))
  }

  /** The hooks section: the numbered hooks, one per line. */
  function HooksText(hooks: seq<string>): string {
    Text.Join(NumberedLines(hooks), "\n")
  }

  /** A hook that survives the layout: non-empty, trimmed, on one line. */
  predicate PlainHook(h: string) {
    h != [] && Text.IsTrimmed(h) && '\n' !in h
  }

  /** Digits then a non-digit: the digits are the leading ones. */
  lemma {:induction false} LeadingDigitsOf(digits: string, rest: string)
    requires forall j :: 0 <= j < |digits| ==> Text.IsDigit(digits[j])
    requires rest != [] && !Text.IsDigit(rest[0])
    ensures LeadingDigits(digits + rest) == |digits|
    decreases |digits|
  {
    if digits != [] {
      LeadingDigitsOf(digits[1..], rest);
      assert (digits + rest)[1..] == digits[1..] + rest;
    } else {
      assert digits + rest == rest;
    }
  }

  /** Reading a numbered line back gives the hook. */
  lemma HookLineOfNumbered(n: nat, h: string)
    requires h != [] && Text.IsTrimmed(h)
    ensures HookLine(NumberedLine(n, h)) == h
  {
    var d := Text.NatToString(n);
    var line := NumberedLine(n, h);
    assert line == d + (". " + h);
    LeadingDigitsOf(d, ". " + h);
    assert line[|d|] == '.';
    assert line[|d| + 1..] == " " + h;
    Text.TrimStartOfBlankPrefix(" ", h);
    Text.TrimOfTrimmed(h);
  }

  /** Keeping the non-empty strings of a list of non-empty strings keeps them all. */
  lemma {:induction false} NonEmptyOnlyKeepsAll(xs: seq<string>)
    requires forall k :: 0 <= k < |xs| ==> xs[k] != []
    ensures NonEmptyOnly(xs) == xs
    decreases |xs|
  {
    if xs != [] {
      NonEmptyOnlyKeepsAll(xs[1..]);
      assert [xs[0]] + xs[1..] == xs;
    }
  }

  /** A numbered line holds no line break. */
  lemma NumberedLineOneLine(n: nat, h: string)
    requires '\n' !in h
    ensures '\n' !in NumberedLine(n, h)
  {
    var d := Text.NatToString(n);
    assert '\n' !in d by {
      forall j | 0 <= j < |d| ensures d[j] != '\n' {
        assert Text.IsDigit(d[j]);
      }
    }
  }

  /** The hooks section splits at line breaks into the numbered lines. */
  lemma HooksTextSplits(hooks: seq<string>)
    requires hooks != []
    requires forall k :: 0 <= k < |hooks| ==> '\n' !in hooks[k]
    ensures HooksText(hooks) != ""
    ensures Text.Split(HooksText(hooks), "\n") == NumberedLines(hooks)
  {
    var lines := NumberedLines(hooks);
    forall k | 0 <= k < |lines| ensures '\n' !in lines[k] {
      NumberedLineOneLine(k + 1, hooks[k]);
    }
    Text.SplitJoinChar(lines, '\n');
    JoinHead(lines, "\n");
    assert |lines[0]| > 0;
  }

  /** Reading the `k`-th numbered line back gives the `k`-th hook. */
  lemma HookLineAt(hooks: seq<string>, k: nat)
    requires k < |hooks| && hooks[k] != [] && Text.IsTrimmed(hooks[k])
    ensures k < |HookLines(NumberedLines(hooks))|
    ensures HookLines(NumberedLines(hooks))[k] == hooks[k]
  {
    var line := NumberedLines(hooks)[k];
    assert line == NumberedLine(k + 1, hooks[k]);
    HookLineOfNumbered(k + 1, hooks[k]);
  }

  /** Reading every numbered line back gives the hooks. */
  lemma HookLinesOfNumbered(hooks: seq<string>)
    requires forall k :: 0 <= k < |hooks| ==> hooks[k] != [] && Text.IsTrimmed(hooks[k])
    ensures HookLines(NumberedLines(hooks)) == hooks
  {
    var mapped := HookLines(NumberedLines(hooks));
    forall k | 0 <= k < |hooks| ensures mapped[k] == hooks[k] {
      HookLineAt(hooks, k);
    }
  }

  /** Parsing the hooks section of the layout gives back the hooks. */
  lemma HooksRoundTrip(hooks: seq<string>)
    requires forall k :: 0 <= k < |hooks| ==> PlainHook(hooks[k])
    ensures Hooks(HooksText(hooks)) == hooks
  {
    if hooks == [] {
      assert HooksText(hooks) == "";
    } else {
      HooksTextSplits(hooks);
      HookLinesOfNumbered(hooks);
      NonEmptyOnlyKeepsAll(hooks);
    }
  }

  /** A numbered line of a delimiter-free hook holds no delimiter. */
  lemma NumberedLineMarkerFree(n: nat, h: string)
    requires MarkerFree(h)
    ensures MarkerFree(NumberedLine(n, h))
  {
    var w := Text.NatToString(n) + ". ";
    assert NumberedLine(n, h) == w + h;
    forall k | 0 <= k < |MARKERS|
      ensures !Text.Contains(w + h, MARKERS[k])
    {
      forall j | 0 <= j < |w| ensures w[j] !in MARKERS[k] {
        if j < |Text.NatToString(n)| {
          assert Text.IsDigit(w[j]);
        }
      }
      Text.NotContainsInFront(w, h, MARKERS[k]);
    }
  }

  /** The hooks section holds no delimiter when no hook does. */
  lemma HooksTextMarkerFree(hooks: seq<string>)
    requires forall k :: 0 <= k < |hooks| ==> MarkerFree(hooks[k])
    ensures MarkerFree(HooksText(hooks))
  {
    var lines := NumberedLines(hooks);
    forall k | 0 <= k < |lines| ensures MarkerFree(lines[k]) {
      NumberedLineMarkerFree(k + 1, hooks[k]);
    }
    MarkersDistinct();
    forall m | 0 <= m < |MARKERS| ensures !Text.Contains(HooksText(hooks), MARKERS[m]) {
      Text.JoinNotContains(lines, '\n', MARKERS[m]);
    }
  }

  // ---------------------------------------------------------------------------
  // Joined pieces
  // ---------------------------------------------------------------------------

  /** A join starts with its first piece. */
  lemma JoinHead(parts: seq<string>, sep: string)
    requires |parts| >= 1
    ensures |Text.Join(parts, sep)| >= |parts[0]|
    ensures Text.Join(parts, sep)[..|parts[0]|] == parts[0]
  {
  }

  /** What follows piece `k - 1` in the joined text: a break and the join of the rest, if any. */
  function Tail(parts: seq<string>, k: nat): string {
    if k < |parts| then "\n" + Text.Join(parts[k..], "\n") else ""
  }

  /** Concatenation is associative. */
  lemma Assoc(a: string, b: string, c: string)
    ensures a + (b + c) == a + b + c
  {
  }

  /** A join from the piece at `k` is that piece and its tail. */
  lemma JoinFrom(parts: seq<string>, k: nat)
    requires k < |parts|
    ensures Text.Join(parts[k..], "\n") == parts[k] + Tail(parts, k + 1)
  {
    if k + 1 < |parts| {
      assert parts[k..][1..] == parts[k + 1..];
      Assoc(parts[k], "\n", Text.Join(parts[k + 1..], "\n"));
    } else {
      assert parts[k..] == [parts[k]];
      assert parts[k] + "" == parts[k];
    }
  }

  /** The joined text around the piece at `i`. */
  lemma JoinAround(parts: seq<string>, i: nat)
    requires 0 < i < |parts|
    ensures Text.Join(parts, "\n") == Text.Join(parts[..i], "\n") + "\n" + parts[i] + Tail(parts, i + 1)
  {
    Text.JoinSplitAt(parts, "\n", i);
    JoinFrom(parts, i);
    Assoc(Text.Join(parts[..i], "\n") + "\n", parts[i], Tail(parts, i + 1));
  }

  /** A tail is a break, the next piece and the tail after it. */
  lemma TailStep(parts: seq<string>, k: nat)
    requires k < |parts|
    ensures Tail(parts, k) == "\n" + parts[k] + Tail(parts, k + 1)
  {
    JoinFrom(parts, k);
    Assoc("\n", parts[k], Tail(parts, k + 1));
  }

  /** A tail of pieces free of a one-line pattern is free of it. */
  lemma TailFree(parts: seq<string>, k: nat, pat: string)
    requires pat != [] && '\n' !in pat
    requires forall j :: k <= j < |parts| ==> !Text.Contains(parts[j], pat)
    ensures !Text.Contains(Tail(parts, k), pat)
  {
    if k < |parts| {
      var rest := parts[k..];
      assert forall j :: 0 <= j < |rest| ==> rest[j] == parts[k + j];
      Text.JoinNotContains(rest, '\n', pat);
      NotContainsAfterBreak(Text.Join(rest, "\n"), pat);
    } else {
      assert !Text.OccursAt("", pat, 0);
    }
  }

  /** A join of pieces free of a one-line pattern is free of it. */
  lemma PrefixFree(parts: seq<string>, i: nat, pat: string)
    requires i <= |parts| && pat != [] && '\n' !in pat
    requires forall j :: 0 <= j < i ==> !Text.Contains(parts[j], pat)
    ensures !Text.Contains(Text.Join(parts[..i], "\n"), pat)
  {
    Text.JoinNotContains(parts[..i], '\n', pat);
  }

  /** The piece at `i` is a delimiter-like piece that no other piece contains. */
  predicate Separated(parts: seq<string>, i: nat) {
    i < |parts| && parts[i] != [] && '\n' !in parts[i]
    && forall j :: 0 <= j < |parts| && j != i ==> !Text.Contains(parts[j], parts[i])
  }

  /** `"\n" + x` holds a pattern without line breaks only if `x` does. */
  lemma NotContainsAfterBreak(x: string, pat: string)
    requires pat != [] && '\n' !in pat && !Text.Contains(x, pat)
    ensures !Text.Contains("\n" + x, pat)
  {
    assert !Text.OccursAt([], pat, 0);
    Text.NotContainsAcross([], '\n', x, pat);
    assert [] + ['\n'] + x == "\n" + x;
  }

  /** Splitting at a delimiter that occurs once, right after a break: the second part is what follows it. */
  lemma SecondPart(full: string, pre: string, m: string, after: string)
    requires m != [] && '\n' !in m
    requires full == pre + "\n" + m + after
    requires !Text.Contains(pre, m) && !Text.Contains(after, m)
    ensures |Text.Split(full, m)| >= 2 && Text.Split(full, m)[1] == after
  {
    assert full == pre + ['\n'] + m + after;
    Text.FirstOccurrenceAfter(pre, '\n', m, after);
    Text.SplitSecond(full, m, |pre| + 1);
    assert full[|pre| + 1 + |m|..] == after;
    Text.BeforeWithout(after, m);
  }

  /** The text before the end delimiter, trimmed, is the section. */
  lemma SectionBeforeEnd(content: string, sec: string, e: string, rest: string)
    requires e != [] && '\n' !in e && !Text.Contains(sec, e) && Text.IsTrimmed(sec)
    requires content == "\n" + sec + "\n" + e + rest
    ensures Text.Trim(Text.Split(content, e)[0]) == sec
  {
    assert content == ("\n" + sec) + ['\n'] + e + rest;
    NotContainsAfterBreak(sec, e);
    Text.FirstOccurrenceAfter("\n" + sec, '\n', e, rest);
    Text.BeforeFirst(content, e, |sec| + 2);
    Text.SplitFirst(content, e);
    assert content[..|sec| + 2] == "\n" + sec + "\n";
    Text.TrimOfPadded("\n", sec, "\n");
  }

  /** Splitting the joined text at a separated piece: the second part is its tail. */
  lemma SecondPartAt(parts: seq<string>, i: nat)
    requires 0 < i && Separated(parts, i)
    ensures |Text.Split(Text.Join(parts, "\n"), parts[i])| >= 2
    ensures Text.Split(Text.Join(parts, "\n"), parts[i])[1] == Tail(parts, i + 1)
  {
    var m := parts[i];
    JoinAround(parts, i);
    PrefixFree(parts, i, m);
    TailFree(parts, i + 1, m);
    SecondPart(Text.Join(parts, "\n"), Text.Join(parts[..i], "\n"), m, Tail(parts, i + 1));
  }

  /** A tail holding two more pieces. */
  lemma TailTwo(parts: seq<string>, k: nat)
    requires k + 1 < |parts|
    ensures Tail(parts, k) == "\n" + parts[k] + "\n" + parts[k + 1] + Tail(parts, k + 2)
  {
    var p, q := "\n" + parts[k], "\n" + parts[k + 1];
    TailStep(parts, k);
    TailStep(parts, k + 1);
    Assoc(p, q, Tail(parts, k + 2));
    Assoc(p, "\n", parts[k + 1]);
  }

  /** A section between two separated pieces is read back. */
  lemma SectionBetween(parts: seq<string>, i: nat)
    requires 0 < i && i + 2 < |parts| && Separated(parts, i)
    requires parts[i + 2] != [] && '\n' !in parts[i + 2]
    requires !Text.Contains(parts[i + 1], parts[i + 2]) && Text.IsTrimmed(parts[i + 1])
    ensures ExtractSection(Text.Join(parts, "\n"), parts[i], Some(parts[i + 2])) == parts[i + 1]
  {
    SecondPartAt(parts, i);
    TailTwo(parts, i + 1);
    SectionBeforeEnd(Tail(parts, i + 1), parts[i + 1], parts[i + 2], Tail(parts, i + 3));
  }

  /** The section after the last separated piece is read back. */
  lemma SectionLast(parts: seq<string>, i: nat)
    requires 0 < i && i + 2 == |parts| && Separated(parts, i)
    requires Text.IsTrimmed(parts[i + 1])
    ensures ExtractSection(Text.Join(parts, "\n"), parts[i], None) == parts[i + 1]
  {
    var sec := parts[i + 1];
    SecondPartAt(parts, i);
    var t := Tail(parts, i + 1);
    assert t == "\n" + sec + Tail(parts, i + 2) by {
      TailStep(parts, i + 1);
    }
    TrimAfterBreak(t, sec, Tail(parts, i + 2));
    SectionOfSecondPart(Text.Join(parts, "\n"), parts[i], t, sec);
  }

  /** With no end delimiter, the section is the second part, trimmed. */
  lemma SectionOfSecondPart(full: string, m: string, t: string, sec: string)
    requires m != [] && |Text.Split(full, m)| >= 2 && Text.Split(full, m)[1] == t
    requires Text.Trim(t) == sec
    ensures ExtractSection(full, m, None) == sec
  {
  }

  /** A break, a trimmed section and nothing else trims to the section. */
  lemma TrimAfterBreak(t: string, sec: string, rest: string)
    requires Text.IsTrimmed(sec) && rest == [] && t == "\n" + sec + rest
    ensures Text.Trim(t) == sec
  {
    Text.TrimOfPadded("\n", sec, rest);
  }

  /** Nothing follows a separated last piece. */
  lemma SectionAbsent(parts: seq<string>, i: nat)
    requires 0 < i && i + 1 == |parts| && Separated(parts, i)
    ensures ExtractSection(Text.Join(parts, "\n"), parts[i], None) == ""
  {
    SecondPartAt(parts, i);
    Text.TrimOfTrimmed("");
  }

  /** The text before the first short-version delimiter, trimmed, is the main post. */
  lemma MainOfText(full: string, main: string, after: string)
    requires Text.IsTrimmed(main) && !Text.Contains(main, SHORT_MARKER)
    requires full == main + "\n" + SHORT_MARKER + after
    ensures LinkedInContent(full) == main
  {
    assert full == main + ['\n'] + SHORT_MARKER + after;
    Text.FirstOccurrenceAfter(main, '\n', SHORT_MARKER, after);
    Text.BeforeFirst(full, SHORT_MARKER, |main| + 1);
    assert full[..|main| + 1] == "" + main + "\n";
    Text.TrimOfPadded("", main, "\n");
  }

  /** The text before a separated second piece is read back as the main post. */
  lemma MainBeforeSeparated(parts: seq<string>)
    requires |parts| >= 2 && parts[1] == SHORT_MARKER && Separated(parts, 1)
    requires Text.IsTrimmed(parts[0])
    ensures LinkedInContent(Text.Join(parts, "\n")) == parts[0]
  {
    JoinAround(parts, 1);
    assert parts[..1] == [parts[0]];
    MainOfText(Text.Join(parts, "\n"), parts[0], Tail(parts, 2));
  }

  // ---------------------------------------------------------------------------
  // The whole reply
  // ---------------------------------------------------------------------------

  /** Sections a reply can carry and be read back from. */
  predicate Renderable(s: Sections) {
    s.linkedIn != [] && Text.IsTrimmed(s.linkedIn) && MarkerFree(s.linkedIn)
    && Text.IsTrimmed(s.short) && MarkerFree(s.short)
    && Text.IsTrimmed(s.telegram) && MarkerFree(s.telegram)
    && Text.IsTrimmed(s.instagram) && MarkerFree(s.instagram)
    && Text.IsTrimmed(s.youtube) && MarkerFree(s.youtube)
    && forall k :: 0 <= k < |s.hooks| ==> PlainHook(s.hooks[k]) && MarkerFree(s.hooks[k])
  }

  /** The pieces of the reply; a section piece may itself span several lines. */
  function Layout(s: Sections): (parts: seq<string>)
    ensures |parts| == (if s.hooks == [] then 10 else 11)
  {
    [s.linkedIn, SHORT_MARKER, s.short, TELEGRAM_MARKER, s.telegram,
     INSTAGRAM_MARKER, s.instagram, YOUTUBE_MARKER, s.youtube, HOOKS_MARKER]
    + (if s.hooks == [] then [] else [HooksText(s.hooks)])
  }

  /** The reply text: the pieces joined by single line breaks. */
  function Render(s: Sections): string {
    Text.Join(Layout(s), "\n")
  }

  /** In the layout of renderable sections, every delimiter is separated. */
  lemma LayoutSeparated(s: Sections, k: nat)
    requires Renderable(s) && k < 5
    ensures Separated(Layout(s), 2 * k + 1)
    ensures Layout(s)[2 * k + 1] == MARKERS[k]
  {
    var parts := Layout(s);
    LayoutMarker(s, k);
    MarkersDistinct();
    forall j | 0 <= j < |parts| && j != 2 * k + 1
      ensures !Text.Contains(parts[j], MARKERS[k])
    {
      LayoutPieceFree(s, j, k);
    }
  }

  /** The odd pieces of the layout are the delimiters, in order. */
  lemma LayoutMarker(s: Sections, k: nat)
    requires k < 5
    ensures 2 * k + 1 < |Layout(s)| && Layout(s)[2 * k + 1] == MARKERS[k]
  {
    var parts := Layout(s);
    if k == 0 {
      assert parts[1] == MARKERS[0];
    } else if k == 1 {
      assert parts[3] == MARKERS[1];
    } else if k == 2 {
      assert parts[5] == MARKERS[2];
    } else if k == 3 {
      assert parts[7] == MARKERS[3];
    } else {
      assert parts[9] == MARKERS[4];
    }
  }

  /** Every piece of the layout but the `k`-th delimiter itself is free of that delimiter. */
  lemma LayoutPieceFree(s: Sections, j: nat, k: nat)
    requires Renderable(s) && k < 5 && j < |Layout(s)| && j != 2 * k + 1
    ensures !Text.Contains(Layout(s)[j], MARKERS[k])
  {
    var parts := Layout(s);
    if j == 10 {
      HooksTextMarkerFree(s.hooks);
      assert parts[j] == HooksText(s.hooks);
    } else if j % 2 == 1 {
      MarkersDistinct();
      assert parts[j] == MARKERS[j / 2];
    }
  }

  /** Each section but the last is free of the delimiter that follows it. */
  lemma LayoutSections(s: Sections, k: nat)
    requires Renderable(s) && k < 4
    ensures Text.IsTrimmed(Layout(s)[2 * k + 2])
    ensures !Text.Contains(Layout(s)[2 * k + 2], Layout(s)[2 * k + 3])
  {
    assert Layout(s)[2 * k + 3] == MARKERS[k + 1];
  }

  /** A string that starts and ends with pieces whose outer characters are not blank is trimmed. */
  lemma TrimmedByEnds(t: string, head: string, last: string)
    requires head != [] && !Text.IsSpace(head[0])
    requires last != [] && !Text.IsSpace(last[|last| - 1])
    requires |t| >= |head| && t[..|head|] == head
    requires |t| >= |last| && t[|t| - |last|..] == last
    ensures t != [] && Text.IsTrimmed(t)
  {
    assert t[0] == head[0];
    assert t[|t| - 1] == last[|last| - 1];
  }

  /** The last line of the layout ends with a non-blank character. */
  lemma LayoutEnds(s: Sections)
    requires Renderable(s)
    ensures Layout(s)[|Layout(s)| - 1] != []
    ensures !Text.IsSpace(Layout(s)[|Layout(s)| - 1][|Layout(s)[|Layout(s)| - 1]| - 1])
  {
    if s.hooks == [] {
      assert Layout(s)[|Layout(s)| - 1] == HOOKS_MARKER;
    } else {
      var lines := NumberedLines(s.hooks);
      JoinLast(lines, "\n");
      var h := s.hooks[|s.hooks| - 1];
      var line := lines[|lines| - 1];
      assert line == Text.NatToString(|s.hooks|) + ". " + h;
      assert line[|line| - 1] == h[|h| - 1];
      assert Layout(s)[|Layout(s)| - 1] == HooksText(s.hooks);
    }
  }

  /** The hooks section starts with a digit and ends with the last hook's last character. */
  lemma HooksTextTrimmed(hooks: seq<string>)
    requires hooks != []
    requires forall k :: 0 <= k < |hooks| ==> PlainHook(hooks[k])
    ensures Text.IsTrimmed(HooksText(hooks))
  {
    var lines := NumberedLines(hooks);
    JoinHead(lines, "\n");
    JoinLast(lines, "\n");
    var first, last := lines[0], lines[|lines| - 1];
    var d := Text.NatToString(1);
    assert first == d + (". " + hooks[0]);
    assert Text.IsDigit(first[0]) by {
      assert first[0] == d[0];
    }
    var h := hooks[|hooks| - 1];
    assert last == Text.NatToString(|hooks|) + ". " + h;
    assert last[|last| - 1] == h[|h| - 1];
    TrimmedByEnds(HooksText(hooks), first, last);
  }

  /** The text of renderable sections starts and ends with non-blank characters. */
  lemma RenderTrimmed(s: Sections)
    requires Renderable(s)
    ensures Render(s) != [] && Text.IsTrimmed(Render(s))
  {
    var parts := Layout(s);
    JoinHead(parts, "\n");
    JoinLast(parts, "\n");
    LayoutEnds(s);
    TrimmedByEnds(Render(s), parts[0], parts[|parts| - 1]);
  }

  /** A join ends with its last piece. */
  lemma JoinLast(parts: seq<string>, sep: string)
    requires |parts| >= 1
    ensures |Text.Join(parts, sep)| >= |parts[|parts| - 1]|
    ensures Text.Join(parts, sep)[|Text.Join(parts, sep)| - |parts[|parts| - 1]|..] == parts[|parts| - 1]
  {
    if |parts| > 1 {
      Text.JoinSplitAt(parts, sep, |parts| - 1);
      assert parts[|parts| - 1..] == [parts[|parts| - 1]];
    }
  }

  /** The main post is read back from the rendered text. */
  lemma RenderedMain(s: Sections)
    requires Renderable(s)
    ensures LinkedInContent(Render(s)) == s.linkedIn
  {
    LayoutSeparated(s, 0);
    MainBeforeSeparated(Layout(s));
  }

  /** The same, with the indices of the delimiters and the section named by the caller. */
  lemma RenderedSectionAt(s: Sections, k: nat, start: nat, section: nat, end: nat)
    requires Renderable(s) && k < 4
    requires start == 2 * k + 1 && section == 2 * k + 2 && end == 2 * k + 3
    ensures ExtractSection(Render(s), Layout(s)[start], Some(Layout(s)[end])) == Layout(s)[section]
  {
    RenderedSection(s, k);
  }

  /** The section after the `k`-th delimiter is read back from the rendered text. */
  lemma RenderedSection(s: Sections, k: nat)
    requires Renderable(s) && k < 4
    ensures ExtractSection(Render(s), Layout(s)[2 * k + 1], Some(Layout(s)[2 * k + 3])) == Layout(s)[2 * k + 2]
  {
    LayoutSeparated(s, k);
    LayoutSeparated(s, k + 1);
    LayoutSections(s, k);
    SectionBetween(Layout(s), 2 * k + 1);
  }

  /** The hooks are read back from the rendered text. */
  lemma RenderedHooks(s: Sections)
    requires Renderable(s)
    ensures Hooks(ExtractSection(Render(s), HOOKS_MARKER, None)) == s.hooks
  {
    var parts := Layout(s);
    LayoutSeparated(s, 4);
    if s.hooks == [] {
      SectionAbsent(parts, 9);
    } else {
      assert parts[10] == HooksText(s.hooks);
      HooksTextTrimmed(s.hooks);
      SectionLast(parts, 9);
      HooksRoundTrip(s.hooks);
    }
  }

  /** Parsing the rendered reply text gives back every section. */
  lemma ParseRender(s: Sections)
    requires Renderable(s)
    ensures ParseSections(Render(s)) == s
  {
    RenderedMain(s);
    RenderedSectionAt(s, 0, 1, 2, 3);
    RenderedSectionAt(s, 1, 3, 4, 5);
    RenderedSectionAt(s, 2, 5, 6, 7);
    RenderedSectionAt(s, 3, 7, 8, 9);
    RenderedHooks(s);
    LayoutNamed(s);
    ParseOfLayout(Render(s), s, Layout(s));
  }

  /** A text from which every delimiter of a layout extracts its section parses to those sections. */
  lemma ParseOfLayout(t: string, s: Sections, parts: seq<string>)
    requires |parts| >= 10
    requires parts[1] == SHORT_MARKER && parts[3] == TELEGRAM_MARKER
    requires parts[5] == INSTAGRAM_MARKER && parts[7] == YOUTUBE_MARKER && parts[9] == HOOKS_MARKER
    requires parts[2] == s.short && parts[4] == s.telegram
    requires parts[6] == s.instagram && parts[8] == s.youtube
    requires LinkedInContent(t) == s.linkedIn
    requires ExtractSection(t, parts[1], Some(parts[3])) == parts[2]
    requires ExtractSection(t, parts[3], Some(parts[5])) == parts[4]
    requires ExtractSection(t, parts[5], Some(parts[7])) == parts[6]
    requires ExtractSection(t, parts[7], Some(parts[9])) == parts[8]
    requires Hooks(ExtractSection(t, HOOKS_MARKER, None)) == s.hooks
    ensures ParseSections(t) == s
  {
    ParseOfSections(t, s);
  }

  /** The delimiters and sections in the layout. */
  lemma LayoutNamed(s: Sections)
    ensures Layout(s)[1] == SHORT_MARKER && Layout(s)[3] == TELEGRAM_MARKER
    ensures Layout(s)[5] == INSTAGRAM_MARKER && Layout(s)[7] == YOUTUBE_MARKER
    ensures Layout(s)[9] == HOOKS_MARKER
    ensures Layout(s)[2] == s.short && Layout(s)[4] == s.telegram
    ensures Layout(s)[6] == s.instagram && Layout(s)[8] == s.youtube
  {
  }

  /** A text whose every extraction gives the matching field parses to those fields. */
  lemma ParseOfSections(t: string, s: Sections)
    requires LinkedInContent(t) == s.linkedIn
    requires ExtractSection(t, SHORT_MARKER, Some(TELEGRAM_MARKER)) == s.short
    requires ExtractSection(t, TELEGRAM_MARKER, Some(INSTAGRAM_MARKER)) == s.telegram
    requires ExtractSection(t, INSTAGRAM_MARKER, Some(YOUTUBE_MARKER)) == s.instagram
    requires ExtractSection(t, YOUTUBE_MARKER, Some(HOOKS_MARKER)) == s.youtube
    requires Hooks(ExtractSection(t, HOOKS_MARKER, None)) == s.hooks
    ensures ParseSections(t) == s
  {
  }

  /**
   * A reply whose first choice carries the rendered text yields a post with
   * those sections, the empty ones left out.
   */
  lemma GenerateFromRendered(request: PostRequest, reply: ChatReply, s: Sections)
    requires Renderable(s) && FirstContent(reply) == Some(Render(s))
    ensures GeneratePost(request, reply).content == s.linkedIn
    ensures GeneratePost(request, reply).shortContent == NonEmpty(s.short)
    ensures GeneratePost(request, reply).telegramContent == NonEmpty(s.telegram)
    ensures GeneratePost(request, reply).instagramContent == NonEmpty(s.instagram)
    ensures GeneratePost(request, reply).youtubeContent == NonEmpty(s.youtube)
    ensures GeneratePost(request, reply).alternativeHooks == NonEmptySeq(s.hooks)
    ensures GeneratePost(request, reply).sourceLinks == NonEmptySeq(LinkScan.Links(s.linkedIn))
  {
    RenderTrimmed(s);
    FullTextOfTrimmed(reply, Render(s));
    ParseRender(s);
  }
}
