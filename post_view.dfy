/**
 * The generated-post view: how the text is cleaned for the clipboard and for
 * display, which tab is offered, what a copy puts on the clipboard, and the
 * view's two pieces of state (the "copied" flag and the active tab).
 */
module PostView {
  import opened Wrappers
  import opened Types
  import opened Text
  import ResponseParser

  /**
   * The dash the view replaces. The source file spells the em dash in its
   * UTF-8 bytes read as Windows-1252, so the pattern is this three-character
   * sequence, not U+2014.
   */
  const EM_DASH: string := "\U{00E2}\U{20AC}\U{201D}"
  const DOUBLE_HYPHEN: string := "--"
  const BOLD: string := "**"
  const ASTERISK: string := "*"
  const HYPHEN_BULLET: string := "- "

  /** `displayContent`: every dash becomes a double hyphen, nothing else changes. */
  function DisplayContent(text: string): (r: string)
    ensures !Contains(r, EM_DASH)
    ensures r == Join(Split(text, EM_DASH), DOUBLE_HYPHEN)
    ensures !Contains(text, EM_DASH) ==> r == text
  {
    assert '-' !in EM_DASH;
    ReplaceAllRemoves(text, EM_DASH, DOUBLE_HYPHEN);
    ReplaceAllSplitsAndJoins(text, EM_DASH, DOUBLE_HYPHEN);
    var r := ReplaceAll(text, EM_DASH, DOUBLE_HYPHEN);
    if Contains(text, EM_DASH) then r else ReplaceAllWithout(text, EM_DASH, DOUBLE_HYPHEN); r
  }

  /** Removing every occurrence of one character leaves none of it. */
  lemma {:induction false} RemoveCharRemoves(s: string, c: char)
    ensures c !in ReplaceAll(s, [c], "")
    decreases |s|
  {
    match IndexOf(s, [c])
    case None =>
      if c in s {
        var i :| 0 <= i < |s| && s[i] == c;
        assert s[i..i + 1] == [c];
        assert OccursAt(s, [c], i);
      }
    case Some(i) =>
      RemoveCharRemoves(s[i + 1..], c);
      if c in s[..i] {
        var j :| 0 <= j < i && s[..i][j] == c;
        assert s[j..j + 1] == [c];
        assert OccursAt(s, [c], j);
      }
  }

  /** A character that cannot occur in a text is not in it as a pattern either. */
  lemma AbsentCharAbsentPattern(s: string, pat: string, k: nat)
    requires k < |pat| && pat[k] !in s
    ensures !Contains(s, pat)
  {
    if Contains(s, pat) {
      CharOfOccurrence(s, pat, k);
    }
  }

  // ---------------------------------------------------------------------------
  // The bullet rewrite `/^\s*\*\s/gm` -> "- "

  /** Where `^` matches in multiline mode: after any line terminator. */
  predicate IsLineTerminator(c: char) {
    c == '\n' || c == '\r' || c == '\U{2028}' || c == '\U{2029}'
  }

  /** The length of the whitespace run `\s*` at the front of `s` (greedy). */
  function SpaceRun(s: string): (n: nat)
    ensures n <= |s|
    ensures IsBlank(s[..n])
    ensures n == |s| || !IsSpace(s[n])
  {
    if s != [] && IsSpace(s[0]) then
      var n := 1 + SpaceRun(s[1..]);
      assert s[..n] == [s[0]] + s[1..][..n - 1];
      n
    else 0
  }

  /**
   * The length of a match of `\s*\*\s` at the front of `s`, if there is one.
   * Backtracking cannot help the greedy run: a shorter run ends on whitespace,
   * which is not `*`.
   */
  function BulletLength(s: string): (r: Option<nat>)
    ensures r.Some? ==> 2 <= r.value <= |s|
    ensures r.Some? ==> IsBlank(s[..r.value - 2]) && s[r.value - 2] == '*' && IsSpace(s[r.value - 1])
  {
    var n := SpaceRun(s);
    if n + 1 < |s| && s[n] == '*' && IsSpace(s[n + 1]) then Some(n + 2) else None
  }

  /**
   * The global multiline replace of `^\s*\*\s` by "- ", scanning `s` from the
   * front; `lineStart` says whether `^` matches before the first character.
   * After a match the scan resumes behind it, where `^` matches only when the
   * matched `\s` was itself a line terminator.
   */
  function Rewrite(s: string, lineStart: bool): string
    decreases |s|
  {
    if s == [] then []
    else if lineStart && BulletLength(s).Some? then
      var n := BulletLength(s).value;
      HYPHEN_BULLET + Rewrite(s[n..], IsLineTerminator(s[n - 1]))
    else [s[0]] + Rewrite(s[1..], IsLineTerminator(s[0]))
  }

  function RewriteBullets(s: string): string {
    Rewrite(s, true)
  }

  /** Without an asterisk there is no bullet to rewrite. */
  lemma {:induction false} RewriteWithoutAsterisk(s: string, lineStart: bool)
    requires '*' !in s
    ensures Rewrite(s, lineStart) == s
    decreases |s|
  {
    if s != [] {
      RewriteWithoutAsterisk(s[1..], IsLineTerminator(s[0]));
    }
  }

  /** Inside a line `^` never matches, so the line is copied as it is. */
  lemma {:induction false} RewriteCopiesLine(x: string, t: string)
    requires forall k :: 0 <= k < |x| ==> !IsLineTerminator(x[k])
    ensures Rewrite(x + t, false) == x + Rewrite(t, false)
    decreases |x|
  {
    if x != [] {
      assert (x + t)[0] == x[0] && !IsLineTerminator(x[0]);
      assert (x + t)[1..] == x[1..] + t;
      assert Rewrite(x + t, false) == [x[0]] + Rewrite(x[1..] + t, false);
      RewriteCopiesLine(x[1..], t);
      assert x + Rewrite(t, false) == [x[0]] + (x[1..] + Rewrite(t, false));
    } else {
      assert x + t == t;
    }
  }

  /** The markdown list whose lines are `marker` followed by each item. */
  function BulletList(items: seq<string>, marker: string): (r: string)
    ensures items == [] ==> r == ""
  {
    Join(seq(|items|, i requires 0 <= i < |items| => marker + items[i]), "\n")
  }

  /** One-line items. */
  predicate OneLine(items: seq<string>) {
    forall i, k :: 0 <= i < |items| && 0 <= k < |items[i]| ==> !IsLineTerminator(items[i][k])
  }

  /** A non-empty list is its first line, then a line break and the rest of the list. */
  lemma BulletListFront(items: seq<string>, marker: string)
    requires items != []
    ensures BulletList(items, marker) == marker + (items[0] + BulletListTail(items[1..], marker))
  {
    var lines := seq(|items|, i requires 0 <= i < |items| => marker + items[i]);
    var rest := items[1..];
    if rest != [] {
      assert lines[1..] == seq(|rest|, i requires 0 <= i < |rest| => marker + rest[i]);
    }
  }

  /** What follows the first line of a list: nothing, or a line break and the remaining lines. */
  function BulletListTail(rest: seq<string>, marker: string): (r: string)
    ensures rest != [] ==> |r| > 0 && r[0] == '\n' && r[1..] == BulletList(rest, marker)
  {
    if rest == [] then "" else "\n" + BulletList(rest, marker)
  }

  /** An asterisk item at a line start becomes a hyphen item, and the rest of its line is copied. */
  lemma RewriteStarLine(x: string, tail: string)
    requires forall k :: 0 <= k < |x| ==> !IsLineTerminator(x[k])
    ensures Rewrite("* " + (x + tail), true) == HYPHEN_BULLET + (x + Rewrite(tail, false))
  {
    var s := "* " + (x + tail);
    assert SpaceRun(s) == 0;
    assert BulletLength(s) == Some(2);
    assert s[2..] == x + tail;
    RewriteCopiesLine(x, tail);
  }

  /** The bullet rewrite turns an asterisk list into a hyphen list, item text untouched. */
  lemma {:induction false} RewriteBulletList(items: seq<string>)
    requires OneLine(items)
    ensures RewriteBullets(BulletList(items, "* ")) == BulletList(items, HYPHEN_BULLET)
    decreases |items|
  {
    if items != [] {
      var x, rest := items[0], items[1..];
      var tail := BulletListTail(rest, "* ");
      assert forall k :: 0 <= k < |x| ==> !IsLineTerminator(x[k]) by {
        assert forall k :: 0 <= k < |x| ==> x[k] == items[0][k];
      }
      BulletListFront(items, "* ");
      BulletListFront(items, HYPHEN_BULLET);
      RewriteStarLine(x, tail);
      if rest != [] {
        assert OneLine(rest) by {
          forall i, k | 0 <= i < |rest| && 0 <= k < |rest[i]|
            ensures !IsLineTerminator(rest[i][k])
          {
            assert rest[i] == items[i + 1];
          }
        }
        RewriteBulletList(rest);
        assert Rewrite(tail, false) == "\n" + Rewrite(tail[1..], true);
      }
    }
  }

  // ---------------------------------------------------------------------------
  // cleanText

  /**
   * `cleanText`, the text put on the clipboard: dashes become double hyphens,
   * bold markers go, asterisk bullets become hyphen bullets, and every
   * remaining asterisk goes.
   */
  function CleanText(text: string): (r: string)
    ensures '*' !in r
  {
    var noDash := ReplaceAll(text, EM_DASH, DOUBLE_HYPHEN);
    var noBold := ReplaceAll(noDash, BOLD, "");
    var bullets := RewriteBullets(noBold);
    RemoveCharRemoves(bullets, '*');
    ReplaceAll(bullets, ASTERISK, "")
  }

  /** Text with neither a dash nor an asterisk is copied exactly as shown. */
  lemma CleanTextOfPlain(text: string)
    requires !Contains(text, EM_DASH) && '*' !in text
    ensures CleanText(text) == text
  {
    ReplaceAllWithout(text, EM_DASH, DOUBLE_HYPHEN);
    AbsentCharAbsentPattern(text, BOLD, 0);
    ReplaceAllWithout(text, BOLD, "");
    RewriteWithoutAsterisk(text, true);
    AbsentCharAbsentPattern(text, ASTERISK, 0);
    ReplaceAllWithout(text, ASTERISK, "");
  }

  /** A part of the asterisk list has neither a dash nor a bold marker. */
  lemma BulletItemPlain(x: string)
    requires '*' !in x && !Contains(x, EM_DASH)
    ensures !Contains("* " + x, EM_DASH) && !Contains("* " + x, BOLD)
  {
    assert "* " + x == "*" + [' '] + x;
    NotContainsAcross("*", ' ', x, EM_DASH);
    AbsentCharAbsentPattern(x, BOLD, 0);
    assert !OccursAt("*", BOLD, 0);
    NotContainsAcross("*", ' ', x, BOLD);
  }

  /** The hyphen list has no asterisk when its items have none. */
  lemma {:induction false} HyphenListPlain(items: seq<string>)
    requires forall i :: 0 <= i < |items| ==> '*' !in items[i]
    ensures '*' !in BulletList(items, HYPHEN_BULLET)
    decreases |items|
  {
    if |items| > 1 {
      var dashes := seq(|items|, i requires 0 <= i < |items| => HYPHEN_BULLET + items[i]);
      var rest := items[1..];
      assert dashes[1..] == seq(|rest|, i requires 0 <= i < |rest| => HYPHEN_BULLET + rest[i]);
      HyphenListPlain(rest);
      assert BulletList(items, HYPHEN_BULLET) == dashes[0] + "\n" + BulletList(rest, HYPHEN_BULLET);
    }
  }

  /**
   * A one-line asterisk list whose items carry no asterisk and no dash is
   * copied as the same list with hyphen bullets.
   */
  lemma CleanTextOfBulletList(items: seq<string>)
    requires OneLine(items)
    requires forall i :: 0 <= i < |items| ==> '*' !in items[i] && !Contains(items[i], EM_DASH)
    ensures CleanText(BulletList(items, "* ")) == BulletList(items, HYPHEN_BULLET)
  {
    var stars := seq(|items|, i requires 0 <= i < |items| => "* " + items[i]);
    var text := BulletList(items, "* ");
    forall k | 0 <= k < |stars|
      ensures !Contains(stars[k], EM_DASH) && !Contains(stars[k], BOLD)
    {
      BulletItemPlain(items[k]);
    }
    assert '\n' !in EM_DASH && '\n' !in BOLD;
    JoinNotContains(stars, '\n', EM_DASH);
    JoinNotContains(stars, '\n', BOLD);
    ReplaceAllWithout(text, EM_DASH, DOUBLE_HYPHEN);
    ReplaceAllWithout(text, BOLD, "");
    RewriteBulletList(items);
    HyphenListPlain(items);
    var out := BulletList(items, HYPHEN_BULLET);
    AbsentCharAbsentPattern(out, ASTERISK, 0);
    ReplaceAllWithout(out, ASTERISK, "");
  }

  // ---------------------------------------------------------------------------
  // Tabs

  datatype Tab = LinkedIn | Twitter | Telegram | Instagram | YouTube

  /** The text a tab shows and copies; the LinkedIn tab always has one. */
  function TabText(post: GeneratedPost, tab: Tab): (r: Option<string>)
    ensures tab == LinkedIn ==> r == Some(post.content)
  {
    match tab
    case LinkedIn => Some(post.content)
    case Twitter => post.shortContent
    case Telegram => post.telegramContent
    case Instagram => post.instagramContent
    case YouTube => post.youtubeContent
  }

  /** A tab button is disabled when its text is missing or empty; LinkedIn never is. */
  predicate TabDisabled(post: GeneratedPost, tab: Tab) {
    tab != LinkedIn && !IsSet(TabText(post, tab))
  }

  /** The text shown under a tab: `displayContent(text || '')`. */
  function DisplayedText(post: GeneratedPost, tab: Tab): (r: string)
    ensures !Contains(r, EM_DASH)
    ensures !IsSet(TabText(post, tab)) ==> r == ""
  {
    var t := TabText(post, tab);
    DisplayContent(if t.Some? then t.value else "")
  }

  /**
   * What `handleCopy` writes to the clipboard for the active tab: the cleaned
   * text, or nothing at all when the text is missing or empty.
   */
  function ContentToCopy(post: GeneratedPost, tab: Tab): (r: Option<string>)
    ensures r.Some? <==> IsSet(TabText(post, tab))
    ensures r.Some? ==> r.value == CleanText(TabText(post, tab).value) && '*' !in r.value
  {
    var t := TabText(post, tab);
    if IsSet(t) then Some(CleanText(t.value)) else None
  }

  /** The hook lab shows only on the LinkedIn tab, and only for a non-empty hook list. */
  predicate ShowHookLab(post: GeneratedPost, tab: Tab) {
    tab == LinkedIn && post.alternativeHooks.Some? && |post.alternativeHooks.value| > 0
  }

  /** The source list shows only on the LinkedIn tab, and only for a non-empty link list. */
  predicate ShowSources(post: GeneratedPost, tab: Tab) {
    tab == LinkedIn && post.sourceLinks.Some? && |post.sourceLinks.value| > 0
  }

  /** Away from LinkedIn a tab copies something exactly when it is enabled. */
  lemma CopyFromEnabledTab(post: GeneratedPost, tab: Tab)
    ensures tab != LinkedIn ==> (ContentToCopy(post, tab).Some? <==> !TabDisabled(post, tab))
    ensures tab == LinkedIn ==> (ContentToCopy(post, tab).None? <==> post.content == "")
  {
  }

  /**
   * For a well-formed post (every post `GeneratePost` assembles is one), a tab
   * other than LinkedIn is disabled exactly when its section is missing, and
   * the hook lab and the sources show on the LinkedIn tab exactly when their
   * lists are present.
   */
  lemma WellFormedPostTabs(p: GeneratedPost, tab: Tab)
    requires ResponseParser.WellFormed(p)
    ensures tab != LinkedIn ==> (TabDisabled(p, tab) <==> TabText(p, tab).None?)
    ensures ShowHookLab(p, tab) <==> tab == LinkedIn && p.alternativeHooks.Some?
    ensures ShowSources(p, tab) <==> tab == LinkedIn && p.sourceLinks.Some?
  {
  }

  /** The view's own state: the "copied" flag and the active tab. */
  class PostViewState {
    var copied: bool
    var activeTab: Tab

    /** The initial state: nothing copied, the LinkedIn tab. */
    constructor()
      ensures !copied && activeTab == LinkedIn
    {
      copied := false;
      activeTab := LinkedIn;
    }

    /** The active tab is one the post enables. */
    predicate ShowsEnabledTab(post: GeneratedPost)
      reads this
    {
      !TabDisabled(post, activeTab)
    }

    /** A click on a tab button; a disabled button ignores the click. */
    method SelectTab(post: GeneratedPost, tab: Tab)
      modifies this
      ensures activeTab == (if TabDisabled(post, tab) then old(activeTab) else tab)
      ensures copied == old(copied)
      ensures old(ShowsEnabledTab(post)) ==> ShowsEnabledTab(post)
    {
      if !TabDisabled(post, tab) {
        activeTab := tab;
      }
    }

    /**
     * `handleCopy`: returns what goes on the clipboard, and raises the
     * "copied" flag only when something was copied.
     */
    method Copy(post: GeneratedPost) returns (clipboard: Option<string>)
      modifies this
      ensures clipboard == ContentToCopy(post, activeTab)
      ensures activeTab == old(activeTab)
      ensures copied == (old(copied) || clipboard.Some?)
    {
      clipboard := ContentToCopy(post, activeTab);
      if clipboard.Some? {
        copied := true;
      }
    }

    /** The timer that clears the "copied" flag two seconds after a copy. */
    method CopiedExpired()
      modifies this
      ensures !copied && activeTab == old(activeTab)
    {
      copied := false;
    }
  }
}
