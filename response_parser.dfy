/**
 * How the service turns the chat-completion reply into a post: the text of the
 * first choice (or a fallback), the sections between the fixed delimiters,
 * the numbered alternative hooks, the source links of the main post, and the
 * assembled record.
 */
module ResponseParser {
  import opened Wrappers
  import opened Types
  import Text
  import LinkScan

  // ---------------------------------------------------------------------------
  // Delimiters and fixed texts
  // ---------------------------------------------------------------------------

  const SHORT_MARKER: string := "---SHORT_VERSION---"
  const TELEGRAM_MARKER: string := "---TELEGRAM_VERSION---"
  const INSTAGRAM_MARKER: string := "---INSTAGRAM_VERSION---"
  const YOUTUBE_MARKER: string := "---YOUTUBE_VERSION---"
  const HOOKS_MARKER: string := "---HOOKS---"

  /** The delimiters in the order the prompt asks the model to write them. */
  const MARKERS: seq<string> := [SHORT_MARKER, TELEGRAM_MARKER, INSTAGRAM_MARKER, YOUTUBE_MARKER, HOOKS_MARKER]

  const NO_CONTENT: string := "No content generated."
  const AUTO_FRAMEWORK: string := "Auto-detected based on content"
  const RATIONALE: string := "Generated via DeepSeek chat completion."

  // ---------------------------------------------------------------------------
  // The reply envelope
  // ---------------------------------------------------------------------------

  /** The parts of the decoded JSON reply the service reads; every level may be missing. */
  datatype Message = Message(content: Option<string>)
  datatype Choice = Choice(message: Option<Message>)
  datatype ChatReply = ChatReply(choices: Option<seq<Choice>>)

  /** `data.choices?.[0]?.message?.content`. */
  function FirstContent(reply: ChatReply): (r: Option<string>)
    ensures r.Some? <==>
      reply.choices.Some? && |reply.choices.value| > 0
      && reply.choices.value[0].message.Some? && reply.choices.value[0].message.value.content.Some?
  {
    if reply.choices.Some? && |reply.choices.value| > 0 && reply.choices.value[0].message.Some? then
      reply.choices.value[0].message.value.content
    else
      None
  }

  /** The trimmed text of the first choice, or the fallback when that is missing or blank. */
  function FullText(reply: ChatReply): (r: string)
    ensures r != [] && Text.IsTrimmed(r)
    ensures r == NO_CONTENT
      || (FirstContent(reply).Some? && r == Text.Trim(FirstContent(reply).value))
    ensures FirstContent(reply).Some? && !Text.IsBlank(FirstContent(reply).value) ==>
      r == Text.Trim(FirstContent(reply).value)
  {
    assert Text.IsTrimmed(NO_CONTENT) by {
      assert NO_CONTENT[0] == 'N' && NO_CONTENT[|NO_CONTENT| - 1] == '.';
    }
    match FirstContent(reply)
    case None => NO_CONTENT
    case Some(content) =>
      var trimmed := Text.Trim(content);
      if trimmed != "" then trimmed else NO_CONTENT
  }

  /** A reply whose first choice holds a trimmed, non-empty text yields that text. */
  lemma FullTextOfTrimmed(reply: ChatReply, text: string)
    requires FirstContent(reply) == Some(text)
    requires text != [] && Text.IsTrimmed(text)
    ensures FullText(reply) == text
  {
    Text.TrimOfTrimmed(text);
  }

  // ---------------------------------------------------------------------------
  // Sections
  // ---------------------------------------------------------------------------

  /**
   * `extractSection`: the second piece of `text` split at `start`, cut at the
   * first `end` when an end delimiter is given (and not empty), then trimmed;
   * "" when `start` does not occur.
   */
  function ExtractSection(text: string, start: string, end: Option<string>): (r: string)
    requires start != []
    ensures Text.IsTrimmed(r)
    ensures !Text.Contains(text, start) ==> r == ""
  {
    var parts := Text.Split(text, start);
    if |parts| < 2 then ""
    else
      var content := parts[1];
      if end.Some? && end.value != "" then Text.Trim(Text.Split(content, end.value)[0])
      else Text.Trim(content)
  }

  /**
   * The section is the text from the first `start` up to the next `start` and
   * then up to the first `end`, trimmed.
   */
  lemma ExtractSectionBetween(text: string, start: string, end: string, i: nat)
    requires start != [] && end != []
    requires Text.IndexOf(text, start) == Some(i)
    ensures ExtractSection(text, start, Some(end))
      == Text.Trim(Text.Before(Text.Before(text[i + |start|..], start), end))
  {
    Text.SplitSecond(text, start, i);
    Text.SplitFirst(Text.Split(text, start)[1], end);
  }

  /**
   * Without an end delimiter (the hooks section) the section is the text from
   * the first `start` up to the next `start`, or to the end, trimmed.
   */
  lemma ExtractSectionAfter(text: string, start: string, i: nat)
    requires start != []
    requires Text.IndexOf(text, start) == Some(i)
    ensures ExtractSection(text, start, None) == Text.Trim(Text.Before(text[i + |start|..], start))
  {
    Text.SplitSecond(text, start, i);
  }

  /** The main post: everything before the first short-version delimiter, trimmed. */
  function LinkedInContent(fullText: string): (r: string)
    ensures Text.IsTrimmed(r)
    ensures r == Text.Trim(Text.Before(fullText, SHORT_MARKER))
    ensures !Text.Contains(fullText, SHORT_MARKER) ==> r == Text.Trim(fullText)
  {
    Text.SplitFirst(fullText, SHORT_MARKER);
    Text.Trim(Text.Split(fullText, SHORT_MARKER)[0])
  }

  // ---------------------------------------------------------------------------
  // Hooks
  // ---------------------------------------------------------------------------

  /** The number of decimal digits `line` starts with. */
  function LeadingDigits(line: string): (k: nat)
    ensures k <= |line|
    ensures forall j :: 0 <= j < k ==> Text.IsDigit(line[j])
    ensures k < |line| ==> !Text.IsDigit(line[k])
  {
    if line != [] && Text.IsDigit(line[0]) then 1 + LeadingDigits(line[1..]) else 0
  }

  /** Whether `line` starts with an ordinal: one or more digits followed by a full stop. */
  predicate HasOrdinal(line: string) {
    var k := LeadingDigits(line);
    0 < k < |line| && line[k] == '.'
  }

  /** Removing the pattern `^\d+\.\s*` from a line: a leading ordinal such as "3. " goes. */
  function StripOrdinal(line: string): (r: string)
    ensures |r| <= |line| && r == line[|line| - |r|..]
  {
    var k := LeadingDigits(line);
    if 0 < k < |line| && line[k] == '.' then Text.TrimStart(line[k + 1..]) else line
  }

  /** A line is left as it is exactly when it does not start with an ordinal. */
  lemma StripOrdinalKeepsPlain(line: string)
    ensures StripOrdinal(line) == line <==> !HasOrdinal(line)
  {
    if HasOrdinal(line) {
      assert |StripOrdinal(line)| <= |line[LeadingDigits(line) + 1..]| < |line|;
    }
  }

  /**
   * What the pattern removes from a line that starts with an ordinal: the
   * digits, the full stop and all the white space after them (the match is
   * the longest one), so what is left does not start with white space.
   */
  lemma StripOrdinalRemovesOrdinal(line: string)
    requires HasOrdinal(line)
    ensures LeadingDigits(line) + 1 <= |line| - |StripOrdinal(line)|
    ensures Text.IsBlank(line[LeadingDigits(line) + 1..|line| - |StripOrdinal(line)|])
    ensures StripOrdinal(line) == [] || !Text.IsSpace(StripOrdinal(line)[0])
  {
    var k := LeadingDigits(line);
    var rest := line[k + 1..];
    var r := Text.TrimStart(rest);
    assert r == StripOrdinal(line);
    var gap := rest[..|rest| - |r|];
    var cut := line[k + 1..|line| - |r|];
    forall i | 0 <= i < |cut| ensures Text.IsSpace(cut[i]) {
      assert cut[i] == gap[i];
    }
  }

  /** One line of the hooks section as a hook: ordinal dropped, then trimmed. */
  function HookLine(line: string): (r: string)
    ensures Text.IsTrimmed(r)
  {
    Text.Trim(StripOrdinal(line))
  }

  /** `filter(line => line.length > 0)`: the non-empty strings, in order. */
  function NonEmptyOnly(xs: seq<string>): (r: seq<string>)
    ensures |r| <= |xs|
    ensures forall k :: 0 <= k < |r| ==> r[k] != []
    ensures forall x :: x in r <==> x in xs && x != []
  {
    if xs == [] then []
    else
      var rest := NonEmptyOnly(xs[1..]);
      assert xs == [xs[0]] + xs[1..];
      if xs[0] == [] then rest
      else [xs[0]] + rest
  }

  /** The filter works piece by piece: filtering a concatenation concatenates the filtered pieces. */
  lemma {:induction false} NonEmptyOnlyAppend(xs: seq<string>, ys: seq<string>)
    ensures NonEmptyOnly(xs + ys) == NonEmptyOnly(xs) + NonEmptyOnly(ys)
  {
    if xs != [] {
      assert (xs + ys)[1..] == xs[1..] + ys;
      NonEmptyOnlyAppend(xs[1..], ys);
    } else {
      assert xs + ys == ys;
    }
  }

  /** Filtering trimmed strings leaves trimmed strings. */
  lemma NonEmptyOnlyTrimmed(xs: seq<string>)
    requires forall k :: 0 <= k < |xs| ==> Text.IsTrimmed(xs[k])
    ensures forall k :: 0 <= k < |NonEmptyOnly(xs)| ==> Text.IsTrimmed(NonEmptyOnly(xs)[k])
  {
    var r := NonEmptyOnly(xs);
    forall k | 0 <= k < |r| ensures Text.IsTrimmed(r[k]) {
      assert r[k] in r;
      var i :| 0 <= i < |xs| && xs[i] == r[k];
    }
  }

  /** `lines.map(f)`. */
  function MapLines(f: string -> string, lines: seq<string>): (r: seq<string>)
    ensures |r| == |lines|
    ensures forall k :: 0 <= k < |r| ==> r[k] == f(lines[k])
  {
    seq(|lines|, k requires 0 <= k < |lines| => f(lines[k]))
  }

  /** `map(HookLine)` over the lines of a section: one trimmed hook candidate per line. */
  function HookLines(lines: seq<string>): (r: seq<string>)
    ensures forall k :: 0 <= k < |r| ==> Text.IsTrimmed(r[k])
  {
    MapLines(HookLine, lines)
  }

  /** The alternative hooks: none for an empty section, otherwise one per non-blank line. */
  function Hooks(section: string): (hooks: seq<string>)
    ensures forall k :: 0 <= k < |hooks| ==> hooks[k] != [] && Text.IsTrimmed(hooks[k])
    ensures section == "" ==> hooks == []
  {
    if section == "" then []
    else
      var lines := HookLines(Text.Split(section, "\n"));
      NonEmptyOnlyTrimmed(lines);
      NonEmptyOnly(lines)
  }

  /** A piece of a split at line breaks holds no line break. */
  lemma NoBreakIn(line: string)
    requires !Text.Contains(line, "\n")
    ensures '\n' !in line
  {
    forall i | 0 <= i < |line| ensures line[i] != '\n' {
      assert line[i..i + 1] == [line[i]];
      assert !Text.OccursAt(line, "\n", i);
    }
  }

  /** A line without line breaks splits into itself. */
  lemma SplitOfLine(line: string)
    requires '\n' !in line
    ensures Text.Split(line, "\n") == [line]
  {
    forall i | 0 <= i <= |line| ensures !Text.OccursAt(line, "\n", i) {
      if i < |line| {
        assert line[i] != '\n';
        assert line[i..i + 1][0] == line[i];
      }
    }
    var lines := Text.Split(line, "\n");
    assert Text.Join(lines, "\n") == lines[0];
  }

  /** The lines of two texts joined by a line break are the lines of the first, then those of the second. */
  lemma SplitOfJoined(a: string, b: string)
    ensures Text.Split(a + "\n" + b, "\n") == Text.Split(a, "\n") + Text.Split(b, "\n")
  {
    var la, lb := Text.Split(a, "\n"), Text.Split(b, "\n");
    var both := la + lb;
    forall k | 0 <= k < |both| ensures '\n' !in both[k] {
      NoBreakIn(both[k]);
    }
    Text.JoinSplitAt(both, "\n", |la|);
    assert both[..|la|] == la && both[|la|..] == lb;
    Text.SplitJoinChar(both, '\n');
  }

  /** The hooks of any section, the empty one included, are its non-blank lines with ordinals dropped. */
  lemma HooksOfSplit(section: string)
    ensures Hooks(section) == NonEmptyOnly(HookLines(Text.Split(section, "\n")))
  {
    if section == "" {
      SplitOfLine(section);
      assert Text.IsBlank(StripOrdinal(""));
      assert HookLines([""]) == [""];
      assert NonEmptyOnly([""]) == NonEmptyOnly([]);
    }
  }

  /** A string is among the mapped lines exactly when some line maps to it. */
  lemma MapLinesMembers(f: string -> string, lines: seq<string>, h: string)
    ensures h in MapLines(f, lines) <==> exists line :: line in lines && f(line) == h
  {
    var mapped := MapLines(f, lines);
    if h in mapped {
      var k :| 0 <= k < |mapped| && mapped[k] == h;
      assert lines[k] in lines;
    }
    if exists line :: line in lines && f(line) == h {
      var line :| line in lines && f(line) == h;
      var k :| 0 <= k < |lines| && lines[k] == line;
      assert mapped[k] == h;
    }
  }

  /** Mapping lines one by one commutes with concatenation. */
  lemma MapLinesAppend(f: string -> string, xs: seq<string>, ys: seq<string>)
    ensures MapLines(f, xs + ys) == MapLines(f, xs) + MapLines(f, ys)
  {
    var joined, parts := MapLines(f, xs + ys), MapLines(f, xs) + MapLines(f, ys);
    forall k | 0 <= k < |xs + ys| ensures joined[k] == parts[k] {
      if k < |xs| {
        assert (xs + ys)[k] == xs[k];
      } else {
        assert (xs + ys)[k] == ys[k - |xs|];
      }
    }
  }

  /** A string is a hook of a section exactly when it is non-empty and some line of the section becomes it. */
  lemma HooksMembers(section: string, h: string)
    ensures h in Hooks(section) <==>
      h != [] && exists line :: line in Text.Split(section, "\n") && HookLine(line) == h
  {
    HooksOfSplit(section);
    MapLinesMembers(HookLine, Text.Split(section, "\n"), h);
  }

  /** A section without line breaks has at most one hook: its one line, if that is not blank. */
  lemma HooksOfLine(line: string)
    requires '\n' !in line
    ensures Hooks(line) == if HookLine(line) == [] then [] else [HookLine(line)]
  {
    SplitOfLine(line);
    HooksOfSplit(line);
    assert HookLines([line]) == [HookLine(line)];
    assert NonEmptyOnly([HookLine(line)]) == if HookLine(line) == [] then [] else [HookLine(line)] by {
      assert [HookLine(line)][1..] == [];
    }
  }

  /** The hooks of two sections joined by a line break are the hooks of the first, then those of the second. */
  lemma HooksOfJoined(a: string, b: string)
    ensures Hooks(a + "\n" + b) == Hooks(a) + Hooks(b)
  {
    var la, lb := Text.Split(a, "\n"), Text.Split(b, "\n");
    SplitOfJoined(a, b);
    HooksOfSplit(a + "\n" + b);
    HooksOfSplit(a);
    HooksOfSplit(b);
    MapLinesAppend(HookLine, la, lb);
    NonEmptyOnlyAppend(HookLines(la), HookLines(lb));
  }

  // ---------------------------------------------------------------------------
  // The assembled post
  // ---------------------------------------------------------------------------

  /** `value || undefined` for a string. */
  function NonEmpty(s: string): (r: Option<string>)
    ensures r.Some? <==> s != ""
    ensures r.Some? ==> r.value == s
  {
    if s == "" then None else Some(s)
  }

  /** `list.length > 0 ? list : undefined`. */
  function NonEmptySeq<T>(xs: seq<T>): (r: Option<seq<T>>)
    ensures r.Some? <==> xs != []
    ensures r.Some? ==> r.value == xs
  {
    if xs == [] then None else Some(xs)
  }

  /** The sections of a reply text, before assembly. */
  datatype Sections = Sections(
    linkedIn: string,
    short: string,
    telegram: string,
    instagram: string,
    youtube: string,
    hooks: seq<string>)

  /**
   * The sections `generateLinkedInPost` extracts from the full text: every
   * text section is trimmed, and every hook is a non-empty trimmed line.
   */
  function ParseSections(fullText: string): (r: Sections)
    ensures Text.IsTrimmed(r.linkedIn) && Text.IsTrimmed(r.short) && Text.IsTrimmed(r.telegram)
    ensures Text.IsTrimmed(r.instagram) && Text.IsTrimmed(r.youtube)
    ensures forall k :: 0 <= k < |r.hooks| ==> r.hooks[k] != [] && Text.IsTrimmed(r.hooks[k])
  {
    Sections(
      LinkedInContent(fullText),
      ExtractSection(fullText, SHORT_MARKER, Some(TELEGRAM_MARKER)),
      ExtractSection(fullText, TELEGRAM_MARKER, Some(INSTAGRAM_MARKER)),
      ExtractSection(fullText, INSTAGRAM_MARKER, Some(YOUTUBE_MARKER)),
      ExtractSection(fullText, YOUTUBE_MARKER, Some(HOOKS_MARKER)),
      Hooks(ExtractSection(fullText, HOOKS_MARKER, None)))
  }

  /**
   * What every assembled post satisfies: each optional text is absent or
   * non-empty and trimmed, the hooks are absent or a non-empty list of
   * non-empty trimmed lines, and the links are absent or a non-empty list of
   * valid links with distinct URLs.
   */
  predicate WellFormed(p: GeneratedPost) {
    Text.IsTrimmed(p.content)
    && (p.shortContent.Some? ==> p.shortContent.value != "" && Text.IsTrimmed(p.shortContent.value))
    && (p.telegramContent.Some? ==> p.telegramContent.value != "" && Text.IsTrimmed(p.telegramContent.value))
    && (p.instagramContent.Some? ==> p.instagramContent.value != "" && Text.IsTrimmed(p.instagramContent.value))
    && (p.youtubeContent.Some? ==> p.youtubeContent.value != "" && Text.IsTrimmed(p.youtubeContent.value))
    && (p.alternativeHooks.Some? ==>
          p.alternativeHooks.value != []
          && forall k :: 0 <= k < |p.alternativeHooks.value| ==>
               p.alternativeHooks.value[k] != [] && Text.IsTrimmed(p.alternativeHooks.value[k]))
    && (p.sourceLinks.Some? ==>
          p.sourceLinks.value != []
          && (forall k :: 0 <= k < |p.sourceLinks.value| ==> LinkScan.ValidLink(p.sourceLinks.value[k]))
          && (forall j, k :: 0 <= j < k < |p.sourceLinks.value| ==>
                p.sourceLinks.value[j].url != p.sourceLinks.value[k].url))
  }

  /** The record `generateLinkedInPost` returns for `request` and the decoded reply. */
  function GeneratePost(request: PostRequest, reply: ChatReply): (p: GeneratedPost)
    ensures WellFormed(p)
    ensures p.title == request.category.Value() + ": " + request.topic
    ensures p.content == LinkedInContent(FullText(reply))
    ensures p.shortContent == NonEmpty(ExtractSection(FullText(reply), SHORT_MARKER, Some(TELEGRAM_MARKER)))
    ensures p.telegramContent == NonEmpty(ExtractSection(FullText(reply), TELEGRAM_MARKER, Some(INSTAGRAM_MARKER)))
    ensures p.instagramContent == NonEmpty(ExtractSection(FullText(reply), INSTAGRAM_MARKER, Some(YOUTUBE_MARKER)))
    ensures p.youtubeContent == NonEmpty(ExtractSection(FullText(reply), YOUTUBE_MARKER, Some(HOOKS_MARKER)))
    ensures p.alternativeHooks == NonEmptySeq(Hooks(ExtractSection(FullText(reply), HOOKS_MARKER, None)))
    ensures p.sourceLinks == NonEmptySeq(LinkScan.Links(p.content))
    ensures p.frameworkUsed == (if IsSet(request.frameworkId) then request.frameworkId.value else AUTO_FRAMEWORK)
    ensures p.rationale == RATIONALE
  {
    var text := FullText(reply);
    var sections := ParseSections(text);
    LinkScan.LinksValid(sections.linkedIn);
    GeneratedPost(
      request.category.Value() + ": " + request.topic,
      sections.linkedIn,
      NonEmpty(sections.short),
      NonEmpty(sections.telegram),
      NonEmpty(sections.instagram),
      NonEmpty(sections.youtube),
      NonEmptySeq(sections.hooks),
      if IsSet(request.frameworkId) then request.frameworkId.value else AUTO_FRAMEWORK,
      RATIONALE,
      NonEmptySeq(LinkScan.Links(sections.linkedIn)))
  }

  /**
   * A reply that does not follow the delimited layout is a post of one
   * section: the whole text is the main post and every optional part is
   * absent.
   */
  lemma UndelimitedReply(request: PostRequest, reply: ChatReply)
    requires forall m :: m in MARKERS ==> !Text.Contains(FullText(reply), m)
    ensures GeneratePost(request, reply).content == FullText(reply)
    ensures GeneratePost(request, reply).shortContent.None?
    ensures GeneratePost(request, reply).telegramContent.None?
    ensures GeneratePost(request, reply).instagramContent.None?
    ensures GeneratePost(request, reply).youtubeContent.None?
    ensures GeneratePost(request, reply).alternativeHooks.None?
  {
    var text := FullText(reply);
    assert SHORT_MARKER in MARKERS && TELEGRAM_MARKER in MARKERS && INSTAGRAM_MARKER in MARKERS;
    assert YOUTUBE_MARKER in MARKERS && HOOKS_MARKER in MARKERS;
    Text.TrimOfTrimmed(text);
  }
}
