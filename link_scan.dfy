/**
 * The source-link extraction of the service: a scan for Markdown-style links
 * `[title](http://...)` with the pattern `\[([^\]]+)\]\((https?:\/\/[^\s)]+)\)`
 * applied globally, keeping the first link seen for every URL.
 *
 * The pattern is written out as a hand-made matcher (`MatchAt`) whose contract
 * is the language of the pattern (`LinkAt`); `NextMatch` is one call of
 * `exec`, `Scan` the sequence of all matches, and `ExtractLinks` the loop of
 * the source with its `seen` set.
 */
module LinkScan {
  import opened Wrappers
  import opened Types
  import Text

  // ---------------------------------------------------------------------------
  // The pattern
  // ---------------------------------------------------------------------------

  /** A character of `[^\s)]`. */
  predicate UrlChar(c: char) {
    !Text.IsSpace(c) && c != ')'
  }

  /** A string of `https?:\/\/[^\s)]+`: a scheme prefix, then at least one more URL character. */
  predicate IsUrl(u: string) {
    ((|u| > 8 && u[..8] == "https://") || (|u| > 7 && u[..7] == "http://"))
    && forall k :: 0 <= k < |u| ==> UrlChar(u[k])
  }

  /**
   * The whole pattern matches `s[p..e + 1]`: `[` at `p`, a non-empty title
   * free of `]` up to the `]` at `t`, then `(`, a URL up to `e`, and `)` at `e`.
   */
  ghost predicate LinkAt(s: string, p: int, t: int, e: int) {
    0 <= p && p + 1 < t && t + 1 < e < |s|
    && s[p] == '[' && (forall k :: p < k < t ==> s[k] != ']') && s[t] == ']'
    && s[t + 1] == '(' && IsUrl(s[t + 2..e]) && s[e] == ')'
  }

  /** Where a match lies: the `[` at `start`, the `]` at `titleEnd`, the `)` at `urlEnd`. */
  datatype LinkMatch = LinkMatch(start: nat, titleEnd: nat, urlEnd: nat)
  {
    /** The first capture group: the raw title. */
    function Title(s: string): string
      requires start < titleEnd <= |s|
    {
      s[start + 1..titleEnd]
    }

    /** The second capture group: the raw URL. */
    function Url(s: string): string
      requires titleEnd + 2 <= urlEnd <= |s|
    {
      s[titleEnd + 2..urlEnd]
    }
  }

  /** A match of the pattern determines its `]` and `)` positions. */
  lemma LinkAtUnique(s: string, p: int, t1: int, e1: int, t2: int, e2: int)
    requires LinkAt(s, p, t1, e1) && LinkAt(s, p, t2, e2)
    ensures t1 == t2 && e1 == e2
  {
    UrlRunEndOfLink(s, p, t1, e1);
    UrlRunEndOfLink(s, p, t2, e2);
  }

  /** The first index at or after `from` holding `]`, or `|s|` when there is none. */
  function FindClose(s: string, from: nat): (k: nat)
    requires from <= |s|
    ensures from <= k <= |s|
    ensures k < |s| ==> s[k] == ']'
    ensures forall j :: from <= j < k ==> s[j] != ']'
    decreases |s| - from
  {
    if from == |s| || s[from] == ']' then from else FindClose(s, from + 1)
  }

  /** The end of the longest run of URL characters starting at `from`. */
  function UrlRunEnd(s: string, from: nat): (k: nat)
    requires from <= |s|
    ensures from <= k <= |s|
    ensures k < |s| ==> !UrlChar(s[k])
    ensures forall j :: from <= j < k ==> UrlChar(s[j])
    decreases |s| - from
  {
    if from == |s| || !UrlChar(s[from]) then from else UrlRunEnd(s, from + 1)
  }

  /** The pattern anchored at `p`: the match there, if any. */
  function MatchAt(s: string, p: nat): (r: Option<LinkMatch>)
    ensures r.Some? ==> r.value.start == p && LinkAt(s, p, r.value.titleEnd, r.value.urlEnd)
    ensures r.None? ==> forall t, e :: !LinkAt(s, p, t, e)
  {
    if p < |s| && s[p] == '[' then
      var t := FindClose(s, p + 1);
      if p + 1 < t && t + 1 < |s| && s[t + 1] == '(' then
        var e := UrlRunEnd(s, t + 2);
        if e < |s| && s[e] == ')' && IsUrl(s[t + 2..e]) then
          Some(LinkMatch(p, t, e))
        else
          assert forall t', e' :: !LinkAt(s, p, t', e') by {
            forall t', e' | LinkAt(s, p, t', e') ensures false {
              UrlRunEndOfLink(s, p, t', e');
            }
          }
          None
      else
        None
    else
      None
  }

  /** In a match, the `]` is the first after the `[` and the `)` ends the URL run. */
  lemma UrlRunEndOfLink(s: string, p: int, t: int, e: int)
    requires LinkAt(s, p, t, e)
    ensures FindClose(s, p + 1) == t
    ensures UrlRunEnd(s, t + 2) == e
  {
    forall j | t + 2 <= j < e
      ensures UrlChar(s[j])
    {
      assert s[t + 2..e][j - (t + 2)] == s[j];
    }
  }

  /** One call of `exec` from `lastIndex`: the leftmost match starting at or after it. */
  function NextMatch(s: string, lastIndex: nat): (r: Option<LinkMatch>)
    requires lastIndex <= |s|
    ensures r.Some? ==> lastIndex <= r.value.start && MatchAt(s, r.value.start) == r
    decreases |s| - lastIndex
  {
    if lastIndex == |s| then
      None
    else
      var m := MatchAt(s, lastIndex);
      if m.Some? then m else NextMatch(s, lastIndex + 1)
  }

  /** `exec` finds the leftmost match: no position it skipped starts one. */
  lemma {:induction false} NextMatchLeftmost(s: string, lastIndex: nat, q: nat)
    requires lastIndex <= q <= |s| && NextMatch(s, lastIndex).Some?
    requires q < NextMatch(s, lastIndex).value.start
    ensures MatchAt(s, q).None?
    decreases q - lastIndex
  {
    if lastIndex < q {
      NextMatchLeftmost(s, lastIndex + 1, q);
    }
  }

  /** When `exec` finds nothing, no position from `lastIndex` on starts a match. */
  lemma {:induction false} NextMatchExhaustive(s: string, lastIndex: nat, q: nat)
    requires lastIndex <= q <= |s| && NextMatch(s, lastIndex).None?
    ensures MatchAt(s, q).None?
    decreases q - lastIndex
  {
    if lastIndex < q {
      NextMatchExhaustive(s, lastIndex + 1, q);
    }
  }

  // ---------------------------------------------------------------------------
  // All matches, then the first link for every URL
  // ---------------------------------------------------------------------------

  /** The link a match yields: both captures trimmed. */
  function LinkOf(s: string, m: LinkMatch): (l: SourceLink)
    requires m.start < m.titleEnd && m.titleEnd + 2 <= m.urlEnd <= |s|
    requires IsUrl(m.Url(s))
    ensures l.url == m.Url(s) && IsUrl(l.url)
    ensures Text.IsTrimmed(l.title)
  {
    Text.TrimOfTrimmed(m.Url(s));
    SourceLink(Text.Trim(m.Title(s)), Text.Trim(m.Url(s)))
  }

  /** The link yielded by the match `exec` finds from `lastIndex`. */
  function FoundLink(s: string, lastIndex: nat): (l: SourceLink)
    requires lastIndex <= |s| && NextMatch(s, lastIndex).Some?
    ensures ValidLink(l)
  {
    NextMatchBounds(s, lastIndex);
    LinkOf(s, NextMatch(s, lastIndex).value)
  }

  /** Where the next `exec` starts after the match found from `lastIndex`: just past its `)`. */
  function Resume(s: string, lastIndex: nat): (k: nat)
    requires lastIndex <= |s| && NextMatch(s, lastIndex).Some?
    ensures lastIndex < k <= |s|
  {
    NextMatchBounds(s, lastIndex);
    NextMatch(s, lastIndex).value.urlEnd + 1
  }

  /** The links of every match found by repeated `exec` calls from `lastIndex`, in order. */
  function Scan(s: string, lastIndex: nat): (links: seq<SourceLink>)
    requires lastIndex <= |s|
    decreases |s| - lastIndex
  {
    if NextMatch(s, lastIndex).None? then []
    else [FoundLink(s, lastIndex)] + Scan(s, Resume(s, lastIndex))
  }

  /** What every extracted link satisfies: a URL of the pattern and a trimmed title. */
  predicate ValidLink(l: SourceLink) {
    IsUrl(l.url) && Text.IsTrimmed(l.title)
  }

  /** Every scanned link has a URL of the pattern and a trimmed title. */
  lemma {:induction false} ScanValid(s: string, lastIndex: nat)
    requires lastIndex <= |s|
    ensures forall i :: 0 <= i < |Scan(s, lastIndex)| ==> ValidLink(Scan(s, lastIndex)[i])
    decreases |s| - lastIndex
  {
    if NextMatch(s, lastIndex).Some? {
      var next := Resume(s, lastIndex);
      var rest := Scan(s, next);
      ScanValid(s, next);
      var all := Scan(s, lastIndex);
      assert all == [FoundLink(s, lastIndex)] + rest;
      forall i | 0 <= i < |all| ensures ValidLink(all[i]) {
        if i > 0 {
          assert all[i] == rest[i - 1];
        }
      }
    }
  }

  /** The URLs of `links`. */
  function UrlSet(links: seq<SourceLink>): set<string> {
    set i | 0 <= i < |links| :: links[i].url
  }

  /** Keep each link whose URL no earlier link has, in order. */
  function Dedup(links: seq<SourceLink>): seq<SourceLink>
    decreases |links|
  {
    if links == [] then []
    else
      var kept := Dedup(links[..|links| - 1]);
      var last := links[|links| - 1];
      if last.url in UrlSet(kept) then kept else kept + [last]
  }

  /** The value `extractLinks` returns for `markdown`. */
  function Links(markdown: string): seq<SourceLink> {
    Dedup(Scan(markdown, 0))
  }

  /** The index of the first link of `links` with URL `u`. */
  function FirstIndexOf(links: seq<SourceLink>, u: string): (k: nat)
    requires u in UrlSet(links)
    ensures k < |links| && links[k].url == u
    ensures forall j :: 0 <= j < k ==> links[j].url != u
  {
    if links[0].url == u then 0
    else
      assert u in UrlSet(links[1..]) by {
        var i :| 0 <= i < |links| && links[i].url == u;
        assert links[1..][i - 1].url == u;
      }
      1 + FirstIndexOf(links[1..], u)
  }

  // ---------------------------------------------------------------------------
  // What deduplication keeps
  // ---------------------------------------------------------------------------

  /** Deduplication keeps exactly the URLs of its input. */
  lemma {:induction false} DedupUrlSet(links: seq<SourceLink>)
    ensures UrlSet(Dedup(links)) == UrlSet(links)
    decreases |links|
  {
    if links != [] {
      var init, l := links[..|links| - 1], links[|links| - 1];
      assert links == init + [l];
      DedupUrlSet(init);
      UrlSetSnoc(init, l);
      DedupSnoc(init, l);
      if l.url !in UrlSet(Dedup(init)) {
        UrlSetSnoc(Dedup(init), l);
      }
    }
  }

  /** No two kept links share a URL. */
  lemma {:induction false} DedupDistinct(links: seq<SourceLink>)
    ensures forall i, j :: 0 <= i < j < |Dedup(links)| ==> Dedup(links)[i].url != Dedup(links)[j].url
    decreases |links|
  {
    if links != [] {
      var init, l := links[..|links| - 1], links[|links| - 1];
      assert links == init + [l];
      DedupDistinct(init);
      DedupSnoc(init, l);
      var kept := Dedup(init);
      if l.url !in UrlSet(kept) {
        var d := kept + [l];
        forall i, j | 0 <= i < j < |d| ensures d[i].url != d[j].url {
          if j == |kept| {
            assert d[i].url == kept[i].url && kept[i].url in UrlSet(kept);
          } else {
            assert d[i] == kept[i] && d[j] == kept[j];
          }
        }
      }
    }
  }

  /** The first link with URL `u` is unchanged by appending a link. */
  lemma FirstIndexOfSnoc(links: seq<SourceLink>, l: SourceLink, u: string)
    requires u in UrlSet(links)
    ensures u in UrlSet(links + [l])
    ensures FirstIndexOf(links + [l], u) == FirstIndexOf(links, u)
  {
    UrlSetSnoc(links, l);
    var k := FirstIndexOf(links, u);
    assert (links + [l])[k] == links[k];
  }

  /** A URL first seen in the last link has the last index as its first index. */
  lemma FirstIndexOfLast(links: seq<SourceLink>, l: SourceLink)
    requires l.url !in UrlSet(links)
    ensures l.url in UrlSet(links + [l])
    ensures FirstIndexOf(links + [l], l.url) == |links|
  {
    UrlSetSnoc(links, l);
  }

  /**
   * Deduplication keeps, for every URL, the link where it first occurs, in the
   * order of those first occurrences.
   */
  lemma {:induction false} DedupKeepsFirst(links: seq<SourceLink>)
    ensures forall i :: 0 <= i < |Dedup(links)| ==>
      Dedup(links)[i].url in UrlSet(links)
      && Dedup(links)[i] == links[FirstIndexOf(links, Dedup(links)[i].url)]
    ensures forall i, j :: 0 <= i < j < |Dedup(links)| ==>
      Dedup(links)[i].url in UrlSet(links) && Dedup(links)[j].url in UrlSet(links)
      && FirstIndexOf(links, Dedup(links)[i].url) < FirstIndexOf(links, Dedup(links)[j].url)
    decreases |links|
  {
    if links != [] {
      var init, l := links[..|links| - 1], links[|links| - 1];
      assert links == init + [l];
      DedupKeepsFirst(init);
      DedupSnoc(init, l);
      DedupUrlSet(init);
      var kept := Dedup(init);
      var d := Dedup(links);
      forall i | 0 <= i < |kept|
        ensures d[i] == kept[i] && kept[i].url in UrlSet(links)
        ensures FirstIndexOf(links, kept[i].url) == FirstIndexOf(init, kept[i].url)
      {
        FirstIndexOfSnoc(init, l, kept[i].url);
      }
      if l.url !in UrlSet(kept) {
        FirstIndexOfLast(init, l);
      }
    }
  }

  /** Every kept link is one of the input links. */
  lemma {:induction false} DedupFrom(links: seq<SourceLink>)
    ensures forall i :: 0 <= i < |Dedup(links)| ==> Dedup(links)[i] in links
    decreases |links|
  {
    if links != [] {
      var init, l := links[..|links| - 1], links[|links| - 1];
      assert links == init + [l];
      DedupFrom(init);
      DedupSnoc(init, l);
      var d := Dedup(links);
      forall i | 0 <= i < |d| ensures d[i] in links {
        if i < |Dedup(init)| {
          assert d[i] == Dedup(init)[i];
        }
      }
    }
  }

  /** Deduplication keeps only valid links when given only valid links. */
  lemma DedupValid(links: seq<SourceLink>)
    requires forall i :: 0 <= i < |links| ==> ValidLink(links[i])
    ensures forall i :: 0 <= i < |Dedup(links)| ==> ValidLink(Dedup(links)[i])
  {
    DedupFrom(links);
    forall i | 0 <= i < |Dedup(links)| ensures ValidLink(Dedup(links)[i]) {
      var k :| 0 <= k < |links| && links[k] == Dedup(links)[i];
    }
  }

  /** The links of a text have URLs of the pattern, trimmed titles and no repeated URL. */
  lemma LinksValid(markdown: string)
    ensures forall i :: 0 <= i < |Links(markdown)| ==> ValidLink(Links(markdown)[i])
    ensures forall i, j :: 0 <= i < j < |Links(markdown)| ==> Links(markdown)[i].url != Links(markdown)[j].url
  {
    ScanValid(markdown, 0);
    DedupValid(Scan(markdown, 0));
    DedupDistinct(Scan(markdown, 0));
  }

  /** `exec` on `[ ](http://x)` matches the whole text, then finds nothing. */
  lemma BlankTitleMatch()
    ensures NextMatch("[ ](http://x)", 0) == Some(LinkMatch(0, 2, 12))
    ensures NextMatch("[ ](http://x)", 13).None?
  {
    var s := "[ ](http://x)";
    assert FindClose(s, 1) == 2;
    assert UrlRunEnd(s, 4) == 12;
    assert s[4..12] == "http://x" && s[4..12][..7] == "http://";
    assert MatchAt(s, 0) == Some(LinkMatch(0, 2, 12));
  }

  /** The title and the url of that match. */
  lemma BlankTitleParts()
    ensures LinkMatch(0, 2, 12).Title("[ ](http://x)") == " "
    ensures LinkMatch(0, 2, 12).Url("[ ](http://x)") == "http://x"
  {
    var s := "[ ](http://x)";
    assert s[1..2] == " ";
    assert s[4..12] == "http://x";
  }

  /** Trimming empties the blank title and keeps the url. */
  lemma BlankTitleTrimmed()
    ensures Text.Trim(" ") == "" && Text.Trim("http://x") == "http://x"
  {
    assert Text.IsBlank(" ");
    Text.TrimOfTrimmed("http://x");
  }

  lemma BlankTitleFound()
    ensures NextMatch("[ ](http://x)", 0).Some?
    ensures FoundLink("[ ](http://x)", 0) == SourceLink("", "http://x")
    ensures Resume("[ ](http://x)", 0) == 13
  {
    BlankTitleMatch();
    BlankTitleParts();
    BlankTitleTrimmed();
    FoundMatch("[ ](http://x)", 0, LinkMatch(0, 2, 12));
  }

  lemma BlankTitleScan()
    ensures Scan("[ ](http://x)", 0) == [SourceLink("", "http://x")]
  {
    BlankTitleMatch();
    BlankTitleFound();
    ScanOne("[ ](http://x)", SourceLink("", "http://x"));
  }

  lemma ScanOne(s: string, l: SourceLink)
    requires NextMatch(s, 0).Some? && FoundLink(s, 0) == l
    requires NextMatch(s, Resume(s, 0)).None?
    ensures Scan(s, 0) == [l]
  {
    ScanStep(s, 0);
    assert Scan(s, Resume(s, 0)) == [];
  }

  /**
   * A title of blanks passes the pattern (`[^\]]+` accepts a space) and is then
   * trimmed to the empty string: extracted titles can be empty.
   */
  lemma BlankTitleBecomesEmpty()
    ensures Links("[ ](http://x)") == [SourceLink("", "http://x")]
  {
    BlankTitleScan();
    DedupSnoc([], SourceLink("", "http://x"));
    assert [] + [SourceLink("", "http://x")] == [SourceLink("", "http://x")];
  }

  // ---------------------------------------------------------------------------
  // extractLinks
  // ---------------------------------------------------------------------------

  /** A match found by `exec` lies inside `s` and captures a URL of the pattern. */
  lemma NextMatchBounds(s: string, lastIndex: nat)
    requires lastIndex <= |s| && NextMatch(s, lastIndex).Some?
    ensures var m := NextMatch(s, lastIndex).value;
      lastIndex <= m.start < m.titleEnd && m.titleEnd + 2 <= m.urlEnd < |s| && IsUrl(m.Url(s))
  {
  }

  /** Dedup of a sequence extended by one link. */
  lemma DedupSnoc(links: seq<SourceLink>, l: SourceLink)
    ensures Dedup(links + [l]) == if l.url in UrlSet(Dedup(links)) then Dedup(links) else Dedup(links) + [l]
  {
    assert (links + [l])[..|links|] == links;
  }

  /** Appending a link adds its URL. */
  lemma UrlSetSnoc(links: seq<SourceLink>, l: SourceLink)
    ensures UrlSet(links + [l]) == UrlSet(links) + {l.url}
  {
    var ls := links + [l];
    assert ls[|links|] == l;
    forall u | u in UrlSet(links) ensures u in UrlSet(ls) {
      var i :| 0 <= i < |links| && links[i].url == u;
      assert ls[i] == links[i];
    }
  }

  /** One link through the `seen` test: appended unless its URL was kept already. */
  function Keep(kept: seq<SourceLink>, l: SourceLink): seq<SourceLink> {
    if l.url in UrlSet(kept) then kept else kept + [l]
  }

  /** The result the loop reaches from `kept` when `exec` resumes at `lastIndex`. */
  ghost function LinksFrom(s: string, lastIndex: nat, kept: seq<SourceLink>): seq<SourceLink>
    requires lastIndex <= |s|
    decreases |s| - lastIndex
  {
    if NextMatch(s, lastIndex).None? then kept
    else LinksFrom(s, Resume(s, lastIndex), Keep(kept, FoundLink(s, lastIndex)))
  }

  /** The loop state: from `lastIndex` with `kept` so far, the loop ends with `target`. */
  ghost predicate Pending(s: string, lastIndex: nat, kept: seq<SourceLink>, target: seq<SourceLink>) {
    lastIndex <= |s| && LinksFrom(s, lastIndex, kept) == target
  }

  lemma ScanStep(s: string, lastIndex: nat)
    requires lastIndex <= |s| && NextMatch(s, lastIndex).Some?
    ensures Scan(s, lastIndex) == [FoundLink(s, lastIndex)] + Scan(s, Resume(s, lastIndex))
  {
  }

  lemma ScanEnd(s: string, lastIndex: nat, found: seq<SourceLink>)
    requires lastIndex <= |s| && NextMatch(s, lastIndex).None?
    ensures found + Scan(s, lastIndex) == found
  {
  }

  lemma LinksFromStep(s: string, lastIndex: nat, kept: seq<SourceLink>)
    requires lastIndex <= |s| && NextMatch(s, lastIndex).Some?
    ensures LinksFrom(s, lastIndex, kept)
      == LinksFrom(s, Resume(s, lastIndex), Keep(kept, FoundLink(s, lastIndex)))
  {
  }

  lemma AppendShift<T>(found: seq<T>, head: T, rest: seq<T>)
    ensures found + ([head] + rest) == (found + [head]) + rest
  {
  }

  lemma AppendEmpty<T>(x: seq<T>)
    ensures [] + x == x
  {
  }

  /** Running the loop from `lastIndex` after the links `found` deduplicates all of them. */
  lemma {:induction false} LinksFromIsDedup(s: string, lastIndex: nat, found: seq<SourceLink>)
    requires lastIndex <= |s|
    ensures LinksFrom(s, lastIndex, Dedup(found)) == Dedup(found + Scan(s, lastIndex))
    decreases |s| - lastIndex
  {
    if NextMatch(s, lastIndex).None? {
      ScanEnd(s, lastIndex, found);
    } else {
      ScanStep(s, lastIndex);
      LinksFromStep(s, lastIndex, Dedup(found));
      DedupSnoc(found, FoundLink(s, lastIndex));
      LinksFromIsDedup(s, Resume(s, lastIndex), found + [FoundLink(s, lastIndex)]);
      AppendShift(found, FoundLink(s, lastIndex), Scan(s, Resume(s, lastIndex)));
    }
  }

  /** The loop starts in a state that ends with the links of the whole text. */
  lemma LinksFromStart(s: string)
    ensures Pending(s, 0, [], Links(s))
  {
    LinksFromIsDedup(s, 0, []);
    AppendEmpty(Scan(s, 0));
  }

  /** The link and resume position of the match `exec` returned, in terms of that match. */
  lemma FoundMatch(s: string, lastIndex: nat, m: LinkMatch)
    requires lastIndex <= |s| && NextMatch(s, lastIndex) == Some(m)
    ensures m.start < m.titleEnd && m.titleEnd + 2 <= m.urlEnd < |s|
    ensures FoundLink(s, lastIndex) == SourceLink(Text.Trim(m.Title(s)), Text.Trim(m.Url(s)))
    ensures Resume(s, lastIndex) == m.urlEnd + 1
  {
    NextMatchBounds(s, lastIndex);
  }

  /** One turn of the loop: consuming the match `m` leaves the final result unchanged. */
  lemma LoopStep(s: string, lastIndex: nat, m: LinkMatch, kept: seq<SourceLink>,
                 next: nat, kept': seq<SourceLink>, target: seq<SourceLink>)
    requires Pending(s, lastIndex, kept, target) && NextMatch(s, lastIndex) == Some(m)
    requires m.start < m.titleEnd && m.titleEnd + 2 <= m.urlEnd < |s|
    requires next == m.urlEnd + 1
    requires kept' == Keep(kept, SourceLink(Text.Trim(m.Title(s)), Text.Trim(m.Url(s))))
    ensures Pending(s, next, kept', target)
  {
    LinksFromAdvance(s, lastIndex, m, kept, next, kept');
  }

  lemma LinksFromAdvance(s: string, lastIndex: nat, m: LinkMatch, kept: seq<SourceLink>,
                         next: nat, kept': seq<SourceLink>)
    requires lastIndex <= |s| && NextMatch(s, lastIndex) == Some(m)
    requires m.start < m.titleEnd && m.titleEnd + 2 <= m.urlEnd < |s|
    requires next == m.urlEnd + 1
    requires kept' == Keep(kept, SourceLink(Text.Trim(m.Title(s)), Text.Trim(m.Url(s))))
    ensures next <= |s| && LinksFrom(s, lastIndex, kept) == LinksFrom(s, next, kept')
  {
    FoundMatch(s, lastIndex, m);
    LinksFromStep(s, lastIndex, kept);
  }

  /**
   * The loop of `extractLinks`: `exec` until it finds nothing, resuming after
   * each match, and append a link unless its URL is in the `seen` set.
   */
  method ExtractLinks(markdown: string) returns (links: seq<SourceLink>)
    ensures links == Links(markdown)
  {
    links := [];
    var seen: set<string> := {};
    var lastIndex: nat := 0;
    LinksFromStart(markdown);
    while NextMatch(markdown, lastIndex).Some?
      invariant Pending(markdown, lastIndex, links, Links(markdown))
      invariant seen == UrlSet(links)
      decreases |markdown| - lastIndex
    {
      var m := NextMatch(markdown, lastIndex).value;
      NextMatchBounds(markdown, lastIndex);
      var title := Text.Trim(m.Title(markdown));
      var url := Text.Trim(m.Url(markdown));
      ghost var before := links;
      ghost var matchIndex := lastIndex;
      if url !in seen {
        UrlSetSnoc(links, SourceLink(title, url));
        links := links + [SourceLink(title, url)];
        seen := seen + {url};
      }
      lastIndex := m.urlEnd + 1;
      LoopStep(markdown, matchIndex, m, before, lastIndex, links, Links(markdown));
    }
  }
}
