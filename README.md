# Art Flaneur LinkedIn post generator — a Dafny model

The application turns a short form (audience, category, topic, optional
framework, news toggle, goal, tone) into a multi-platform social post. The
service builds a prompt, sends it to the DeepSeek chat-completion API, and
splits the reply text at fixed delimiters into:

- the LinkedIn post;
- the X/Threads, Telegram, Instagram and YouTube variants;
- numbered alternative hooks;
- the Markdown source links of the main post.

The result view shows one tab per platform and copies a cleaned text to the
clipboard.

This project models that core:

- **`Types`** (`types.dfy`): the enumerations and records. Each enumeration's
  `Value` is the string the application shows and sends.
- **`Catalog`** (`catalog.dfy`): the option lists, the framework table per
  category and the pro-tip table, all as written in the application. The
  lemmas show that:
  - the option lists are complete and have no repeats;
  - every category has frameworks, numbered consecutively;
  - framework ids are unique across the table;
  - the tip table has exactly one non-empty tip per framework;
  - "Framework 70" is the News framework and no other.

  Per-category lemmas (`…InHarshTruths`, …, `…InNews`) are helpers of the
  whole-table lemmas listed below. Each one looks at a single category's
  block, which keeps every proof small.
- **`Text`** (`text.dfy`): the JavaScript string primitives the code relies
  on. These are `trim` and the `\s` class with the ECMAScript whitespace set,
  `includes`, `indexOf`, `split` with a literal separator, `join`, and a
  global literal `replace`.
- **`RequestTarget`** (`request_target.dfy`): the endpoint, and the request
  headers with the API-key rule.
- **`PromptDirectives`** (`prompt_directives.dfy`): the three choices that
  shape the prompt. These are the framework directive, the news-grounding
  directive, and the generic or TOP-3-news instructions.
- **`LinkScan`** (`link_scan.dfy`): `extractLinks`. It is the global regular
  expression `\[([^\]]+)\]\((https?:\/\/[^\s)]+)\)`, applied by repeated `exec`
  calls, with trimming and deduplication by URL. The loop is a method proved
  equal to a functional specification, and the specification's properties are
  proved as lemmas.
- **`ResponseParser`** (`response_parser.dfy`): the rest of the reply
  handling:
  - the reply text, or its fallback;
  - `extractSection`;
  - the main post;
  - the hooks, with the `^\d+\.\s*` ordinal strip;
  - the assembled `GeneratedPost`.
- **`RenderedReply`** (`rendered_reply.dfy`): a reply in the prompt's delimiter
  order, written out as text with single line breaks between the pieces where
  the prompt's template has blank lines. Parsing such a reply gives back every
  section, so the parser and the prompt agree.
- **`PostView`** (`post_view.dfy`): the result view. It covers `displayContent`
  and `cleanText` (dash, bold, bullet and asterisk rewrites), tab enabling,
  what a copy puts on the clipboard, and a class for the view's own state
  (`copied`, `activeTab`).
- **`InputForm`** (`input_form.dfy`): the form as a class with its seven
  fields. It covers the setters, the category change that clears the
  framework, the submit guard, the current framework list, the selected
  framework, the pro tip and the disabled rule of the submit button.

Points where the application's own data settles a question its types leave
open:

- The tip table has an entry for every framework, and every entry is
  non-empty. So a selected framework always shows its tip; `SelectedHasTip`
  proves this from the table as written.
- Every category has a framework list, so the `|| []` fallback in
  `currentFrameworks` never applies.
- The submit guard trims the topic, but the request carries the topic
  untrimmed.

## Model

| member | source | states |
|---|---|---|
| Catalog.OptionListsComplete | constants.ts:3-6 | every value of each enumeration is in its option list, and no list repeats a value |
| Catalog.FrameworkId | constants.ts:14-106 | an id is "Framework " followed by the decimal number of the framework |
| Catalog.FrameworksNumbered | constants.ts:14-106 | every category lists at least one framework; its entries are numbered consecutively from the category's first number |
| Catalog.FrameworkIdAt | constants.ts:14-106 | the entry at position i of a category has the id of number FirstNumber(c) + i |
| Catalog.FrameworkIdInjective | constants.ts:14-106 | different framework numbers give different ids |
| Catalog.FrameworkIdsUnique | constants.ts:14-106 | two entries of the table with the same id are the same entry, across all categories |
| Catalog.NewsOffersOnlyFramework70 | constants.ts:103-105 | News offers exactly one framework, "Framework 70", "TOP-3 News" |
| Catalog.Framework70OnlyInNews | constants.ts:14-106 | an entry has id "Framework 70" exactly when it is the News entry |
| Catalog.ProTipsNonEmpty | constants.ts:216-286 | no pro tip is the empty string |
| Catalog.EveryFrameworkHasTip | constants.ts:216-286 | every framework of the table has a non-empty tip |
| Catalog.EveryTipIsForAFramework | constants.ts:216-286 | every key of the tip table is the id of some framework |
| Text.Trim | services/deepseekService.ts:176 | the result has no whitespace at either end, and it is empty exactly when the input is blank |
| Text.TrimOfPadded | services/deepseekService.ts:176 | trimming blank padding around a trimmed text gives that text back |
| Text.IndexOf | services/deepseekService.ts:181 | the first occurrence of the pattern, or none when the pattern does not occur |
| Text.Split | services/deepseekService.ts:181 | the pieces join back to the input, no piece holds the separator, and there are two or more pieces exactly when the separator occurs |
| Text.SplitFirst | services/deepseekService.ts:185 | the first piece is the text before the first separator |
| Text.SplitSecond | services/deepseekService.ts:183 | the second piece is the text between the first and the second separator |
| Text.Before | services/deepseekService.ts:190 | a prefix of the text without the separator, equal to the text exactly when the separator is absent, and otherwise cut exactly where the separator first occurs |
| Text.BeforeFirst | services/deepseekService.ts:190 | when the separator first occurs at i, the part before it is the first i characters |
| Text.SplitJoinChar | services/deepseekService.ts:199 | splitting joined pieces at a one-character separator they do not contain gives the pieces back |
| Text.ReplaceAllSplitsAndJoins | components/GeneratedPost.tsx:39 | a global literal replace is a split followed by a join with the replacement |
| Text.ReplaceAllRemoves | components/GeneratedPost.tsx:31-32 | after a global replace, the pattern no longer occurs when the replacement cannot rebuild it |
| Text.NatToStringInjective | constants.ts:14-106 | different numbers have different decimal spellings |
| RequestTarget.Endpoint | services/deepseekService.ts:16-17 | the API URL on the server and the proxy path in the browser; the URL starts with "/" exactly in the browser |
| RequestTarget.ServerKey | services/deepseekService.ts:25 | DEEPSEEK_API_KEY when it is set and not empty, otherwise API_KEY; a usable key exists exactly when one of the two is set |
| RequestTarget.RequestHeaders | services/deepseekService.ts:19-33 | the missing-key error exactly on the server without a usable key; otherwise a JSON content type, plus the bearer header exactly on the server, with no other header |
| RequestTarget.BrowserSendsNoKey | services/deepseekService.ts:19-33 | in the browser the headers are the content type alone, whatever the environment holds |
| RequestTarget.ServerHeadersFollowKey | services/deepseekService.ts:24-30 | on the server the headers depend on the environment only through the chosen key |
| PromptDirectives.ChooseDirectives | services/deepseekService.ts:55-80 | exact-framework directive iff a framework id is set, otherwise pick within the category; news directive iff includeNews; TOP-3 news instructions iff the id is "Framework 70", otherwise the generic ones naming the audience |
| PromptDirectives.NewsDigestOnlyFromNews | services/deepseekService.ts:71 | for a framework taken from the table, the TOP-3 news instructions are used exactly for the News framework |
| PromptDirectives.NewsDigestUsesFramework | services/deepseekService.ts:55-71 | the TOP-3 news instructions always come with the exact-framework directive |
| LinkScan.FindClose | services/deepseekService.ts:38 | the first `]` at or after a position: every character before it is not `]` |
| LinkScan.UrlRunEnd | services/deepseekService.ts:38 | the end of the longest run of `[^\s)]` characters from a position |
| LinkScan.MatchAt | services/deepseekService.ts:38 | a match anchored at a position is found exactly when the pattern matches there |
| LinkScan.LinkAtUnique | services/deepseekService.ts:38 | a match starting at a position has only one `]` and one `)` position |
| LinkScan.UrlRunEndOfLink | services/deepseekService.ts:38 | in a match, the `]` is the first after the `[` and the `)` ends the URL run |
| LinkScan.NextMatch | services/deepseekService.ts:41 | `exec` from lastIndex returns a match that starts at or after lastIndex |
| LinkScan.NextMatchLeftmost | services/deepseekService.ts:41 | no position that `exec` skipped starts a match |
| LinkScan.NextMatchExhaustive | services/deepseekService.ts:41 | when `exec` finds nothing, no position from lastIndex on starts a match |
| LinkScan.LinkOf | services/deepseekService.ts:42-43 | the link of a match has the captured URL and a trimmed title |
| LinkScan.FoundLink | services/deepseekService.ts:42-43 | a link found by `exec` has a URL of the pattern and a trimmed title |
| LinkScan.Resume | services/deepseekService.ts:41 | the next `exec` starts strictly after the previous lastIndex, so the loop ends |
| LinkScan.FoundMatch | services/deepseekService.ts:41-43 | the link is both captures trimmed, and the scan resumes just past the `)` |
| LinkScan.ScanValid | services/deepseekService.ts:41-43 | every scanned link has a URL of the pattern and a trimmed title |
| LinkScan.DedupUrlSet | services/deepseekService.ts:45-48 | deduplication keeps exactly the set of URLs of its input |
| LinkScan.DedupDistinct | services/deepseekService.ts:45-48 | no two kept links share a URL |
| LinkScan.DedupKeepsFirst | services/deepseekService.ts:45-48 | each kept link is the first input link with its URL, and kept links follow the order of those first occurrences |
| LinkScan.DedupFrom | services/deepseekService.ts:45-48 | every kept link is one of the input links |
| LinkScan.DedupSnoc | services/deepseekService.ts:45-48 | one more link is appended exactly when its URL was not seen |
| LinkScan.LinksValid | services/deepseekService.ts:35-52 | the extracted links have URLs of the pattern, trimmed titles and no repeated URL |
| LinkScan.BlankTitleBecomesEmpty | services/deepseekService.ts:38-42 | `[ ](http://x)` yields one link whose title is empty: the pattern accepts a blank title and trimming empties it |
| LinkScan.LinksFromIsDedup | services/deepseekService.ts:41-49 | continuing the loop from any state gives the deduplication of all links found so far plus those still to scan |
| LinkScan.ExtractLinks | services/deepseekService.ts:35-52 | the loop returns exactly the deduplicated links of every match, in order |
| ResponseParser.FirstContent | services/deepseekService.ts:176 | the content of the first choice is present exactly when every level of the optional path is present |
| ResponseParser.FullText | services/deepseekService.ts:176 | the reply text is never empty and always trimmed: the trimmed content when that is not blank, otherwise "No content generated." |
| ResponseParser.FullTextOfTrimmed | services/deepseekService.ts:176 | a trimmed, non-empty content is the reply text unchanged |
| ResponseParser.ExtractSection | services/deepseekService.ts:180-188 | the section is trimmed, and empty when the start delimiter does not occur |
| ResponseParser.ExtractSectionAfter | services/deepseekService.ts:180-188 | with no end delimiter (the hooks call at line 197) and the start delimiter first at i, the section is the text after it up to the next start delimiter, or to the end, trimmed |
| ResponseParser.ExtractSectionBetween | services/deepseekService.ts:180-188 | with the start delimiter first at i, the section is the text after it, up to the next start delimiter and then up to the first end delimiter, trimmed |
| ResponseParser.LinkedInContent | services/deepseekService.ts:190 | the main post is the trimmed text before the first short-version delimiter, or the whole text trimmed when that delimiter is absent |
| ResponseParser.LeadingDigits | services/deepseekService.ts:200 | the length of the run of digits the line starts with |
| ResponseParser.StripOrdinal | services/deepseekService.ts:200 | the result is a suffix of the line |
| ResponseParser.StripOrdinalKeepsPlain | services/deepseekService.ts:200 | a line is left unchanged exactly when it does not start with digits and a full stop |
| ResponseParser.StripOrdinalRemovesOrdinal | services/deepseekService.ts:200 | for a line with an ordinal, what goes is the digits, the full stop and all the whitespace after them, so the rest does not start with whitespace |
| ResponseParser.HookLine | services/deepseekService.ts:200 | each hook candidate is trimmed |
| ResponseParser.NonEmptyOnly | services/deepseekService.ts:201 | a string is kept exactly when it is in the input and non-empty, and nothing is added |
| ResponseParser.NonEmptyOnlyAppend | services/deepseekService.ts:201 | filtering a concatenation gives the concatenation of the filtered parts, so order is kept |
| ResponseParser.NonEmptyOnlyTrimmed | services/deepseekService.ts:200-201 | filtering trimmed strings leaves trimmed strings |
| ResponseParser.HookLines | services/deepseekService.ts:199-200 | every mapped line is trimmed |
| ResponseParser.SplitOfJoined | services/deepseekService.ts:199 | the lines of two texts joined by a line break are the lines of the first, then those of the second |
| ResponseParser.Hooks | services/deepseekService.ts:196-202 | every hook is non-empty and trimmed, and an empty section has no hooks |
| ResponseParser.HooksOfSplit | services/deepseekService.ts:196-202 | for any section, the empty one included, the hooks are the non-empty results of the ordinal strip and trim over its lines |
| ResponseParser.HooksMembers | services/deepseekService.ts:199-201 | a string is a hook exactly when it is non-empty and some line of the section becomes it |
| ResponseParser.HooksOfLine | services/deepseekService.ts:199-201 | a section of one line has that line's hook, or none when the line is blank after the strip |
| ResponseParser.HooksOfJoined | services/deepseekService.ts:199-201 | the hooks of two sections joined by a line break are the hooks of the first followed by those of the second |
| ResponseParser.NonEmpty | services/deepseekService.ts:209-212 | `value \|\| undefined`: present exactly when the text is not empty, and then it is that text |
| ResponseParser.NonEmptySeq | services/deepseekService.ts:213 | present exactly when the list is not empty, and then it is that list |
| ResponseParser.ParseSections | services/deepseekService.ts:190-202 | every text section is trimmed, and every hook is a non-empty trimmed line |
| ResponseParser.GeneratePost | services/deepseekService.ts:206-217 | the post is well formed: optional texts and lists are absent or non-empty, texts are trimmed, and links are valid and distinct. The title is "category: topic". Each field is the corresponding section of the reply text; frameworkUsed is the id when set, otherwise the auto-detect text |
| ResponseParser.UndelimitedReply | services/deepseekService.ts:190-217 | a reply text with no delimiter becomes a post whose main text is the whole reply text and whose five optional parts are all absent |
| RenderedReply.MarkersDistinct | services/deepseekService.ts:105-131 | no delimiter contains another, and none holds a line break |
| RenderedReply.HookLineOfNumbered | services/deepseekService.ts:200 | the ordinal strip and trim read the hook back from "n. hook" |
| RenderedReply.HooksRoundTrip | services/deepseekService.ts:196-202 | the hooks section written as numbered lines parses back to the hooks |
| RenderedReply.Layout | services/deepseekService.ts:105-131 | the reply has ten pieces in the prompt's delimiter order, or eleven when there are hooks; a section piece may span several lines |
| RenderedReply.RenderTrimmed | services/deepseekService.ts:105-131 | a rendered reply is non-empty and trimmed, so it is its own reply text |
| RenderedReply.RenderedMain | services/deepseekService.ts:190 | the main post is read back from a rendered reply |
| RenderedReply.RenderedSection | services/deepseekService.ts:191-194 | each of the four platform sections is read back from a rendered reply |
| RenderedReply.RenderedHooks | services/deepseekService.ts:196-202 | the hooks are read back from a rendered reply |
| RenderedReply.ParseRender | services/deepseekService.ts:190-202 | parsing the rendered text of any renderable sections gives those sections back |
| RenderedReply.GenerateFromRendered | services/deepseekService.ts:206-217 | a reply carrying a rendered text gives a post with those sections, empty ones absent, and the links of the main post |
| PostView.DisplayContent | components/GeneratedPost.tsx:38-40 | no dash is left, and a text without a dash is shown unchanged |
| PostView.RemoveCharRemoves | components/GeneratedPost.tsx:34 | removing every asterisk leaves none |
| PostView.SpaceRun | components/GeneratedPost.tsx:33 | the greedy `\s*` run at the front of a text |
| PostView.BulletLength | components/GeneratedPost.tsx:33 | a match of `\s*\*\s` at the front: blanks, an asterisk, one whitespace character |
| PostView.RewriteWithoutAsterisk | components/GeneratedPost.tsx:33 | the bullet rewrite leaves a text without asterisks unchanged |
| PostView.RewriteCopiesLine | components/GeneratedPost.tsx:33 | inside a line `^` does not match, so the line is copied as it is |
| PostView.RewriteStarLine | components/GeneratedPost.tsx:33 | an asterisk item at a line start becomes a hyphen item with its text copied |
| PostView.RewriteBulletList | components/GeneratedPost.tsx:33 | an asterisk list of one-line items becomes the same list with hyphen bullets |
| PostView.CleanText | components/GeneratedPost.tsx:29-35 | no asterisk survives the cleaning |
| PostView.CleanTextOfPlain | components/GeneratedPost.tsx:29-35 | a text with neither a dash nor an asterisk is copied exactly as it is |
| PostView.CleanTextOfBulletList | components/GeneratedPost.tsx:29-35 | an asterisk list whose items are plain is copied as the same list with hyphen bullets |
| PostView.TabText | components/GeneratedPost.tsx:43-47 | the LinkedIn tab always has the post's main text |
| PostView.DisplayedText | components/GeneratedPost.tsx:124-128 | the text shown has no dash, and a missing or empty text shows as "" |
| PostView.ContentToCopy | components/GeneratedPost.tsx:42-50 | something is copied exactly when the tab's text is set, and then it is the cleaned text, free of asterisks |
| PostView.CopyFromEnabledTab | components/GeneratedPost.tsx:42-97 | away from LinkedIn a tab copies something exactly when its button is enabled; LinkedIn copies exactly when the main text is not empty |
| PostView.WellFormedPostTabs | components/GeneratedPost.tsx:93-132 | for an assembled post: a tab is disabled exactly when its part is absent, and the hook lab and sources show on LinkedIn exactly when their lists are present |
| PostView.PostViewState.constructor | components/GeneratedPost.tsx:14-15 | the view starts with nothing copied and the LinkedIn tab active |
| PostView.PostViewState.SelectTab | components/GeneratedPost.tsx:56-59 | a click on an enabled tab makes it active, and a click on a disabled one changes nothing; an enabled active tab stays enabled |
| PostView.PostViewState.Copy | components/GeneratedPost.tsx:42-54 | the clipboard receives the active tab's cleaned text, and the copied flag rises only when something was copied |
| PostView.PostViewState.CopiedExpired | components/GeneratedPost.tsx:52 | the timer clears the copied flag and leaves the tab |
| InputForm.FindFramework | components/InputForm.tsx:33 | `find` by id: none exactly when no entry has the id, otherwise the first entry with it |
| InputForm.TipFor | components/InputForm.tsx:123-128 | the tip shown is the table entry for the chosen framework when that is non-empty, and nothing otherwise |
| InputForm.NoFrameworkIdIsEmpty | components/InputForm.tsx:106 | no framework has the empty id, so auto-select never matches a framework |
| InputForm.FrameworkHasTip | components/InputForm.tsx:123 | every framework of a category has a non-empty tip |
| InputForm.SelectedHasTip | components/InputForm.tsx:115-128 | a framework chosen from the category's list always gets its tip, and no choice gets none |
| InputForm.Form.constructor | components/InputForm.tsx:12-18 | the seven initial values: Gallery Owners, Harsh Truths, empty topic, auto-select, no news, Build Authority, Analytical |
| InputForm.Form.CurrentFrameworks | components/InputForm.tsx:32 | the category's list, never empty, numbered from the category's first number |
| InputForm.Form.SelectedFramework | components/InputForm.tsx:33 | a framework is selected exactly when the chosen id is non-empty and in the category's list, and then it has that id |
| InputForm.Form.ProTip | components/InputForm.tsx:123-128 | a tip shows exactly when a framework is selected, and it is non-empty |
| InputForm.Form.Request | components/InputForm.tsx:29 | the request carries every field as it is, the topic untrimmed |
| InputForm.Form.Submit | components/InputForm.tsx:26-30 | nothing is sent exactly when the topic is blank, which is exactly when the button is disabled while not loading; otherwise the request is sent |
| InputForm.Form.ChangeCategory | components/InputForm.tsx:21-24 | the new category, the framework cleared, the other fields unchanged; the form stays valid |
| InputForm.Form.SetFrameworkId | components/InputForm.tsx:103 | the chosen id, the other fields unchanged; choosing an option of the select keeps the form valid |
| InputForm.Form.SetAudience | components/InputForm.tsx:45 | the new audience, the other fields unchanged, validity kept |
| InputForm.Form.SetTopic | components/InputForm.tsx:144 | the new topic, the other fields unchanged, validity kept |
| InputForm.Form.SetIncludeNews | components/InputForm.tsx:162 | the new news toggle, the other fields unchanged, validity kept |
| InputForm.Form.SetGoal | components/InputForm.tsx:73 | the new goal, the other fields unchanged, validity kept |
| InputForm.Form.SetTone | components/InputForm.tsx:87 | the new tone, the other fields unchanged, validity kept |
| InputForm.ProTipIsTableEntry | components/InputForm.tsx:123-128 | the tip shown is the table's entry for the chosen framework |
| InputForm.ValidFormRequest | components/InputForm.tsx:29 | from a valid form, the TOP-3 news instructions are asked for only in the News category, and the request names a framework exactly when one is selected |

## Left out

- The HTTP call and its errors (services/deepseekService.ts:138-174) are not modelled. This covers the request body, `fetch`, a non-OK status, an unreachable proxy and JSON that does not parse. The reply enters the model as a decoded `ChatReply`.
- A reply whose JSON does not have the expected shape (for example `choices` not being a list) is not modelled. Every level of the optional path is modelled as present or absent.
- The console logging is not modelled.
- The prompt text itself is not modelled: the system context, the instruction lines and the style constraints. Only the choices that select its parts are modelled (`ChooseDirectives`), and so is the delimiter order it asks for (`RenderedReply`, which separates the pieces with single line breaks instead of the template's blank lines).
- Strings are sequences of code points, not of UTF-16 code units. A lone surrogate, and the way `trim` and `\s` treat surrogate pairs, are outside the model.
- The module-level `isServer` (`typeof window`) and `process.env` become parameters of `Endpoint` and `RequestHeaders`.
- `setTimeout` is the `CopiedExpired` method; its two-second delay is not modelled.
- The clipboard write becomes the method's result.
- The click-to-copy of a single hook in the hook lab (components/GeneratedPost.tsx:109-111) is not modelled as a method. It copies `CleanText` of the hook, which is the function that is modelled.
- The placeholder shown when there is no post (components/GeneratedPost.tsx:17-27) is not modelled.
- `activeTab` surviving a change of post is not modelled. `SelectTab` and `Copy` take the post as a parameter.
- Markdown rendering, icons, styling and the topic placeholder text are not modelled.
- The tip table is one object literal in the application; the model writes it as the union, in the same order, of one map per category.
- LinkScan.LinksValid: it states that titles are trimmed, not that they are non-empty. A title of blanks passes `[^\]]+` and trims to "", as `LinkScan.BlankTitleBecomesEmpty` shows.
- PostView.CleanText: its own contract states only that no asterisk survives. What it does to plain text and to asterisk lists is stated by `CleanTextOfPlain` and `CleanTextOfBulletList`. Nested mixes of bold markers and bullets are described only by the definition.
- ResponseParser.HookLines: its own contract states only that each mapped line is trimmed. Which lines become hooks, and in what order, is stated by `HooksOfSplit`, `HooksMembers`, `HooksOfLine` and `HooksOfJoined`.
