# A verified model of the book-building pipeline

The repository is a pipeline that writes a book with language models. It comes in two versions.
`app.py` is the current one and `appv1.py` the earlier one. Starting from a brief, the pipeline
runs six stages in a fixed order, each filling one key of a shared state dictionary:

1. spec: `node_spec` and `normalize_spec` produce the book specification.
2. toc: `node_toc` produces the table of contents, with a page budget per chapter.
3. plan: `node_plan` and `normalize_plan` produce one plan per chapter.
4. draft: `node_draft` produces the chapter texts.
5. images: `node_images` collects the image prompts.
6. assemble: `node_assemble` produces the Markdown book.

This project models, in Dafny, the deterministic logic around the model calls in both versions:

- Pulling JSON out of a model reply. This covers `extract_json` in both versions, `parse_first_json`,
  the one-repair control flow of `call_llm_json_lenient`, and the bounded retry loop of the earlier
  `call_llm_json`.
- The page arithmetic: `rebalance_pages` of both versions and `words_needed`. `words_needed` is the
  same in both files, so the model defines it once.
- The resilient TOC stage. This covers the line heuristic `_try_heuristic_toc` (with a hand-written
  matcher equivalent to its regular expression), `_synthesize_toc`, and the unwrap, sanitise, pad
  to six, sort, rebalance and renumber steps of `node_toc`.
- The earlier `node_toc`, which raises instead.
- The normalisers: `normalize_spec` and its `_coerce_*` helpers, and `_as_list_str`,
  `_normalize_image_prompts` and `normalize_plan`.
- The glue: `LLMRouter.for_node`, `node_plan`, the selection and sort of `node_draft`, `node_images`,
  the Markdown string of `node_assemble`, and the stage wrappers of `build_graph`. The wrappers form
  a linear state machine over a checkpoint map, driven by the `resume` and `dry_run` flags.

The language models are an oracle. A value `Llm(replies, sent)` holds the replies still to come
and the requests sent so far. Every call consumes the next reply, and a backend with no reply left
raises `BackendError`. The JSON decoder (`raw_decode` and `json.loads`) is a parameter: a record of
two partial functions. JSON objects are ordered sequences of key/value pairs, because the code
joins `.values()` and the key order of a dict is observable.

Imperative code keeps its loops. Each loop is written as a method and proved equal to a
specification function. The properties are then proved about that function.

`normalize_spec` is not idempotent: a list audience is joined without stripping, so only a second
pass strips it. `Normalize.NormalizeSpecNotIdempotent` exhibits this.

Two behaviours of the page arithmetic are stated as the code has them:

- The current `rebalance_pages` corrects rounding drift for at most `2n` steps, so it can stop
  short of the total. `Pages.RebalanceCanMissTotal` shows `[1, 1, 1, 1, 1000]` with total 10
  ending at 12.
- The earlier `rebalance_pages` never ends when the total is below the number of chapters.
  `PagesV1.RebalanceV1Hangs` shows this, and the model returns `Diverges` for that case.

## Model

| member | source | states |
|---|---|---|
| Extract.FenceBody | app.py:76 | a body exists exactly when some "```json" opener (matched case-insensitively or not) is followed by a closing "```" |
| Extract.PairFound | app.py:79-81 | when some `{` stands before some `}`, `find` and `rfind` both succeed and the first opener precedes the last closer |
| Extract.Span | app.py:79-82 | the `text[find(open) : rfind(close) + 1]` span exists exactly when an opener precedes a closer, and it starts with the opener and ends with the closer |
| Extract.ExtractJson | app.py:74-87 | raises exactly when there is no fence, no `{`…`}` pair and no `[`…`]` pair; a fence wins and gives its stripped body; otherwise the brace span, stripped; otherwise the bracket span, stripped |
| Extract.NoFenceWithoutBacktick | app.py:76 | a reply without backticks holds no fence |
| Extract.ExtractSingleFence | app.py:76-78 | a reply with one fenced block and no stray backtick gives exactly that block's body, stripped |
| Extract.SpanIs | app.py:79-82 | with the first opener at `i` and the last closer at `j > i`, the span is `text[i..j+1]` |
| Extract.ExtractDropsTrailingText | app.py:79-82 | an object with prose before and after it gives the brace span, so the trailing prose is dropped |
| Extract.ExtractBareArrayOfObjects | app.py:79-86 | a bare array `[{…},…,{…}]` gives the inner first-`{`-to-last-`}` span, not the array, because the brace span is tried first |
| Extract.FirstOpen | app.py:96-98 | the index of the first `{` or `[`, with no such character before it; none exactly when the string holds neither |
| Extract.SkipNoise | app.py:96-100 | the noise-skipping loop stops at the first `{` or `[`, and runs to the end exactly when there is none |
| Extract.ParseFirstJson | app.py:90-102 | succeeds exactly when there is a `{` or `[` and the decoder accepts the text from the first of them; the result is the decoder's, with trailing text ignored |
| Extract.LenientAtMostOneRepair | app.py:112-136 | one or two requests in all; the first carries the caller's messages; exactly one request is made when the first candidate decodes; the repair request carries the original reply, not the extracted candidate |
| Extract.LenientResult | app.py:117-136 | the call succeeds exactly when a first reply is left and its candidate decodes, or a second reply is left and the repaired candidate decodes; the value is the first JSON value of the first reply's candidate when that decodes, else that of the repaired reply's candidate |
| ExtractV1.ExtractJsonV1 | appv1.py:40-52 | never raises; a case-sensitive fence gives its stripped body; else the brace span unstripped; else the whole reply stripped |
| ExtractV1.ExtractV1Span | appv1.py:47-50 | an object with prose around it and no backtick gives exactly the brace span, with nothing stripped |
| ExtractV1.AttemptCount | appv1.py:65 | `range(max_retries + 1)` has `max_retries + 1` turns, and none for a negative count below -1 |
| ExtractV1.CallLlmJsonV1Loop | appv1.py:59-77 | the retry loop as written (prompt reassigned to the nudge after each failure) returns exactly what the attempt function gives |
| ExtractV1.JsonAttemptsStep | appv1.py:65-76 | one turn: the reply that decodes is returned at once; otherwise the next turn sends the nudge |
| ExtractV1.JsonAttemptsOk | appv1.py:65-69 | a success comes at some request `k` no later than the attempt count: the first `k - 1` replies failed to decode, the `k`-th decoded, the first prompt went once and the nudge after it |
| ExtractV1.JsonAttemptsErr | appv1.py:65-77 | the call raises exactly when no reply among the attempts decodes; ValueError when all attempts got a reply, BackendError when the replies ran out |
| Router.ForNode | app.py:154-158 | Ollama comes with no temperature and Gemini always with one; heavy always gives Gemini at 0.7; a non-heavy Gemini route has 0.6 |
| Router.ForNodeIgnoresCase | app.py:155 | the node name is compared in lower case |
| Router.ForNodeOllama | app.py:156-157 | a route goes to Ollama exactly when heavy is off and the lower-cased name is `spec`, `toc` or `images` |
| Oracle.Invoke | app.py:107 | a call gets the next reply and records the request; it fails with a backend error exactly when no reply is left |
| Pages.WordsNeeded | app.py:326-327 | the word budget is at least 100 and at least `pages * wpp`, and is one of the two |
| Pages.RoundHalfEven | app.py:341 | Python's `round` of `num / den`: within half a unit of the quotient, and even on a tie |
| Pages.RoundHalfEvenUnique | app.py:341 | any integer that is nearest to `num / den` with ties broken to even is the rounded value |
| Pages.RoundHalfEvenScale | app.py:341 | scaling numerator and denominator alike leaves the rounding unchanged |
| Pages.RoundHalfEvenAtLeastOne | app.py:341 | a quotient of at least 1 rounds to at least 1 |
| Pages.DriftStep | app.py:345-352 | one turn of the drift loop keeps the length, keeps pages-plus-drift constant, and never takes an entry below 1 |
| Pages.FixDrift | app.py:342-353 | the bounded correction loop keeps the length, keeps pages-plus-drift constant, and keeps every entry at least 1 |
| Pages.FixDriftLoop | app.py:342-353 | the `while diff != 0 and i < 2 * len(scaled)` loop as written returns what the drift function gives |
| Pages.PositiveDriftCloses | app.py:346-348 | a shortfall no larger than the turns left is fully made up |
| Pages.NegativeDriftCloses | app.py:349-352 | an excess is fully removed within the pass when the entries it meets are all at least 2 |
| Pages.Scale | app.py:341 | every entry becomes `max(1, round(x * total / s))`, computed exactly on integers |
| Pages.RebalanceCounts | app.py:335-353 | the length is kept and every count is at least 1; counts that already sum to the total come back unchanged |
| Pages.UniformScale | app.py:341 | chapters of equal weight all scale to the rounded per-chapter share of the total |
| Pages.RebalanceUniformExact | app.py:337-353 | counts that are all equal, with a total at least the number of chapters, end summing exactly to the total |
| Pages.UniformDriftCloses | app.py:342-353 | equal counts that are each the rounded share close the drift to zero within the two passes |
| Pages.ScaleExample | app.py:341 | the counts 1, 1, 1, 1, 1000 scaled to a total of 10 are 1, 1, 1, 1, 10 |
| Pages.DriftExample | app.py:342-353 | on 1, 1, 1, 1, 10 with four pages too many the loop stops after ten turns at 1, 1, 1, 1, 8 with drift -2 |
| Pages.RebalanceCanMissTotal | app.py:341-353 | 1, 1, 1, 1, 1000 rebalanced to 10 ends at 1, 1, 1, 1, 8, which sums to 12: the two-pass bound can stop before the total is reached |
| Pages.ClampedCounts | app.py:335 | one count per chapter, each at least 1; it fails exactly when some `target_pages` does not convert with `int()` |
| Pages.SetPages | app.py:338-339 | every chapter gets `target_pages` set to its count, and nothing else changes |
| Pages.RebalancePages | app.py:330-356 | an empty list gives an empty list; otherwise the length is kept |
| Pages.RebalancePagesMethod | app.py:330-356 | the function as written, with the early return when the clamped sum is already the total, returns what the rebalance function gives |
| Pages.RebalancePagesTouchesOnlyPages | app.py:330-356 | only `target_pages` is written, other keys keep their values and order, every chapter ends with an int of at least 1, and clamped counts that already sum to the total are what is stored |
| PagesV1.SomeAboveOne | appv1.py:110-113 | counts of at least 1 that sum to more than their number include one above 1, which the loop can take a page from |
| PagesV1.MeasureDecreases | appv1.py:105-114 | when the total is at least the number of chapters, every turn of the unbounded loop brings its end strictly closer |
| PagesV1.V1Drift | appv1.py:103-114 | when the total is at least the number of chapters, the `while diff != 0` loop ends with the length kept, every entry at least 1, and the sum exactly the total |
| PagesV1.DriftNeverCloses | appv1.py:105-114 | with a total below the number of chapters the drift stays negative after any number of turns |
| PagesV1.RebalanceCountsV1 | appv1.py:90-114 | it fails exactly for an empty list (division by zero) or a total below the number of chapters (a hang); otherwise the length is kept, every count is at least 1 and the sum is the total |
| PagesV1.EvenSplitOnlyForEmpty | appv1.py:91-98 | the clamped counts sum to zero or less only for an empty list, so the even split is reached only there, and `divmod` then divides by zero |
| PagesV1.RebalanceV1Hangs | appv1.py:105-114 | where a hang is reported, the loop from the real start state still has non-zero drift after any number of turns |
| PagesV1.RebalancePagesV1 | appv1.py:86-118 | the length of the chapter list is kept |
| PagesV1.V1DriftLoop | appv1.py:103-114 | the unbounded loop as written, where it terminates, returns what the drift function gives |
| PagesV1.RebalancePagesV1Method | appv1.py:86-118 | the function as written returns what the rebalance function gives |
| Toc.MatchTocLineDigits | app.py:292-294 | a matched line's number is the value of a run of digits in the line |
| Toc.MatchNumberedLine | app.py:292 | a line `<digits><punctuation><blanks><title>` matches with that number and title |
| Toc.MatchChapterLine | app.py:292 | the same line after "Chapter" and optional blanks matches with the same number and title |
| Toc.NoBlankNoMatch | app.py:292 | a number must be followed, after any `.):-` punctuation, by at least one blank, or the line does not match |
| Toc.HeuristicTitle | app.py:295 | the title, trimmed of `" -:"` and then stripped, has no whitespace at either end |
| Toc.LineItem | app.py:289-297 | a line contributes at most one item, and only with a non-empty stripped title |
| Toc.LineItems | app.py:288-297 | every collected item has a non-empty stripped title |
| Toc.CollectLineItems | app.py:287-297 | the first loop as written builds exactly the item list |
| Toc.FirstWith | app.py:300-303 | the first item with a given number; none exactly when no item has that number |
| Toc.DedupProps | app.py:298-303 | the `uniq` list has pairwise distinct numbers, loses no number, and holds for each number the first item carrying it |
| Toc.DedupLoop | app.py:298-303 | the loop with the `seen` set as written builds exactly the deduplicated list |
| Toc.TenPagesLoop | app.py:305-306 | every entry is given 10 pages |
| Toc.UniqProps | app.py:286-303 | the heuristic reading keeps the first line per number, loses no number, and keeps only non-empty stripped titles |
| Toc.HeuristicTocEmpty | app.py:304-308 | the heuristic TOC is empty exactly when fewer than six distinct numbers were read |
| Toc.HeuristicTocProps | app.py:304-307 | otherwise it is a permutation of the distinct items, sorted by number, each with a non-empty stripped title and at least 1 page, summing to the total when the total is at least the entry count |
| Toc.TryHeuristicToc | app.py:286-308 | the function with its loops as written gives exactly the heuristic TOC |
| Toc.RebalanceEntriesAgree | app.py:330-356 | rebalancing entries agrees with rebalancing their dicts, which cannot fail on them |
| Toc.RebalanceEntries | app.py:330-356 | the entries keep their number, title and order, and each ends with at least one page |
| Toc.RebalanceEntriesExact | app.py:304-307 | entries that all ask for the same pages share out a total of at least one page each exactly |
| Toc.SynthBase | app.py:316-319 | entry `i` is numbered `i + 1`, titled `"<seed>: Part <i + 1>"`, with 10 pages |
| Toc.SynthesizeToc | app.py:311-320 | it fails exactly when the spec is not a dict, since its title is read with `.get` |
| Toc.SynthesizeTocProps | app.py:311-320 | the parts are numbered 1..n after the title (default "Chapter"), each with at least 1 page, summing to the total when the total is at least the count |
| Toc.SanitizeItem | app.py:425-447 | an item contributes at most one entry, and only with a non-blank title, which is stored stripped |
| Toc.Sanitize | app.py:424-447 | no more entries than candidates, each with a non-empty stripped title |
| Toc.SanitizeLoop | app.py:424-447 | the coerce-and-sanitise loop as written gives exactly the sanitised entries |
| Toc.MaxNumber | app.py:451 | `max` of the numbers and 0: at least 0, and no entry is numbered above it |
| Toc.Pad | app.py:449-455 | pads to six entries, keeps the existing ones as a prefix, and numbers every pad entry above every existing entry |
| Toc.PadLoop | app.py:449-455 | the padding loop as written gives exactly the padded list |
| Toc.PadTitles | app.py:449-455 | padding keeps every title non-empty and stripped |
| Toc.Renumber | app.py:460-461 | entry `i` is numbered `i + 1` and keeps its title and pages |
| Toc.RenumberLoop | app.py:460-461 | the renumbering loop as written writes exactly those numbers into the dicts |
| Toc.BuildTocProps | app.py:424-461 | the TOC has six entries or the number of sanitised ones if larger, numbered 1..n in order, each with a stripped non-blank title and at least 1 page |
| Toc.BuildTocTitles | app.py:457-461 | the titles are those of the sanitised and padded entries in the stable order of their original numbers, and form a permutation of them |
| Toc.BuildTocLoop | app.py:424-461 | sanitise, pad, sort, rebalance and renumber as written give exactly the modelled TOC |
| Toc.UnwrapFrom | app.py:403-407 | the result is the dict itself, or the list under one of the wrapper keys |
| Toc.UnwrapFromFirst | app.py:403-407 | a dict is replaced by the list under the first of `toc`, `chapters`, `table_of_contents`, `items` that holds a list, and stays a dict when none does |
| Toc.UnwrapList | app.py:403 | a list reply is not unwrapped |
| Toc.SanitizeObjects | app.py:425-447 | entries with stripped non-blank titles pass the sanitising loop unchanged |
| Toc.HeuristicTocSanitized | app.py:414-447 | the numbered-lines TOC passes the sanitising loop unchanged |
| Toc.NodeTocProps | app.py:400-461 | whatever the replies, a TOC that comes back has at least six entries numbered 1..n, each with a stripped non-blank title and at least 1 page |
| Toc.TocFromReplyProps | app.py:403-461 | the same for any parsed first reply |
| Toc.TocFromLinesProps | app.py:409-419 | the same when the reply holds no list and the numbered-lines request and the synthesised fallback are used |
| Toc.NodeTocFailsOnlyInCalls | app.py:400-419 | with a dict spec, `node_toc` fails exactly when the first call fails, or when the reply holds no list and no reply is left for the numbered-lines request |
| Stages.SetOthers | app.py:381 | `{**state, k: v}` sets `k` and leaves every other key and the key order as they were, with `k` last when new |
| Stages.NodeSpecProps | app.py:362-381 | `node_spec` fails exactly on a missing input key or a failed call; otherwise `spec` is the normalised reply, which has `goals`, and no other key changes |
| Stages.ReplyObjectShapes | app.py:374-378 | a list that starts with a dict is read as that dict, and any other non-dict reply as `{}` |
| Stages.TocJson | app.py:464 | the TOC stored is the list of entry dicts, one per entry |
| Stages.NodeTocStageProps | app.py:387-464 | after `node_toc`, `toc` holds a well-formed TOC (at least six entries numbered 1..n, stripped non-blank titles, at least 1 page) and no other key changes |
| Stages.PlanOneProps | app.py:579-603 | one pass of the loop gives a plan that belongs to its dict entry (`normalize_plan` of a parsed reply with the entry as fallback), with a stripped title, after one request, or two when the reply needs repair |
| Stages.PlanOneIs | app.py:580-602 | the plan is exactly `normalize_plan` of the lenient call's reply, coerced to a dict, with entry `ch` as fallback, and the oracle is left where the call left it |
| Stages.PlanAllProps | app.py:578-603 | one plan per entry, plan i belonging to entry i with its title stripped, with between one and two requests per entry |
| Stages.NodePlanEmptyToc | app.py:579 | with no `toc` or an empty one, no request is made and `plans` is `[]` |
| Stages.NodePlanProps | app.py:577-604 | `plans` holds one plan per TOC entry, plan i being `normalize_plan` of a parsed reply with entry i as fallback and a stripped title, and no other key changes |
| Threaded.EachLoop | app.py:578-603 | the append loop over the entries as written returns what the walk function gives (used by `node_plan` and `node_draft`) |
| Threaded.EachLength | app.py:578-603 | the walk gives one output per element |
| StagesV1.Numbered | appv1.py:175 | the sort key `int(c.get("number", 0))` of every chapter; it fails exactly when some chapter is not a dict or its number does not convert |
| StagesV1.ChaptersOfReply | appv1.py:172-176 | a successful reading of the reply gives a non-empty chapter list |
| StagesV1.SortedNumbers | appv1.py:175 | the chapters sorted by number are in non-decreasing order and each keeps the number the key read |
| StagesV1.SetPagesBalanced | appv1.py:175-176 | page counts of at least 1 summing to the total, written over chapters sorted by number, give a balanced TOC |
| StagesV1.ChaptersOfReplyBalanced | appv1.py:172-176 | the rebalanced chapters are sorted by number, each with an int `target_pages` of at least 1, summing exactly to `pages_total` |
| StagesV1.NodeTocV1Props | appv1.py:152-177 | a non-dict reply raises AttributeError; a dict whose `chapters` is not a non-empty list raises ValueError; otherwise the stored TOC has the reply's chapter count, sorted by number and rebalanced to exactly `pages_total` |
| StagesV1.FixPlanV1 | appv1.py:204-205 | the stored number is the entry's, or the plan's own only where the entry has none, and the entry's title replaces the plan's |
| StagesV1.PlanOneV1 | appv1.py:183-205 | one pass of the loop gives a plan tied to its entry in that way |
| StagesV1.PlanFrom | appv1.py:182-206 | the plans are appended after the accumulated ones, one per entry, in TOC order |
| StagesV1.PlanFromEntries | appv1.py:182-206 | plan `i` belongs to TOC entry `i`, and there are as many plans as entries |
| StagesV1.SortedPlans | appv1.py:208 | sorting by number gives a permutation of the plans, in order, each keeping its stored number |
| StagesV1.NodePlanV1Loop | appv1.py:180-209 | the loop as written, appending and then sorting in place, gives what the stage function gives |
| StagesV1.NodePlanV1Props | appv1.py:180-209 | one plan per TOC entry, each with the entry's number and title, stored as a permutation of the plans in TOC order sorted by number |
| Book.DraftsJson | app.py:644 | the stored drafts list has one `{"number", "title", "text"}` dict per draft, in order |
| Book.PlanMapFinds | app.py:618 | in the number-to-plan dict, a plan whose number no later plan repeats is the plan found under its number |
| Book.Len | app.py:622 | `len` of a list is its number of items |
| Book.Prefix | app.py:647 | `chapters[:limit]` of a list is its first `min(limit, len)` items; slicing a dict raises |
| Book.Limit | app.py:619-623 | the limit is positive unless the TOC is empty |
| Book.TargetWords | app.py:629-634 | a non-positive page count gives 1200 words; a positive one succeeds exactly when `words_per_page` is present and an int, and gives `words_needed(pages, words_per_page)`, at least 100 |
| Book.DraftJob | app.py:626-642 | the job of an entry carries the number `int(ch.get("number", 0))`, which exists only for a dict entry, and the title `ch.get("title", f"Chapter {num}")` |
| Book.DraftOne | app.py:626-644 | one completed draft carries its entry's number and title (default `Chapter {num}`) and the next reply as its text, and sends exactly one request |
| Book.Selection | app.py:616-647 | the selection reads `toc` and `plans`, checks that `max_workers` is a positive int, and picks the first `limit` TOC entries; a dict `toc` raises, even an empty one |
| Book.DraftStepAnswers | app.py:626-644 | a completed draft answers one request and is its entry's draft with that reply: the entry's number and title, and the reply as text |
| Book.DraftAllProps | app.py:646-649 | each selected entry gets one draft, numbered and titled as the entry, whose text is the next reply; one request per entry |
| Book.NodeDraftProps | app.py:610-652 | the stored drafts are the drafts of the selected `min(limit, len(toc))` entries, draft `i` numbered and titled as entry `i` and holding reply `i`, sorted by number as a permutation; one request per draft; no other key changes |
| Book.StoredDrafts | app.py:646-652 | after the drafting loop, `drafts` holds the entries' drafts (number, title and reply of each) sorted by number, one request each, and no other key changes |
| DraftV1.DraftJobV1 | appv1.py:228-253 | the job of an entry carries the number `int(ch.get("number", 0))`, which exists only for a dict entry, and the title `ch.get("title", f"Chapter {num}")` |
| DraftV1.DraftOneV1 | appv1.py:228-255 | one turn of the loop sends one request and its draft is the entry's draft with that reply: the entry's number and title, and the reply as text |
| DraftV1.DraftsFromV1 | appv1.py:228-255 | the loop appends, in TOC order and after what it had, the draft of each entry made by the next reply, one request per entry |
| DraftV1.DraftsJsonV1 | appv1.py:255 | the stored drafts list has one `{"number", "title", "markdown"}` dict per draft, in order |
| DraftV1.SelectionV1 | appv1.py:217-227 | the selection reads `toc` and `plans` and picks the first `limit` TOC entries |
| DraftV1.NodeDraftV1Loop | appv1.py:212-259 | the loop as written, appending and then sorting, gives what the stage function gives |
| DraftV1.DraftsFromV1Entries | appv1.py:228-255 | from an empty list, draft `i` is numbered and titled as entry `i` and holds reply `i` |
| DraftV1.NodeDraftV1Props | appv1.py:212-259 | the stored drafts are the drafts of the selected entries in TOC order (number, title and reply of each), sorted by number as a permutation, `min(limit, len(toc))` of them, one request each; no other key changes |
| Images.ImagesJson | app.py:665-671 | the stored list has one `{"chapter", "purpose", "prompt"}` dict per kept prompt, in order |
| Images.PromptOf | app.py:661-671 | one image prompt gives at most one entry, whose purpose and prompt are non-empty and stripped |
| Images.PromptsOf | app.py:661-671 | the inner loop keeps at most one entry per item, all usable |
| Images.PlanPrompts | app.py:660-671 | one plan contributes only usable entries |
| Images.AllPrompts | app.py:659-671 | the outer loop keeps only usable entries |
| Images.PromptOfPrompt | app.py:661-671 | a normalised prompt is kept, with its plan's number, exactly when its purpose and prompt are non-empty |
| Images.PromptFieldsOf | app.py:662-663 | reading back a normalised prompt gives its own purpose and prompt |
| Images.PromptsOfPlan | app.py:661-671 | the inner loop over a normalised plan keeps exactly its usable prompts, in order |
| Images.PlanPromptsOfPlan | app.py:660-671 | a stored plan contributes exactly its usable prompts, tagged with its number |
| Images.PlanJsonGet | app.py:660-667 | a stored plan reads back its own number and prompts |
| Images.AllPromptsOfPlans | app.py:659-671 | over stored plans the stage never fails and keeps, in plan order, exactly the usable prompts, each tagged with its plan's number |
| Images.NodeImagesOfPlans | app.py:657-672 | the stage stores those prompts under `image_prompts` and changes nothing else |
| ImagesV1.GatheredsJson | appv1.py:268-275 | the stored list has one dict per kept entry, in order |
| ImagesV1.Zip | appv1.py:265 | `zip` pairs items up to the shorter length |
| ImagesV1.ItemsOf | appv1.py:268-276 | one entry per item, in order |
| ImagesV1.ItemsOfCons | appv1.py:268-276 | the entries of a non-empty item list are the first item's entry followed by the rest's |
| ImagesV1.ItemsFromIs | appv1.py:268-276 | the inner loop appends one entry per item and fails with AttributeError exactly when some item is not a dict |
| ImagesV1.PairItems | appv1.py:266-276 | one pair needs a dict plan and a dict TOC entry whose number converts, and tags every entry with that number and the pair's title |
| ImagesV1.GatherFrom | appv1.py:265-276 | the outer loop appends after what it had |
| ImagesV1.PromptKey | appv1.py:281 | the key exists exactly when the prompt is a string, and is the chapter with the stripped prompt |
| ImagesV1.NodeImagesV1Loop | appv1.py:262-285 | the two loops as written, with the `seen` set, give what the stage function gives |
| ImagesV1.UniqueProps | appv1.py:277-284 | the pass succeeds exactly when all prompts are strings and keeps the first entry of each key with a non-empty prompt: entries of its input, with distinct keys, and every usable key kept |
| ImagesV1.NodeImagesV1Props | appv1.py:262-285 | the stage stores the uniqueness pass over the zipped walk under `image_prompts` and changes no other key |
| ImagesV1.ZipStopsAtShorter | appv1.py:265 | extra plans beyond the TOC are never read |
| Dedupe.SeenIs | appv1.py:278-284 | a counting key is in the seen set exactly when some entry has it |
| Dedupe.FirstsStep | appv1.py:280-284 | one more entry is kept exactly when its key counts and is new, and its key then joins the seen set |
| Dedupe.FirstsProps | appv1.py:277-284 | the kept entries are entries of the input with counting keys, their keys are distinct, and every first entry of a key is kept |
| Dedupe.FirstsCover | appv1.py:277-284 | every counting key of the input is the key of some kept entry |
| Dedupe.PassFrom | appv1.py:277-284 | from any point, the pass goes on as the first-of-key definition does, and fails exactly when some later entry has no key |
| Dedupe.PassIsFirsts | appv1.py:277-284 | the pass keeps exactly the first entry of each counting key, in order, and fails exactly when some entry has no key |
| Sorting.Insert | app.py:651 | inserting adds one element |
| Sorting.SortBy | app.py:651 | sorting keeps the length |
| Sorting.InsertMultiset | app.py:651 | insertion adds exactly the inserted element |
| Sorting.InsertBounded | app.py:651 | insertion keeps an upper bound on the keys |
| Sorting.InsertSorted | app.py:651 | insertion into a sorted list keeps it sorted |
| Sorting.InsertWithKey | app.py:651 | insertion puts the element after all elements with its key |
| Sorting.SortByProps | app.py:651 | `list.sort(key=...)` gives a list sorted by key, a permutation of its input, and stable |
| Normalize.Truthies | app.py:205 | keeps exactly the truthy items, all from the input |
| Normalize.StrStripAll | app.py:242 | each item shown with `str` and stripped, in order |
| Normalize.NonEmpty | app.py:226 | keeps exactly the non-empty strings, all from the input |
| Normalize.JoinedValues | app.py:221-223 | a dict's values give one joined entry exactly when some value is truthy |
| Normalize.CoerceAudience | app.py:194-206 | a string is stripped; a list is its truthy items joined by "; "; any other non-dict is shown with `str` |
| Normalize.StrsOf | app.py:205 | each item shown with `str`, in order |
| Normalize.AudienceOfDict | app.py:197-203 | a dict gives "Primary: …" and/or "Secondary: …" joined by "; ", or its JSON dump when neither is set |
| Normalize.AudienceStringIdempotent | app.py:195-196 | coercing a coerced string audience changes nothing |
| Normalize.ConstraintItem | app.py:213-223 | a string item gives its stripped text when non-empty; an item that is neither string nor dict gives nothing; at most one entry per item |
| Normalize.Gather | app.py:212-223 | whatever an item contributes is in the output |
| Normalize.GatherStep | app.py:212-223 | one more item appends exactly its own contribution |
| Normalize.CoerceConstraints | app.py:209-226 | every entry is non-empty; a string gives its stripped text when non-empty; every non-blank string item of a list is kept, stripped; anything else gives nothing |
| Normalize.NonEmptySingle | app.py:225-226 | a single string survives the final filter exactly when non-empty |
| Normalize.ConstraintItemStep | app.py:213-223 | one turn of the loop appends what the item contributes |
| Normalize.CoerceConstraintsLoop | app.py:209-226 | the append loop as written gives the coerced constraints |
| Normalize.ConstraintsFixedPoint | app.py:209-226 | a list of stripped, non-empty strings comes back unchanged |
| Normalize.GatherStrings | app.py:212-216 | the loop over stripped, non-empty strings keeps each of them, in order |
| Normalize.NonEmptyOfNonEmpty | app.py:226 | a list of non-empty strings passes the final filter unchanged |
| Normalize.StrippedNonEmptyStrs | app.py:233 | no more goals than items |
| Normalize.GoalsOfOutcomes | app.py:235-238 | no more goals than items |
| Normalize.CoerceGoals | app.py:229-245 | a `goals` list of strings gives its non-empty items stripped, whatever the other keys say |
| Normalize.CoerceGoalsReads | app.py:229-245 | the goals depend only on `goals`, `goals_outcomes` and `objectives` |
| Normalize.StripField | app.py:250-251 | only the named key changes, and only when it holds a string, to its stripped value; key order is kept |
| Normalize.SetIfPresent | app.py:252-253 | only the named key changes, and only when present; key order is kept |
| Normalize.SetField | app.py:263 | `setdefault` adds the key at the end only when missing and leaves the others alone |
| Normalize.NormalizeSpecKeys | app.py:248-264 | key order is kept, `goals` is always present and added last when missing, and unknown keys are untouched |
| Normalize.NormalizeSpecStripsText | app.py:250-262 | `title`, `tone` and `subtitle` are stripped when strings and otherwise kept |
| Normalize.HeadKeepsText | app.py:250-258 | the first four steps strip `title` and leave `tone` and `subtitle` |
| Normalize.TailStripsText | app.py:259-263 | the last three steps strip `tone` and `subtitle` and leave `title` |
| Normalize.NormalizeSpecAudience | app.py:252-253 | a present audience becomes its coerced string; a missing one is not added |
| Normalize.NormalizeSpecConstraints | app.py:257-258 | present constraints become a list of non-empty strings; missing ones are not added |
| Normalize.NormalizeSpecGoals | app.py:254-263 | `goals` becomes the coerced goals when there are any, else keeps its value, else defaults to `[]` |
| Normalize.HeadKeepsGoals | app.py:250-254 | stripping the title and coercing the audience leave the goals' sources alone |
| Normalize.GoalsStep | app.py:254-256 | coerced goals replace `goals` only when non-empty |
| Normalize.TailKeepsGoals | app.py:257-263 | the later steps leave `goals`, defaulting it to `[]` when missing |
| Normalize.NormalizeSpecNotIdempotent | app.py:204-205 | normalising twice differs from normalising once for a list audience holding one unstripped string |
| Normalize.AudienceOfSingleton | app.py:204-205 | a one-string list audience is that string, unstripped |
| Normalize.NoGoalsFromStrings | app.py:235-238 | `goals_outcomes` made of plain strings yields no goals |
| Normalize.NormalizeSpecOutcomeStrings | app.py:248-264 | such a reply, with no `goals` or `objectives`, gets an empty goals list, and `audience` and `constraints` are not added |
| Normalize.ListStrItem | app.py:503-514 | a string item gives its stripped text when non-empty; at most one entry per item |
| Normalize.AsListStr | app.py:494-517 | None gives nothing; a string gives its stripped text when non-empty; a list gives its items' contributions in order |
| Normalize.AsListStrLoop | app.py:494-517 | the append loop as written gives `_as_list_str` |
| Normalize.StrippedNonBlank | app.py:503-506 | every kept string is non-empty and stripped |
| Normalize.AsListStrOfStrings | app.py:500-515 | on a list of strings it keeps the non-blank ones, stripped, in order |
| Normalize.StrippedNonBlankFixed | app.py:503-506 | stripped non-empty strings are kept unchanged |
| Normalize.AsListStrIdempotent | app.py:494-517 | applying it to its own output changes nothing |
| Normalize.IllustrationStripped | app.py:527 | the default purpose has no surrounding whitespace |
| Normalize.StrPrompt | app.py:524-528 | a string gives one illustration prompt, stripped, when it is not blank |
| Normalize.DictPrompt | app.py:547-550 | a single dict gives at most one prompt, stripped |
| Normalize.ImagePromptItem | app.py:531-546 | a string item gives an illustration prompt when not blank; an item that is neither string nor dict gives nothing; every entry stripped |
| Normalize.DictItemPrompt | app.py:535-546 | a dict item gives at most one prompt, with stripped purpose and prompt |
| Normalize.StrippedPrompt | app.py:545 | the stored purpose and prompt have no surrounding whitespace |
| Normalize.GatherPromptsStep | app.py:530-546 | one more item appends exactly its own prompt |
| Normalize.GatherPrompts | app.py:530-546 | at most one prompt per item, all stripped |
| Normalize.NormalizeImagePrompts | app.py:520-551 | a list gives at most one prompt per item; a string gives one illustration prompt when not blank; other shapes give nothing; every entry stripped |
| Normalize.NormalizeImagePromptsLoop | app.py:520-551 | the append loop as written gives `_normalize_image_prompts` |
| Normalize.AppendImagePrompt | app.py:531-546 | one turn of the loop appends what the item contributes |
| Normalize.ImagePromptDropped | app.py:536-543 | a dict item is dropped exactly when none of `prompt`, `image`, `text`, `caption` is truthy |
| Normalize.ImagePromptDefaultPurpose | app.py:542-546 | a dict item with a prompt and no `purpose` or `role` is an illustration |
| Normalize.DictItem | app.py:535-546 | a dict item gives its stripped purpose and prompt when it has a prompt |
| Normalize.OrChainFallback | app.py:542 | an `or` chain whose first two values are falsy is its last value |
| Normalize.PromptsJson | app.py:544-546 | one `{"purpose", "prompt"}` dict per prompt, in order |
| Normalize.PlanJson | app.py:555-571 | the plan dict has the keys `number`, `title`, `objectives`, `key_ideas`, `image_prompts` in that order |
| Normalize.NormalizePlan | app.py:554-571 | the title and prompts are stripped; the number is the reply's (or entry's) when it converts; it fails exactly when neither the reply's fallback number nor the entry's converts |
| Normalize.NormalizePlanTitle | app.py:560-561 | the title is the reply's, else the entry's, else "Chapter n", stripped |
| Assemble.ShowDraft | app.py:691-702 | a draft can be shown exactly when its `text` (default "") is a string |
| Assemble.ShowAll | app.py:691-702 | a successful walk shows one value per draft |
| Assemble.ShowAllIs | app.py:691-705 | the walk succeeds exactly when every draft is a dict whose `text` (default "") is a string; value i is draft i shown; any non-dict draft raises AttributeError from the first loop's `d.get`, ahead of the join's TypeError |
| Assemble.Header | app.py:684-690 | three lines, or four with a truthy subtitle: `# <title>` first, `_<subtitle>_` second when truthy, then the rule and `## Table of Contents` last |
| Assemble.TocLines | app.py:691-694 | one TOC line per draft, in order |
| Assemble.Chapters | app.py:698-703 | three lines per draft |
| Assemble.ChaptersAt | app.py:698-703 | draft `i` gives its anchored heading, its text and a blank line, at lines `3i` to `3i+2` |
| Assemble.LinesLayout | app.py:683-703 | the lines are the header, one TOC line per draft linking to `#ch<number>`, a rule, then per draft its heading with the anchor `ch<number>` and its text |
| Assemble.JoinLast | app.py:705 | the joined text ends with the last line |
| Assemble.MarkdownIs | app.py:679-705 | a stored Markdown has every draft showable and is the join of the lines built from the shown drafts |
| Assemble.DraftLines | app.py:691-703 | TOC line i, heading i and text i carry draft i's number, title and text; the rule follows the TOC lines |
| Assemble.MarkdownEnds | app.py:683-705 | the Markdown starts with `# <title>` (default "Book") and ends with a newline |
| Assemble.JoinLonger | app.py:705 | joining at least two lines is longer than the first and last together |
| Assemble.NodeAssembleOnlyMarkdown | app.py:678-724 | the stage fails exactly when the Markdown does, stores it under `book_markdown` and changes no other key |
| AssembleV1.HeadParts | appv1.py:293-298 | four parts, or five with a truthy subtitle: the title part first, `*<subtitle>*` second when truthy, then a blank part, the "About this book" heading and the `**Audience:**` part last |
| AssembleV1.GoalLines | appv1.py:301-302 | one `- goal` line per goal, in order |
| AssembleV1.TocStepIs | appv1.py:307-311 | a TOC entry gives its line exactly when it is a dict |
| AssembleV1.ChapterPartsV1Is | appv1.py:316-323 | a draft gives its "Chapter n: title" heading and its stripped text exactly when it is a dict whose number converts and whose `markdown` is a string |
| AssembleV1.HeadOfIs | appv1.py:289-306 | the head starts with the title line (default "Untitled Book") and has the "About this book" heading after the optional subtitle; `spec` must be a dict |
| AssembleV1.NodeAssembleV1Loop | appv1.py:288-341 | the three loops as written, appending to one list of parts, give what the stage function gives |
| AssembleV1.JoinAt | appv1.py:329 | part `k` sits in the joined text, after the first part and a separator when `k > 0` |
| AssembleV1.StripKeepsHead | appv1.py:329 | `strip` keeps a non-blank-led first part when a later non-blank character follows, and leaves a non-blank last character |
| AssembleV1.JoinedEnds | appv1.py:329 | join, strip and add a newline: the first part stays at the start and the text ends with exactly one newline |
| AssembleV1.HeadingsStart | appv1.py:293-297 | both the title line and the "About this book" heading begin with a non-blank `#` |
| AssembleV1.MarkdownV1Ends | appv1.py:288-329 | the Markdown starts with the title line and ends with exactly one newline after a non-blank character |
| AssembleV1.NodeAssembleV1OnlyMarkdown | appv1.py:288-341 | the stage fails exactly when the Markdown does, stores it under `book_markdown` and changes no other key |
| AssembleV1.TailHead | appv1.py:306-322 | the parts start with the head, and the blank part follows the TOC lines |
| AssembleV1.TailToc | appv1.py:307-311 | after the head comes one TOC line per entry, in order |
| AssembleV1.TailChapters | appv1.py:316-323 | after the blank part come two parts per draft, in order, and nothing else |
| AssembleV1.TocWidth | appv1.py:311 | each TOC entry appends one part |
| AssembleV1.ChapterWidth | appv1.py:322-323 | each draft appends two parts |
| AssembleV1.MarkdownV1Is | appv1.py:329 | the Markdown is the parts joined by newlines, stripped, with one newline added |
| AssembleV1.PartsV1Is | appv1.py:292-323 | the parts are the head, then what the TOC loop and the drafts loop append, with the blank part between |
| Collect.CollectFrom | appv1.py:307-323 | an append loop keeps what it had accumulated at the front |
| Collect.CollectOk | appv1.py:307-323 | the loop completes exactly when no element raises, and otherwise raises what the first raising element raises |
| Collect.CollectAt | appv1.py:316-323 | when each element gives `n` parts, element `i`'s parts sit at `n*i` after the start |
| Collect.CollectLength | appv1.py:316-323 | when each element gives `n` parts, the loop gives `n` parts per element |
| Collect.CollectLayout | appv1.py:316-323 | the result is the start followed by each element's parts in turn |
| Pipeline.Saved | app.py:738-790 | the images stage saves `image_prompts` (default `[]`); every other stage saves exactly what the node put under its key, and fails when the key is missing |
| Pipeline.RunGraph | app.py:803-818 | walking the compiled graph from its entry point along its edges runs the six stages in order |
| Pipeline.StageRoutes | app.py:743-799 | spec, toc and images go to Ollama; plan, draft and assemble go to Gemini |
| Pipeline.LowerLowercase | app.py:155 | lower-casing a name without capitals changes nothing |
| Pipeline.StageProps | app.py:738-801 | with `dry_run` a skipped stage changes nothing; a reloaded checkpoint goes into the state with no model call and no save; a fresh stage runs its node on the routed backend and saves its output |
| Pipeline.StateKeyInjective | app.py:738-801 | the stages fill distinct keys |
| Pipeline.RunResumed | app.py:738-801 | resuming with every checkpoint present makes no model call, saves nothing, and fills each stage's key from its checkpoint |
| Pipeline.RunCheckpoints | app.py:738-801 | every stage that runs leaves its checkpoint, and none is removed |
| Pipeline.RunDry | app.py:768-801 | with `dry_run` only spec, toc and plan matter |
| Pipeline.DryTail | app.py:768-801 | skipped stages after others leave the outcome as it is |
| Pipeline.DrySkippedRun | app.py:768-801 | a run of skipped stages changes nothing |
| JsonModel.Keys | app.py:221 | the keys of a dict, in insertion order |
| JsonModel.Values | app.py:221 | the values of a dict, in insertion order |
| JsonModel.Get | app.py:252-253 | a key reads a value exactly when it is present, and the value is the one stored with it |
| JsonModel.GetCons | app.py:252-253 | lookup in a dict with one more pair in front sees that pair first |
| JsonModel.Set | app.py:253 | assigning a key adds a pair only when the key is new |
| JsonModel.SetKeys | app.py:253 | after assigning, the keys are the old ones, with a new key added last |
| JsonModel.SetGet | app.py:253 | after assigning, the key reads the new value and every other key reads as before |
| JsonModel.DictGet | app.py:627 | `.get` works exactly on a dict, giving the stored value or the default |
| JsonModel.OrChain | app.py:537-541 | an `or` chain gives one of its operands, truthy exactly when some operand is, and the first truthy one when there is one |
| JsonModel.PyIter | app.py:660 | a `for` loop walks a list's items and fails exactly on a value that is not a list, string or dict |
| JsonModel.AsDict | app.py:426 | a value is used as a dict exactly when it is one |
| JsonModel.Iter | app.py:660 | iteration raises exactly where `for` cannot walk the value |
| JsonModel.ToInt | app.py:627 | `int()` raises exactly where it has no value |
| JsonModel.Field | app.py:616 | `state[k]` raises KeyError exactly when the key is absent |
| JsonModel.StrList | app.py:256 | a list of strings as a JSON list, item by item |
| JsonModel.EscapedAscii | app.py:638 | `json.dumps` with its default `ensure_ascii` writes only ASCII characters inside strings |
| JsonModel.ConversionsOnOwnType | app.py:627 | `str` of a string and `int` of an int return them |
| JsonModel.PyIntOfDecimal | app.py:627 | `int(str(n))` is `n` |
| PyStrings.LStrip | app.py:295 | `lstrip` drops exactly the longest prefix of stripped characters |
| PyStrings.RStrip | app.py:295 | `rstrip` drops exactly the longest suffix of stripped characters |
| PyStrings.LStripOfStripped | app.py:295 | `lstrip` leaves a string whose first character is kept |
| PyStrings.RStripOfStripped | app.py:295 | `rstrip` leaves a string whose last character is kept |
| PyStrings.StripCharsProps | app.py:295 | `strip` leaves no stripped character at either end and gives a slice of its input |
| PyStrings.StripCharsIdempotent | app.py:289 | `strip` applied twice is `strip` once |
| PyStrings.StrippedIsFixed | app.py:289 | `strip` leaves an already stripped string alone |
| PyStrings.StripEmptyIff | app.py:290 | `strip` gives the empty string exactly when every character is stripped |
| PyStrings.Lower | app.py:155 | `lower` maps capitals to small letters and leaves every other character |
| PyStrings.LowerStr | app.py:155 | `lower` works character by character |
| PyStrings.FindFrom | app.py:79 | `find` gives the first match at or after the start, and nothing when there is none |
| PyStrings.MatchesLiteral | app.py:76 | a literal copy of the pattern is a match |
| PyStrings.FindFromIs | app.py:79 | the search finds the first match |
| PyStrings.RFindChar | app.py:80 | `rfind` gives the last index holding the character, and nothing when there is none |
| PyStrings.FindChar | app.py:79 | `find` gives the first index holding the character, and nothing when there is none |
| PyStrings.FindCharIs | app.py:79 | `find` gives the first such index |
| PyStrings.RFindCharIs | app.py:80 | `rfind` gives the last such index |
| PyStrings.JoinFirst | app.py:705 | `join` starts with the first part |
| PyStrings.NatToString | app.py:294 | `str(n)` for `n >= 0` is a non-empty string of digits |
| PyStrings.ParseInt | app.py:627 | `int(s)` succeeds only on a string that is not blank |
| PyStrings.DigitsOfNat | app.py:294 | the digits of `n` read back as `n` |
| PyStrings.ParseIntOfIntToString | app.py:627 | `int(str(n)) == n` for every integer |
| PyStrings.LineEnd | app.py:288 | the first line break, or the end of the text |
| PyStrings.SplitLines | app.py:288 | `splitlines` gives lines that hold no line break |
| Toc.SkipWhile | app.py:292 | a run of matching characters ends at the first character that does not match |
| Toc.SkipWhileIs | app.py:292 | the run ends exactly at the first character that does not match |
| Toc.NoChapterWord | app.py:292 | a line starting with a digit has no leading "chapter" |
| Toc.ChapterWordOf | app.py:292 | a line starting with "Chapter" has the leading word |
| Toc.MatchSegments | app.py:292-294 | the pattern reads the number from the digits and the title after the punctuation and blanks |
| Toc.Accept | app.py:295-297 | a match is kept only with a non-empty stripped title |
| Toc.Dedup | app.py:298-303 | the `uniq` list holds only items of the input, at most as many |
| Toc.NumbersAppend | app.py:302 | one more item adds its number to the numbers seen |
| Toc.TocEntryGet | app.py:441-447 | a TOC entry holds its number, title and pages under `number`, `title`, `target_pages`, in that order |
| Toc.TocEntrySet | app.py:461 | writing `target_pages` or `number` changes only that field |
| Toc.Clamped | app.py:335 | the page counts clamped to at least 1 |
| Toc.ClampedCountsOfEntries | app.py:335 | clamping dict entries reads each entry's own pages |
| Toc.TenPagesBalanced | app.py:304-307 | with ten pages each, sorted and rebalanced, the items keep their numbers and titles as a permutation, sorted, at least one page each, summing to the total when it is at least the count |
| Toc.SortedTenPages | app.py:305-307 | sorting the ten-page entries gives a sorted permutation with titles and ten pages each |
| Toc.RebalanceHeads | app.py:330-356 | rebalancing keeps each entry's number and title |
| Toc.SortedEntries | app.py:457-458 | entries that keep the numbers of a sorted list are sorted |
| Toc.MultisetMap | app.py:457 | mapping a permutation gives a permutation |
| Toc.Padding | app.py:452-455 | the padding entries are numbered from `start` on, titled "Chapter n", with ten pages each |
| Toc.PaddedBuilt | app.py:457-461 | sorting, rebalancing and renumbering keep the length and, from six entries on, give a well-formed TOC: entry `i` is number `i+1` with at least one page and a stripped title |
| Toc.RenumberProps | app.py:460-461 | renumbering numbers the entries 1, 2, … and keeps their pages and titles |
| Toc.ArrangedTitles | app.py:457-458 | sorting and rebalancing keep the titles and give at least one page each |
| Toc.SortedTitles | app.py:457 | sorting keeps the titles non-empty and stripped |
| Toc.ChapterTitleStripped | app.py:454 | "Chapter n" is non-empty and stripped |
| Toc.SanitizeOne | app.py:425-447 | one turn of the loop appends what the item contributes |
| Toc.SanitizeEntry | app.py:425-447 | an entry already in shape passes the sanitiser unchanged |
| StagesV1.SetPagesKeepsNumber | appv1.py:117 | writing `target_pages` keeps the number the sort read |
| StagesV1.SetPagesEach | appv1.py:116-117 | chapter `i` gets page count `i` and keeps its number |
| StagesV1.BalancedOf | appv1.py:116-117 | pages of at least 1 summing to the total, over chapters in number order, make a balanced TOC |
| StagesV1.PlansJsonV1 | appv1.py:206 | the stored plans list has one dict per plan, in order |
| StagesV1.PlanFromStep | appv1.py:182-206 | one more plan in front keeps each plan tied to its entry |
| StagesV1.EntriesOkAt | appv1.py:182-206 | plan `i` belongs to entry `i` |
| Stages.PlansJson | app.py:603 | the stored plans list has one dict per plan, in order |
| Threaded.EachStep | app.py:578-603 | one more element walked is that element's result in front of the rest |
| Threaded.EachAnswers | app.py:646-649 | a walk whose steps each answer one request gives one result per element, each made from its own reply |
| Threaded.EachAsks | app.py:578-603 | a walk whose steps each answer one or two requests gives one good result per element, with between one and two requests per element |
| Oracle.AnsweredTrans | app.py:107 | answering `k1` then `k2` requests is answering `k1 + k2` |
| Oracle.AnsweredNone | app.py:107 | answering no request leaves the backend as it was |
| ExtractV1.Repeat | appv1.py:73-76 | `k` copies of the nudge prompt |
| ExtractV1.SucceedsLater | appv1.py:65-76 | a failed attempt followed by a success on the nudged prompt is a success one attempt later |
| Extract.NoOpenerWithoutBacktick | app.py:76 | no fence opener starts at a character that is not a backtick |
| Extract.OpenerAt | app.py:76 | the first fence opener follows a prefix without backticks |
| Extract.CloserAt | app.py:76 | the first fence closer ends a stretch without backticks |
| PagesV1.Start | appv1.py:100-103 | the scaled counts are at least 1 each and start the loop with `sum + diff == total` |
| PagesV1.StartExactTie | appv1.py:100-114 | the exact-rational start of `[7, 7]` at 29 is `[14, 14]` (the tie 14.5 rounds to even), and the result is `[15, 14]` |
| PagesV1.Iterate | appv1.py:105-114 | running the loop body any number of times keeps the length |
| PagesV1.GapBelowLength | appv1.py:110-113 | when some count is above 1, the next one lies less than a pass away |
| PagesV1.MeasureDecreasesOnTake | appv1.py:110-114 | taking a page from a count above 1 brings the loop a whole pass closer to its end |
| Pages.NearestUnique | app.py:341 | there is only one nearest integer with ties to even |
| Pages.NearestScaled | app.py:341 | scaling numerator and denominator keeps the nearest integer |
| Pages.SumUpdate | app.py:346-352 | changing one count by `d` changes the sum by `d` |
| Pages.SumAtLeastLength | app.py:335 | counts of at least 1 sum to at least their number |

## Left out

- Model backends: `ChatOllama`, `ChatGoogleGenerativeAI`, `init_llms` and `llm.invoke` are network calls. They are replaced by the reply oracle.
- The tenacity `@retry` around `call_llm_text`: retries of a failing backend are not modelled. Running out of replies stands for a backend that still fails after its retries (`BackendError`).
- `JSONDecoder.raw_decode` and `json.loads` are library parsers. They are a parameter of the model, not a reimplementation of JSON parsing.
- `jsonschema` validation in `_maybe_validate` is a library call. It is not modelled, as if `STRICT_JSON` were off.
- File and PDF I/O: `_save_json`, `_load_json`, `ensure_dir`, the `book.md`, per-chapter and consolidated file writes, and the `markdown_pdf` document. The checkpoint files are a map from stage to stored value. A checkpoint that fails to load is not modelled.
- Concurrency: the thread pool of the current `node_draft` is modelled as one worker after another. The stable sort that follows makes the stored order independent of completion order when the selected numbers are distinct, as the renumbering of `node_toc` makes them. Drafts with equal numbers keep their completion order in the source; the model fixes them in TOC order. `Book.NodeDraftProps` states which draft belongs to which entry, in that sequential order.
- LangGraph: `StateGraph`, `add_node`, `add_edge` and `compile` are replaced by the fixed linear order of the edges. LangGraph's merge of a node's partial return into the state is modelled as assigning the returned key. The earlier `build_graph` (appv1.py:347-380) only wires the same six stages and is not modelled separately.
- `argparse`, `main`, `load_key.py`, progress messages and the earlier `node_spec` are not part of this model.
- Floating point. Temperatures are tenths (0.7 is 7). JSON has no floating-point numbers. The current `round(x * total_pages / s)` is Python's half-to-even rounding of the exact rational `x * total / s`: the one division is correctly rounded, so the two agree at realistic sizes.
- PagesV1.Start: the earlier version rounds twice, `scale = pages_total / s` and then `round(x * scale)`, and the model rounds the exact rational instead. The two starts can differ by one where the exact quotient is a tie: for `[7, 7]` at 29 the float product is 14.500000000000002, so the source starts at `[15, 15]` and the model at `[14, 14]` (`PagesV1.StartExactTie`).
- PagesV1.RebalanceCountsV1: because of that start, the counts can differ from the source's on such ties (`[15, 14]` here, `[14, 15]` in the source for `[7, 7]` at 29). The failure cases, the length, the counts of at least 1 and the exact sum hold from any start of counts of at least 1 (`PagesV1.V1Drift`), and so also of the source's counts.
- PagesV1.RebalancePagesV1: it stores the counts of `PagesV1.RebalanceCountsV1`, so on such ties the stored pages can differ from the source's, and so can those stored by `StagesV1.ChaptersOfReply` and `PagesV1.RebalancePagesV1Method`.
- Unicode: `isspace`, `strip`, `lower`, `splitlines`, `\d` and `int()` are modelled on ASCII only, and so is the fence pattern of app.py:76: its `\s*` and its `re.IGNORECASE` match are Unicode-aware in Python (`ſ`, U+017F, matches the `s` of `json`), the model's fence match is ASCII.
- `str()` of a container is shown without Python's string escaping. `int()` of a string accepts an optional sign and ASCII digits, without underscores.
- JsonModel.ToInt: a failing `int()` raises ValueError in the model, where Python raises TypeError for `int(None)`, `int([])` or `int({})`. No `except` clause of the source tells the two apart, so nothing observable depends on the difference.
- Book.TargetWords: `state["words_per_page"]` is assumed to be an int; any other value raises TypeError in the model, where Python would multiply a float.
- StagesV1.ChaptersOfReply: `pages_total` is assumed to be an int, as the command line supplies it.
- Stages.NodeTocStage: `pages_total` is assumed to be an int, as the command line supplies it; a non-int raises TypeError before the model call, where the source would only use it after the call (app.py:414, 418, 458).
- Aliasing and in-place mutation of dicts (`c["target_pages"] = p` inside the caller's list, `it["target_pages"] = 10`) are modelled on values: the model returns the updated list, and nothing else can observe a shared dict.
- PagesV1.RebalancePagesV1Method: a loop that never ends is modelled as the error `Diverges`. `PagesV1.V1DriftLoop` runs the loop only on inputs where it ends.
- JsonModel.Get: a key reads the first pair stored with it. A dict decoded by Python keeps the last value of a duplicated key. The decoder parameter is not required to return objects without duplicate keys, so on such objects the two can differ.
