# Health-topic SEO keyword hunter: the keyword analysis

`health_hot_seo_hunter.py` harvests long-tail search keywords for nine health and diet
seed keywords (养生, 饮食, 控糖, …), together with hot-list titles about them. It then
scores and classifies every keyword and ranks the results. This Dafny project models the
analysis between the fetches and the output files:

- the keyword scorer `calculate_score` (module `Scoring`);
- the intent classifier `detect_intent` (module `Intent`);
- the title-template selector `generate_catchy_title` (module `Titles`);
- the substitute-data generators `generate_fallback_keywords` and
  `generate_fallback_hot_topics` (module `Fallback`);
- the body of `main` from the empty dictionary to the two sorted lists (module `Pipeline`).

Text primitives are in `Text`: Python's substring test `w in s` and `any(...)` over a word
list, the `\d` search, and `"/".join` with `split("/")`. The seed list and the topic record
are in `Topics`. The stable descending sort `sorted(..., reverse=True)` is in `Sorting`.

`main` mutates state step by step, so its state is the class `Pipeline.Harvest`. It holds
`all_keywords` as a map plus the insertion order of its keys, and `hot_topics` as a sequence.
Each step of `main` is a method of that class, or a method that drives it. Each method is
proved against specification functions: `Merge`, `Extend`, `Relevant`, `FallbackTable`,
`Annotated` and `SortDescending`. The lemmas beside them state what those functions
guarantee. `Pipeline.Run` chains the steps and states the end result. Both rankings are
ordered. Every keyword appears once and is annotated. Every topic mentions a seed. The
substitute data appears exactly when no live keyword and no live topic came in.

The scorer and the classifier build their results step by step: `calculate_score` adds to
a running score and `detect_intent` appends to a list of labels. The keyword generator runs
nested loops. All three are therefore methods (`CalculateScore`, `DetectIntent`,
`GenerateFallbackKeywords`), each proved equal to a function (`Score`, `IntentOf`,
`FallbackKeywords`). The lemmas and the rest of the model use those functions.

Inputs the program fetches over the network are parameters of `Run`:

- `baidu`, `bilibili`: for each seed, the suggestion list the service returned.
- `taobao`: for each seed, the raw Taobao items, which may be non-strings.
- `zhihu`, `weibo`: the hot-list titles.
- `pick`: for each keyword, the random template choice.

An empty list stands for a failed fetch, as in the source.

## Model

| member | source | states |
|---|---|---|
| Text.ContainsIffOccurs | health_hot_seo_hunter.py:69 | the substring test `w in s` holds exactly when `w` occurs at some position of `s` |
| Text.ContainsInContext | health_hot_seo_hunter.py:69 | a word found in a text is still found after text is put around it |
| Text.AnyInContext | health_hot_seo_hunter.py:69 | a category matched by a keyword is matched by any phrase containing it |
| Text.HasDigitInContext | health_hot_seo_hunter.py:94 | a digit found by `\d+` is still found after text is put around the keyword |
| Text.Split | health_hot_seo_hunter.py:161 | `split("/")` always yields at least one piece, so `[0]` is defined |
| Text.SplitJoin | health_hot_seo_hunter.py:117 | splitting a "/"-join of slash-free labels at "/" gives the labels back |
| Scoring.Score | health_hot_seo_hunter.py:64-97 | the score is at most 21 and never below the length bonus |
| Scoring.CalculateScore | health_hot_seo_hunter.py:64-97 | the step-by-step accumulator returns `Score(keyword)`, a value in 0..21 |
| Scoring.LengthBonusGrades | health_hot_seo_hunter.py:76-83 | the length bonus is 4 from 10 characters, 3 for 8-9, 2 for 6-7 and 0 below 6, each an if-and-only-if |
| Scoring.ScoreOfShortPlainKeyword | health_hot_seo_hunter.py:64-97 | a keyword under 6 characters with no trigger word and no digit scores 0 |
| Scoring.ScoreDependsOnCategoriesOnly | health_hot_seo_hunter.py:69-95 | keywords of equal length that match the same categories and agree on having a digit score the same, however many trigger words each holds |
| Scoring.ScoreCountsCategoryOnce | health_hot_seo_hunter.py:69-70 | a keyword with two question words gets the question bonus once (score 6) |
| Scoring.ScoreMaximumReached | health_hot_seo_hunter.py:64-97 | the bound 21 is reached by a concrete keyword |
| Scoring.ScoreGrowsWithContext | health_hot_seo_hunter.py:64-97 | embedding a keyword in a longer phrase never lowers its score |
| Intent.DetectIntent | health_hot_seo_hunter.py:100-117 | the append-then-join code returns `IntentOf(keyword)`, and returns "通用" exactly when no category matches |
| Intent.MatchedSpec | health_hot_seo_hunter.py:102-115 | after the first n tests the list holds exactly the labels of the matching categories, in category order |
| Intent.MatchedLabelsOrdered | health_hot_seo_hunter.py:102-115 | the matched labels are a subsequence of 疑问, 功效, 副作用, 购买, 对比, 食谱 with no repeats, and a label is present exactly when its category has a word in the keyword |
| Intent.IntentIsGenericIff | health_hot_seo_hunter.py:117 | the intent is "通用" if and only if no category's trigger word is in the keyword |
| Intent.IntentSplitsToLabels | health_hot_seo_hunter.py:117 | a non-generic intent splits at "/" back into the matched labels, and its first segment is the first matched label |
| Intent.SideEffectWordIntent | health_hot_seo_hunter.py:106-109 | the keyword "副作用" also holds the 功效 word "作用", so its intent is "功效/副作用" |
| Titles.TemplatesFor | health_hot_seo_hunter.py:161-162 | the selected list has at least 3 templates, and an intent key with no list of its own gets the "通用" list |
| Titles.TemplatesForListed | health_hot_seo_hunter.py:162 | the selected list is always one of the table's seven lists |
| Titles.Candidates | health_hot_seo_hunter.py:122-159 | there are at least 3 candidates, candidate i is template i of the selected list filled with the keyword, and every candidate contains the keyword |
| Titles.CatchyTitle | health_hot_seo_hunter.py:120-163 | the title is one of the candidates of the selected list and contains the keyword |
| Titles.EveryCandidateReachable | health_hot_seo_hunter.py:163 | every candidate of the selected list is the result for some choice |
| Titles.LabelsHaveTemplates | health_hot_seo_hunter.py:122-159 | every intent label has a template list of its own |
| Titles.TitleFollowsFirstLabel | health_hot_seo_hunter.py:161-162 | for a detected intent, the list is that of the first matched label, or the "通用" list when none matched |
| Topics.StartsWithSeed | health_hot_seo_hunter.py:399 | a title that starts with a seed keyword passes the seed filter |
| Fallback.Prefixed | health_hot_seo_hunter.py:327-328 | the prefixed forms are as many as the prefixes |
| Fallback.PrefixedAt | health_hot_seo_hunter.py:327-328 | prefixed form i is prefix i followed by the seed |
| Fallback.Suffixed | health_hot_seo_hunter.py:329-332 | the suffixed forms are as many as the suffixes |
| Fallback.SuffixedAt | health_hot_seo_hunter.py:329-332 | suffixed form i is the seed followed by suffix i |
| Fallback.Block | health_hot_seo_hunter.py:327-332 | one seed yields 5 + 8 + 5 = 18 keywords |
| Fallback.BlockAt | health_hot_seo_hunter.py:327-332 | a seed's block holds the first 5 prefixed forms, then the first 8 suffixed forms, then the first 5 questions |
| Fallback.GenerateFallbackKeywords | health_hot_seo_hunter.py:319-334 | the nested loops return `FallbackKeywords(SEED_KEYWORDS)`, 162 strings |
| Fallback.GenerateBlock | health_hot_seo_hunter.py:327-332 | the three inner loops append exactly one seed's block |
| Fallback.FallbackKeywordsCount | health_hot_seo_hunter.py:326-332 | the generator yields 18 keywords per seed |
| Fallback.FallbackKeywordsAt | health_hot_seo_hunter.py:326-332 | keyword k of seed j's block sits at position 18j + k |
| Fallback.FallbackKeywordHasSeed | health_hot_seo_hunter.py:326-332 | every generated keyword begins or ends with its own seed, and so contains it |
| Fallback.FallbackHotTopics | health_hot_seo_hunter.py:337-351 | 10 records with the fixed titles in their given order, each with source "热点模拟" and angle "争议/科普型" |
| Fallback.FallbackTopicsMentionSeeds | health_hot_seo_hunter.py:339-351 | every substitute title starts with a seed keyword, so it would pass the live seed filter |
| Sorting.Insert | health_hot_seo_hunter.py:430-431 | insertion adds exactly the one element |
| Sorting.SortDescending | health_hot_seo_hunter.py:430-431 | the sorted list is a permutation of the input |
| Sorting.InsertNonIncreasing | health_hot_seo_hunter.py:430-431 | inserting into a non-increasing list keeps it non-increasing |
| Sorting.SortDescendingOrdered | health_hot_seo_hunter.py:430-431 | the result is ordered by non-increasing key |
| Sorting.InsertWithKey | health_hot_seo_hunter.py:430-431 | an inserted element goes after the elements of equal key |
| Sorting.SortDescendingStable | health_hot_seo_hunter.py:430-431 | elements of equal key keep their original order, as with Python's stable `sorted(reverse=True)` |
| Pipeline.TaobaoKeywords | health_hot_seo_hunter.py:385-386 | a Taobao item is kept exactly when it is a non-empty string, and each kept string occurs as often as it does among the items |
| Pipeline.MergeSpec | health_hot_seo_hunter.py:373-376 | after a suggestion list is merged, a key has an entry iff it had one or is suggested; its sources gain one label per occurrence; nothing else in it changes |
| Pipeline.MergeKeys | health_hot_seo_hunter.py:373-376 | the merged keys are the old keys plus the suggestions |
| Pipeline.MergeLabels | health_hot_seo_hunter.py:373-376 | merging appends only its own label, so sources stay drawn from a label set that contains it |
| Pipeline.ExtendSpec | health_hot_seo_hunter.py:374-375 | the dictionary's key order stays free of repeats, lists the old keys and the suggestions, and keeps the old keys in place |
| Pipeline.SeedMerge | health_hot_seo_hunter.py:372-389 | one seed's three lists add exactly its suggestions as keys, with only 百度, B站 and 淘宝 labels |
| Pipeline.SuggestionsForStep | health_hot_seo_hunter.py:368-389 | each further seed adds exactly its own suggestions to the keys |
| Pipeline.RelevantSpec | health_hot_seo_hunter.py:398-400 | a title becomes a topic iff it mentions a seed, and the topic carries the list's source and angle |
| Pipeline.AnnotateEntry | health_hot_seo_hunter.py:425-428 | one record gets the keyword's score, intent, a title for that intent, and its sources as a set |
| Pipeline.AnnotateAll | health_hot_seo_hunter.py:424-428 | the loop over the keys in dictionary order leaves exactly the dictionary with every record annotated: same keys, each value `Annotated` |
| Pipeline.OverlayAll | health_hot_seo_hunter.py:424 | a loop that visits every key and rewrites each visited value yields the same map as rewriting all values at once: same keys, every value rewritten |
| Pipeline.FallbackTableSpec | health_hot_seo_hunter.py:416-417 | the substitute dictionary has exactly the generated keywords, each with sources ["备用生成"] |
| Pipeline.FallbackIndexed | health_hot_seo_hunter.py:416-417 | the substitute dictionary and its key order list the same keys, each once |
| Pipeline.FallbackDictionary | health_hot_seo_hunter.py:416-417 | the loop builds `FallbackTable` and its key order |
| Pipeline.RecordIndexed | health_hot_seo_hunter.py:374-376 | recording one suggestion adds its key to the end of the order exactly when the key is new, and the order keeps listing each key of the dictionary once |
| Pipeline.Items | health_hot_seo_hunter.py:430 | `items()` lists every key of the dictionary exactly once, each with its own record, in dictionary order |
| Pipeline.Harvest.constructor | health_hot_seo_hunter.py:361-362 | both collections start empty |
| Pipeline.Harvest.Record | health_hot_seo_hunter.py:374-376 | one suggestion creates a missing entry, appends the label, and places a new key last in the order |
| Pipeline.Harvest.AddSuggestions | health_hot_seo_hunter.py:373-382 | the Baidu and Bilibili loops leave the dictionary `Merge`d with the list and the order `Extend`ed by it |
| Pipeline.Harvest.AddTaobaoSuggestions | health_hot_seo_hunter.py:384-389 | the Taobao loop merges only the non-empty strings |
| Pipeline.Harvest.AddSeedSuggestions | health_hot_seo_hunter.py:372-389 | one seed leaves the dictionary merged with its Baidu, Bilibili and Taobao lists in that order, and the key order extended the same way; so it adds exactly its suggestions as keys and only live labels; topics are untouched |
| Pipeline.Harvest.AddHotTopics | health_hot_seo_hunter.py:398-400 | the topics gain the relevant titles of the list, in order; keywords are untouched |
| Pipeline.Harvest.AddHotLists | health_hot_seo_hunter.py:397-408 | the topics are the relevant Zhihu titles, then the relevant Weibo titles (none when the Weibo list is empty) |
| Pipeline.Harvest.UseFallbackIfEmpty | health_hot_seo_hunter.py:411-418 | the substitute keywords and topics replace the state exactly when both collections are empty; otherwise nothing changes |
| Pipeline.Harvest.Annotate | health_hot_seo_hunter.py:424-428 | the dictionary becomes the old one with every record annotated; the keys, their order and the topics are unchanged |
| Pipeline.CollectFrom | health_hot_seo_hunter.py:368-391 | the seed loop leaves the dictionary and key order that one seed's merges after another produce (`Collected`): the keys are exactly the suggestions for the seeds, all labelled by live sources, and there are no topics |
| Pipeline.CollectSuggestions | health_hot_seo_hunter.py:368-391 | step 1 over `SEED_KEYWORDS` leaves the dictionary and order `Collected` from all seeds: the live suggestions as keys, and no topics |
| Pipeline.Collect | health_hot_seo_hunter.py:368-408 | after steps 1 and 2 the dictionary and order are those `Collected` from all seeds, and the topics are the live relevant titles |
| Pipeline.Prepare | health_hot_seo_hunter.py:361-418 | after step 3 the dictionary, its order and the topics are exactly the collected ones, or the substitute ones exactly when both collections were empty |
| Pipeline.Run | health_hot_seo_hunter.py:361-431 | the rankings are exactly the prepared items, each annotated, sorted by score, and the prepared topics sorted by title length; both are non-increasing; each keyword is listed once; every topic mentions a seed; the keywords and topics are the live ones or, only when both live collections are empty, the substitute ones |
| Pipeline.RankedOrder | health_hot_seo_hunter.py:424-431 | ranking the annotated dictionary lists every prepared key once with its annotated record, keeps its sources, and yields the sorted items and sorted topics of the prepared state |
| Pipeline.Ranking | health_hot_seo_hunter.py:430-431 | after every value is rewritten, the two rankings are non-increasing and are the sorted rewritten items and the sorted topics |
| Pipeline.ItemsMapped | health_hot_seo_hunter.py:424-430 | the items of a dictionary whose values were all rewritten are the old items, in the same order, each value rewritten |
| Pipeline.RankingOutcome | health_hot_seo_hunter.py:411-431 | the rankings keep the keys, labels and topics step 3 left, and every ranked topic mentions a seed |
| Pipeline.RankedItems | health_hot_seo_hunter.py:430 | a permutation of the items lists every key once, each with its own record |
| Pipeline.PermutationKeysDistinct | health_hot_seo_hunter.py:430 | reordering items keeps the keys distinct |
| Pipeline.RankedAnnotated | health_hot_seo_hunter.py:424-430 | every ranked record is annotated and keeps the sources collected for it |
| Pipeline.RankedOutcome | health_hot_seo_hunter.py:411-431 | the rankings carry over the keys, labels and topics that step 3 left |
| Pipeline.RankedTopicsMentionSeeds | health_hot_seo_hunter.py:398-431 | every ranked topic, live or substitute, mentions a seed keyword |

## Left out

- Fetching (`get_random_headers`, `safe_request`, the `fetch_*` functions, web_fetcher.py): network I/O and response parsing. The lists they return are parameters of `Pipeline.Run`.
- The `time.sleep` delays, the elapsed-time measurement and all console output. This includes the message printed when the Weibo list is empty; that branch adds no topic, as in the model.
- `save_history`, `load_recent_history` and the Markdown, CSV and JSON output files: filesystem I/O and timestamps.
- The `avg_score` float division and the chart call. charts.py is not part of this model (plotting libraries).
- Pipeline.Entry: the joined `source` string is modelled as the set of labels. `"+".join(set(...))` orders the labels by set iteration order, which the program does not fix.
- Titles.CatchyTitle: `random.choice` is the parameter `pick`, taken modulo the list length. Any member can be chosen (`EveryCandidateReachable`).
- Text.IsDigit: `\d` is modelled as the ASCII and full-width digits. Other Unicode decimal digits that Python's `\d` also matches are not modelled.
- Pipeline.AnnotateAll: `main` updates each record object in place while iterating. The model rebuilds the map value by value, then assigns it to the `Harvest` field once. Aliasing between records does not arise in the source and is not modelled.
- Pipeline.FallbackDictionary: the substitute loop writes into `all_keywords`, which is known to be empty at that point. The model builds the map as a local value and assigns it to the field.
- Baidu and Bilibili suggestions are modelled as strings. The source appends whatever the parsed JSON lists hold; only Taobao's items are checked for being non-empty strings (`Pipeline.TaobaoItem`).
