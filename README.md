# AutoBuzz autopilot — a Dafny model

AutoBuzz posts to X and Threads on a user's behalf. Its "autopilot" runs once a minute and finds every schedule whose `"HH:MM"` time and frequency match the current Japan Standard Time. For each such user it does the following:

- It collects trends from Google Trends, RSS news feeds and X recent search. A source that fails is replaced by a fixed sample list.
- It merges the three lists, stable-sorts them by descending score, cuts the result to 30 items and extracts up to 10 keywords.
- For every genre of the user, and for each platform (`x`, then `threads`), it generates a post. The post comes from a language model, or from one of four fixed templates when no model key is configured.
- It saves the post as `pending` and publishes it when the user has linked an account with a token. The post then becomes `posted` or `draft`.

The model has one Dafny module per service file, plus one shared helper module:

| file | module | models |
|---|---|---|
| `text.dfy` | `Text` | Python's `s[:n]`, `sep.join`, `s.replace(' ', '')`, `s.strip()` and `dict.get`, each specified by what its result is |
| `buzz_collector.dfy` | `BuzzCollector` | trend aggregation (`backend/app/services/buzz_collector.py`) |
| `ai_generator.dfy` | `AiGenerator` | post generation (`backend/app/services/ai_generator.py`) |
| `sns_poster.dfy` | `SnsPoster` | publishing (`backend/app/services/sns_poster.py`) |
| `auto_scheduler.dfy` | `AutoScheduler` | orchestration and schedule matching (`backend/app/services/auto_scheduler.py`) |

Code that the source writes as loops is modelled as Dafny methods with loops, each proved equal to a specification function:

- the RSS feed walk;
- the Google rows loop;
- the two keyword loops;
- the template headline loops;
- the genre × platform loop;
- the schedule loop.

Properties are then proved about those specification functions. The post object whose `status` and `posted_at` are updated in place is the class `AutoScheduler.Post`. The HTTP client used by the publishers is the class `SnsPoster.Transport`. It logs every request and answers the n-th request through an oracle function. This lets the model state that no call is made when a result is mocked, and that exactly two calls are made when a Threads post succeeds.

Everything external is an input:

- pytrends, feedparser, httpx, tweepy and the OpenAI client;
- the database;
- the clock;
- `random.choice`.

Each source fetch is a value: what it produced, or that it failed. Collaborators called by the orchestrator are oracle functions. Each one is told which pass or pair it serves.

## Model

| member | source | states |
|---|---|---|
| Text.Take | backend/app/services/buzz_collector.py:134 | `s[:n]` has length min(\|s\|, n) and is a prefix of `s` |
| Text.Lookup | backend/app/services/auto_scheduler.py:87 | `dict.get(key)` is present exactly when the key is in the map, with that key's value |
| Text.JoinLength | backend/app/services/ai_generator.py:87 | the length of `sep.join(parts)` is the sum of the part lengths plus one separator between neighbours; joining nothing gives `""` |
| Text.JoinEnds | backend/app/services/ai_generator.py:87 | a join starts with its first part and ends with its last part |
| Text.RemoveSpaces | backend/app/services/ai_generator.py:137 | `kw.replace(' ', '')` has no space left, is no longer than `kw`, and keeps every other character with its multiplicity |
| Text.RemoveSpacesChar | backend/app/services/ai_generator.py:137 | on one character, a space is dropped and any other character is kept |
| Text.RemoveSpacesAppend | backend/app/services/ai_generator.py:137 | removing spaces from a concatenation removes them from each piece, so the kept characters stay in their original order |
| Text.Decimal | backend/app/services/ai_generator.py:42 | `str(n)` is a non-empty run of decimal digits, with no leading zero when n ≥ 10 |
| Text.DecimalReadsBack | backend/app/services/ai_generator.py:42 | the digits of `str(n)` denote n |
| Text.StripLeft | backend/app/services/ai_generator.py:56 | left strip is the suffix after a run of whitespace, and it does not start with whitespace |
| Text.StripRight | backend/app/services/ai_generator.py:56 | right strip is the prefix before a run of whitespace, and it does not end with whitespace |
| Text.StripEnds | backend/app/services/ai_generator.py:56 | a stripped answer is empty or neither starts nor ends with whitespace |
| Text.StripSlice | backend/app/services/ai_generator.py:56 | a stripped answer is a contiguous slice of the original answer |
| Text.StripIdempotent | backend/app/services/ai_generator.py:56 | stripping twice is stripping once |
| BuzzCollector.MockGoogleShape | backend/app/services/buzz_collector.py:165-172 | the Google fallback has 5 items, all from Google Trends, in descending score order |
| BuzzCollector.MockNewsShape | backend/app/services/buzz_collector.py:175-180 | the news fallback has 3 items, all news, each scoring 1.0 |
| BuzzCollector.MockBuzzShape | backend/app/services/buzz_collector.py:183-188 | the X fallback has 3 items, all from X, in descending score order |
| BuzzCollector.GoogleRanking | backend/app/services/buzz_collector.py:19-26 | the Google source keeps row order and takes at most `count` rows; scores `count - i` are at least 1 and strictly decrease with the index |
| BuzzCollector.CollectGoogleTrends | backend/app/services/buzz_collector.py:10-32 | the rows loop yields the specified item list, or the fallback list when the fetch failed |
| BuzzCollector.NewsItem | backend/app/services/buzz_collector.py:53-61 | a feed entry becomes a news item scoring 1.0 with the feed's category; its description is `summary`, else `description`, else `""`, cut to 200 characters |
| BuzzCollector.FeedContribution | backend/app/services/buzz_collector.py:50-63 | a feed adds at most 3 items: the items of its first 3 entries, or nothing when the feed failed |
| BuzzCollector.FeedItemsBounds | backend/app/services/buzz_collector.py:48-64 | the feed walk yields at most 3 items per feed; each is a news item with a description of at most 200 characters and the category of one of the feeds |
| BuzzCollector.FixedFeedsFitCap | backend/app/services/buzz_collector.py:38-64 | with the five fixed feeds, the cut to 15 items never removes anything |
| BuzzCollector.FeedItemsNext | backend/app/services/buzz_collector.py:50-63 | one more feed appends exactly that feed's contribution |
| BuzzCollector.FeedEntries | backend/app/services/buzz_collector.py:53-61 | the entry loop builds exactly the specified item list of those entries |
| BuzzCollector.FetchFeeds | backend/app/services/buzz_collector.py:48-63 | the feed loop builds the concatenation of every feed's contribution in feed order, skipping failed feeds |
| BuzzCollector.FetchAllFeeds | backend/app/services/buzz_collector.py:48-64 | the collected items cut to `max_items` |
| BuzzCollector.CollectRssNews | backend/app/services/buzz_collector.py:36-69 | without the feed parser, the news fallback list; otherwise the cut feed items, at most `max_items`, each a news item with a description of at most 200 characters |
| BuzzCollector.CalcScore | backend/app/services/buzz_collector.py:157-161 | the engagement score of a tweet's metrics; its weights are stated by CalcScoreWeights |
| BuzzCollector.CalcScoreWeights | backend/app/services/buzz_collector.py:157-161 | no metrics score 0; one more like adds 1, one more retweet adds 2, one more reply adds 0.5; any other metric is ignored |
| BuzzCollector.BuildQuery | backend/app/services/buzz_collector.py:78-79 | the search query; its shape is stated by BuildQueryShape and DefaultQuery |
| BuzzCollector.BuildQueryShape | backend/app/services/buzz_collector.py:78-79 | the query ends with `" lang:ja -is:retweet"` and starts with the first given keyword |
| BuzzCollector.DefaultQuery | backend/app/services/buzz_collector.py:78-79 | with no keywords, or an empty list, the query is `"話題 OR バズ lang:ja -is:retweet"` |
| BuzzCollector.TweetItem | backend/app/services/buzz_collector.py:94-103 | a tweet becomes an X item whose description is its text, whose title is that text cut to 60 characters, and whose score is the engagement score of its metrics |
| BuzzCollector.CollectBuzzFromX | backend/app/services/buzz_collector.py:73-106 | no bearer token gives the fallback list and no request; otherwise exactly one request with the built query and 10 results; a failed request gives the fallback list, and a successful one gives one item per tweet |
| BuzzCollector.InsertPos | backend/app/services/buzz_collector.py:128 | the insertion point lies within the list |
| BuzzCollector.InsertByScore | backend/app/services/buzz_collector.py:128 | one step of the stable descending sort; stated by InsertByScoreShape, InsertByScoreSorted, InsertByScorePermutes and InsertByScoreStable |
| BuzzCollector.InsertByScoreShape | backend/app/services/buzz_collector.py:128 | inserting splices the item in at its insertion point |
| BuzzCollector.InsertPosBounds | backend/app/services/buzz_collector.py:128 | the items before the insertion point score strictly more; the item after it scores no more |
| BuzzCollector.WithScoreAppend | backend/app/services/buzz_collector.py:128 | the items of one score in a concatenation are those of each half, in order |
| BuzzCollector.SortedSplice | backend/app/services/buzz_collector.py:128 | splicing an item between higher and no-higher scores keeps the list descending |
| BuzzCollector.MultisetSplice | backend/app/services/buzz_collector.py:128 | a splice adds exactly that one item |
| BuzzCollector.InsertByScoreSorted | backend/app/services/buzz_collector.py:128 | inserting into a descending list keeps it descending |
| BuzzCollector.InsertByScorePermutes | backend/app/services/buzz_collector.py:128 | inserting adds exactly the inserted item |
| BuzzCollector.WithScoreSingle | backend/app/services/buzz_collector.py:128 | a one-item list has that item among score k exactly when it scores k |
| BuzzCollector.WithScoreSplice | backend/app/services/buzz_collector.py:128 | inserting below every equal score puts the new item first among its score, and the other items of that score keep their order |
| BuzzCollector.InsertByScoreStable | backend/app/services/buzz_collector.py:128 | insertion places the new item ahead of the earlier-inserted items of equal score, which keep their order |
| BuzzCollector.WithScoreNone | backend/app/services/buzz_collector.py:128 | a list without score k has no items of score k |
| BuzzCollector.SortByScore | backend/app/services/buzz_collector.py:128 | `sort(key=score, reverse=True)`; stated by SortByScoreSorted, SortByScorePermutes and SortByScoreStable |
| BuzzCollector.SortByScoreSorted | backend/app/services/buzz_collector.py:128 | the sort of the merged list is descending by score |
| BuzzCollector.SortByScorePermutes | backend/app/services/buzz_collector.py:128 | the sort is a permutation of its input |
| BuzzCollector.SortByScoreStable | backend/app/services/buzz_collector.py:128 | the sort is stable: for every score, the items with that score keep their input order |
| BuzzCollector.SortByScoreCorrect | backend/app/services/buzz_collector.py:128 | descending, a permutation, and stable, together |
| BuzzCollector.CandidatesMembers | backend/app/services/buzz_collector.py:141-145 | a string is a keyword candidate exactly when it is the title of some item and is longer than one character |
| BuzzCollector.FirstIndex | backend/app/services/buzz_collector.py:147-152 | the first occurrence of a string holds it and has no earlier occurrence |
| BuzzCollector.DedupFacts | backend/app/services/buzz_collector.py:147-152 | de-duplication keeps exactly the strings not yet seen, each once, ordered by their first occurrence |
| BuzzCollector.Keywords | backend/app/services/buzz_collector.py:139-153 | the keyword list `_extract_keywords` returns; stated by KeywordsFacts |
| BuzzCollector.KeywordsFacts | backend/app/services/buzz_collector.py:139-153 | at most `top_n` keywords, no duplicates, each a title longer than one character, in first-seen order; when fewer than `top_n` come out, every qualifying title is among them |
| BuzzCollector.CollectCandidates | backend/app/services/buzz_collector.py:141-145 | the candidate loop builds the titles longer than one character, in item order |
| BuzzCollector.DropRepeats | backend/app/services/buzz_collector.py:147-152 | the `seen`-set loop yields the de-duplicated candidates |
| BuzzCollector.ExtractKeywords | backend/app/services/buzz_collector.py:139-153 | the two loops and the `top_n` cut yield the specified keyword list |
| BuzzCollector.Resolve | backend/app/services/buzz_collector.py:119-125 | a source that raised is replaced by its fallback list; a returned list is kept as it is |
| BuzzCollector.SortedTake | backend/app/services/buzz_collector.py:134 | cutting a descending list keeps it descending, keeps a sub-multiset, and whatever is cut off scores no higher than anything kept |
| BuzzCollector.SortedCutFacts | backend/app/services/buzz_collector.py:127-134 | the `all` list is descending, has min(30, merged length) items drawn from the merged list, and no merged item left out scores above one kept |
| BuzzCollector.MergedKeywordTitles | backend/app/services/buzz_collector.py:127-135 | every top keyword is the title, longer than one character, of some merged item |
| BuzzCollector.MergedBundleFacts | backend/app/services/buzz_collector.py:127-135 | for any three source lists, the bundle built from their merge has a well-formed `all` cut and `top_keywords` |
| BuzzCollector.MergeTrends | backend/app/services/buzz_collector.py:119-136 | sources that raised become their fallbacks; the source lists are returned unchanged; `all` is the first 30 of the stable descending sort of their concatenation; `top_keywords` comes from the whole sorted list, not the cut |
| BuzzCollector.CollectAllTrends | backend/app/services/buzz_collector.py:110-136 | one aggregation with the defaults (20 trends, 15 news items, 10 search results) yields each source's list and the merged, well-formed bundle |
| AiGenerator.GenreOr | backend/app/services/ai_generator.py:62 | `genre or 'テクノロジー'` is never empty; it is the genre when that is set and non-empty, and `テクノロジー` when the genre is None or empty |
| AiGenerator.Snippets | backend/app/services/ai_generator.py:81 | one snippet per post: the prefix of its description of length min(80, its length), so the whole description when it is short enough |
| AiGenerator.ContextSectionCaps | backend/app/services/ai_generator.py:66-82 | at most four sections; the Google section holds a prefix of at most 8 titles, the news section a prefix of at most 5 headlines, and the X section at most 3 descriptions, each cut to 80 characters |
| AiGenerator.ContextSectionOrder | backend/app/services/ai_generator.py:64-85 | the Google section comes first exactly when there are Google items; the genre line is last when a genre is set and absent otherwise |
| AiGenerator.BuildTrendContext | backend/app/services/ai_generator.py:58-87 | the prompt context; stated by ContextSectionCaps, ContextSectionOrder, ContextFallbacks and ContextJoined |
| AiGenerator.ContextFallbacks | backend/app/services/ai_generator.py:59-87 | without trend data the context is `"ジャンル: <genre or default>（トレンドデータなし）"`; with trend data but no sections it is `"ジャンル: テクノロジー"` |
| AiGenerator.ContextJoined | backend/app/services/ai_generator.py:84-87 | the joined context starts with the first section and, when a genre is set, ends with the genre line |
| AiGenerator.LengthRuleText | backend/app/services/ai_generator.py:27-42 | the prompt's rule line reads `- 280文字以内` for `x` and `- 500文字以内` for any other platform |
| AiGenerator.GenerationRequest | backend/app/services/ai_generator.py:32-54 | the completion request (model, prompts, 400 tokens, temperature 0.9); stated by GenerationRequestMentions |
| AiGenerator.GenerationRequestMentions | backend/app/services/ai_generator.py:32-54 | the system prompt contains the trend context and the length rule, and the request asks for 400 tokens |
| AiGenerator.TemplateKeywords | backend/app/services/ai_generator.py:101-114 | template keywords are never empty and at most 5: the first 5 top keywords, or `[genre or default]` when there are none |
| AiGenerator.NonEmptyTitlesMembers | backend/app/services/ai_generator.py:104-110 | the headlines taken from a list are exactly its non-empty titles |
| AiGenerator.EndsWithTagLine | backend/app/services/ai_generator.py:130-137 | a body followed by a blank line and the tag line ends with that tag line, and the tag line is the last line |
| AiGenerator.TagTailUnbroken | backend/app/services/ai_generator.py:128-175 | the fixed hashtags of each template contain no line break |
| AiGenerator.HashtagUnbroken | backend/app/services/ai_generator.py:137 | a keyword hashtag has no line break when the keyword has none |
| AiGenerator.TemplateEnding | backend/app/services/ai_generator.py:128-175 | every template ends with a blank line and `"#"` + the first keyword without spaces + that template's fixed hashtags; this is the last line when the keyword has no line break |
| AiGenerator.TagTailShape | backend/app/services/ai_generator.py:128-175 | the fixed hashtags start with `" #"` followed by a tag character |
| AiGenerator.TemplateHasHashtag | backend/app/services/ai_generator.py:128-175 | every template is non-empty and ends with its fixed hashtags |
| AiGenerator.OpinionQuotesHeadline | backend/app/services/ai_generator.py:141-151 | the opinion template opens by quoting the first headline cut to 40 characters, or `"<keyword>の最新動向"` when there is none |
| AiGenerator.TemplateBody | backend/app/services/ai_generator.py:128-175 | the four template texts before their hashtag line; stated by OpinionQuotesHeadline and TemplateHasHashtag |
| AiGenerator.RenderTemplate | backend/app/services/ai_generator.py:117-175 | the chosen template's full text; stated by TemplateEnding, TemplateHasHashtag and OpinionQuotesHeadline |
| AiGenerator.TemplateGenerate | backend/app/services/ai_generator.py:90-125 | the keyword and headline loops and the chosen template yield the specified rendering |
| AiGenerator.GeneratePostContent | backend/app/services/ai_generator.py:11-56 | without an API key or client library, the template text, which is non-empty, with no request and no error; otherwise exactly one request built from the trend context: a failed call raises its error, a message without content raises the `.strip()` error on None, and otherwise the post is the stripped content |
| SnsPoster.Transport.constructor | backend/app/services/sns_poster.py:82 | a new client has made no request |
| SnsPoster.Transport.Send | backend/app/services/sns_poster.py:84-104 | a request is appended to the log and answered by the oracle for its position |
| SnsPoster.Mock | backend/app/services/sns_poster.py:25-79 | a mock result has `mock=True`, `status="posted"`, the platform and the message |
| SnsPoster.XMockMessage | backend/app/services/sns_poster.py:25-38 | the X guards run in order (app keys, then token, then secret) and the first missing credential decides the mock message; there is no mock exactly when all four are present |
| SnsPoster.XAttempt | backend/app/services/sns_poster.py:50-67 | a reply with a tweet id gives `mock=False`, the id and its status URL; a rejected call raises "X投稿失敗", any other error raises "X投稿エラー" |
| SnsPoster.XExchange | backend/app/services/sns_poster.py:14-67 | the calls and outcome of `post_to_x`; stated by XExchangeFacts |
| SnsPoster.XExchangeFacts | backend/app/services/sns_poster.py:14-67 | no call is made exactly when a guard fails; the result is a mock exactly then; otherwise exactly one create-tweet call, whose reply decides the outcome |
| SnsPoster.PostToX | backend/app/services/sns_poster.py:14-67 | the log grows by exactly the specified calls and the outcome is the specified one |
| SnsPoster.ThreadsMockMessage | backend/app/services/sns_poster.py:76-79 | Threads mocks exactly when the token is empty |
| SnsPoster.ThreadsFailure | backend/app/services/sns_poster.py:108-113 | a failed Threads call always raises: "Threads投稿失敗" with the response text for an HTTP error, "Threads投稿エラー" otherwise |
| SnsPoster.ThreadsPosted | backend/app/services/sns_poster.py:104-106 | the publish response is merged, then `mock=False`, `status="posted"`, `platform="threads"` override it |
| SnsPoster.ThreadsExchange | backend/app/services/sns_poster.py:70-113 | the calls and outcome of `post_to_threads`; stated by ThreadsExchangeFacts |
| SnsPoster.ThreadsExchangeFacts | backend/app/services/sns_poster.py:70-113 | no call exactly when the token is empty; otherwise create first; a success is non-mock after exactly two calls, and publish carries the create reply's `id`; a failed create stops after one call and raises |
| SnsPoster.PostToThreads | backend/app/services/sns_poster.py:70-113 | the log grows by exactly the specified calls and the outcome is the specified one |
| AutoScheduler.Post.constructor | backend/app/services/auto_scheduler.py:76-84 | a new post is `pending` with no posting time |
| AutoScheduler.Post.Settle | backend/app/services/auto_scheduler.py:115-121 | a published post becomes `posted` with the posting time; otherwise it becomes `draft`; nothing else changes |
| AutoScheduler.Passes | backend/app/services/auto_scheduler.py:44-46 | no genre gives exactly one pass; otherwise one pass per genre |
| AutoScheduler.KeywordsArg | backend/app/services/auto_scheduler.py:54-58 | `keywords or None`: none exactly when the list is empty, otherwise the list itself |
| AutoScheduler.PublishFor | backend/app/services/auto_scheduler.py:87-103 | a publisher is called exactly when an account with a non-empty token exists; X gets the token and the secret or `""`, Threads the token |
| AutoScheduler.PairStepDecision | backend/app/services/auto_scheduler.py:63-138 | an entry is an error exactly when generation or saving raised, carrying that step's error text, with no post row and no publish call; otherwise it carries the post id and the first 80 characters, and it is `posted` exactly when an account with a token exists and the publisher returned a non-mock result, `draft` otherwise; the post row agrees with the entry |
| AutoScheduler.PairStep | backend/app/services/auto_scheduler.py:64-138 | what one (genre, platform) pair contributes; stated by PairStepDecision |
| AutoScheduler.RunPair | backend/app/services/auto_scheduler.py:64-138 | one pair yields the specified entry, post row and publish call |
| AutoScheduler.PassSteps | backend/app/services/auto_scheduler.py:63 | a pass over the first p platforms yields p steps |
| AutoScheduler.PassStepsLayout | backend/app/services/auto_scheduler.py:63 | the j-th step of a pass is the pair of the j-th platform |
| AutoScheduler.Steps | backend/app/services/auto_scheduler.py:52-63 | n passes yield 2·n steps |
| AutoScheduler.StepsNext | backend/app/services/auto_scheduler.py:52-63 | one more genre appends exactly its pass |
| AutoScheduler.StepAt | backend/app/services/auto_scheduler.py:52-63 | step k is the pair of genre k / 2 and platform k % 2, run with that genre's trend bundle |
| AutoScheduler.RunSteps | backend/app/services/auto_scheduler.py:52-138 | every pair of an enabled user's run; its layout is stated by StepsLayout and StepsLabels |
| AutoScheduler.StepsLayout | backend/app/services/auto_scheduler.py:52-63 | all steps, genre-major, each with its genre's trend bundle |
| AutoScheduler.ResultsOf | backend/app/services/auto_scheduler.py:123-138 | one result entry per pair |
| AutoScheduler.PostsOf | backend/app/services/auto_scheduler.py:76-82 | at most one post row per pair; a row is stored exactly when some pair saved it |
| AutoScheduler.CallsOf | backend/app/services/auto_scheduler.py:93-103 | at most one publisher call per pair; a call is made exactly when some pair made it |
| AutoScheduler.TrendRequests | backend/app/services/auto_scheduler.py:56-61 | trends are requested exactly once per pass, with `keywords or None` |
| AutoScheduler.StepsLabels | backend/app/services/auto_scheduler.py:52-63 | exactly two entries per pass; the entry at k has platform `x` for even k and `threads` for odd k, and genre k / 2 |
| AutoScheduler.AutopilotRun | backend/app/services/auto_scheduler.py:26-142 | what `run_autopilot_for_user` produces; stated by AutopilotShape and AutopilotEntries |
| AutoScheduler.AutopilotShape | backend/app/services/auto_scheduler.py:26-142 | a missing user, or one with autopilot disabled, gives an empty run with no error; otherwise one trend request per pass (one with no keywords when there is no genre), every pair's publisher call is made, and the final commit decides the rest: when it raises, no entry is returned and no post is stored; otherwise max(1, genres)·2 entries in genre-major order, `x` before `threads` |
| AutoScheduler.AutopilotEntries | backend/app/services/auto_scheduler.py:52-138 | every returned entry is the decision for its own (genre, platform) pair, made from what the collaborators answered for that pair |
| AutoScheduler.RunPass | backend/app/services/auto_scheduler.py:63-138 | the platform loop yields the specified steps of one pass |
| AutoScheduler.RunAutopilotForUser | backend/app/services/auto_scheduler.py:26-142 | the nested loops and the final commit yield the specified run: entries, post rows, trend requests, publisher calls and the commit error |
| AutoScheduler.JstSecondOfDay | backend/app/services/auto_scheduler.py:152 | the JST second of the day lies within one day |
| AutoScheduler.JstWeekday | backend/app/services/auto_scheduler.py:154 | the JST weekday lies in 0..6 |
| AutoScheduler.TwoDigits | backend/app/services/auto_scheduler.py:153 | a two-digit field is two decimal digits |
| AutoScheduler.TwoDigitsValue | backend/app/services/auto_scheduler.py:153 | a two-digit field reads back as its number |
| AutoScheduler.HoursAndMinutes | backend/app/services/auto_scheduler.py:153 | the hour and minute fields agree with whole minutes of the day |
| AutoScheduler.JstClock | backend/app/services/auto_scheduler.py:152-153 | `now_jst.strftime("%H:%M")`; stated by JstClockReadsBack and JstClockSameMinute |
| AutoScheduler.JstClockReadsBack | backend/app/services/auto_scheduler.py:152-153 | `"%H:%M"` has the form `HH:MM` and reads back as the JST minute of the day |
| AutoScheduler.JstClockSameMinute | backend/app/services/auto_scheduler.py:152-153 | two instants give the same clock text exactly when they fall in the same JST minute of the day |
| AutoScheduler.JstWeekdayNextDay | backend/app/services/auto_scheduler.py:154 | one day later is the next weekday, cyclically |
| AutoScheduler.Fires | backend/app/services/auto_scheduler.py:171-179 | the time and frequency filter; stated by FiringMembers and FiresOnlyAtClock |
| AutoScheduler.ScheduledRuns | backend/app/services/auto_scheduler.py:167-187 | the run log of `check_and_run_scheduled`, one run per firing row, so a user with two rows firing in the same minute runs twice; stated by FailureIsolation and FiringMembers |
| AutoScheduler.FiringMembers | backend/app/services/auto_scheduler.py:167-179 | a user runs exactly when one of their schedule rows has the current time and passes the weekday/weekend rule |
| AutoScheduler.Record | backend/app/services/auto_scheduler.py:183-187 | a run is logged for its user, as a success exactly when it did not raise |
| AutoScheduler.FailureIsolation | backend/app/services/auto_scheduler.py:183-187 | which users run does not depend on whether earlier runs raised |
| AutoScheduler.FiresOnlyAtClock | backend/app/services/auto_scheduler.py:171-179 | a firing schedule's time is the JST minute of now; `weekdays` fires only on weekdays 0..4 and `weekends` only on 5..6 |
| AutoScheduler.CheckAndRunScheduled | backend/app/services/auto_scheduler.py:145-187 | the schedule loop runs the matching users in row order and logs each run, continuing after a failed one |

## Left out

- Network and libraries: pytrends, feedparser, httpx, tweepy and the OpenAI client are not modelled. Their results are inputs: a fetch outcome, a feed oracle, a search oracle, the completion function, and the `Transport` oracle.
- Concurrency: `asyncio.gather`, `asyncio.to_thread` and the once-a-minute background loop are not modelled. The three sources are evaluated one after another, which gives the same result because they are independent.
- Logging: every `logger` call is left out. It has no effect on results.
- Database: each pair's session work before publishing (the `GeneratedPost` row, the pending post, `flush` and `refresh`) is one oracle, `persist(k, platform, content)`. It yields the post id or the text of the exception it raised. The final `commit` is a second oracle, `commit(rows)`. The model does not tie the pairs' `persist` answers to each other. In the source, a failed flush leaves the session needing a rollback, so later flushes and the commit fail too. In the model, the per-pair oracle can only express that by answering each later pair with a failure.
- User lookup: the user, genre and account queries are inputs. A genre's `keywords` arrives already decoded as a list. In the source, `keywords_list` decodes a JSON text, and malformed JSON raises outside the per-pair `try` (`hasattr` swallows only `AttributeError`), aborting the whole run. The model does not capture that failure.
- Schedule query: the join query of `check_and_run_scheduled` is its result rows. The `auto_post_enabled` filter is therefore assumed to be applied by whoever supplies them.
- Per-user autopilot run: `CheckAndRunScheduled` calls it through the oracle `runUser`, which is not wired to `RunAutopilotForUser`. The oracle is keyed by the run's position as well as the user id, so repeated runs of one user can have different outcomes. The same holds for the collaborators of `RunAutopilotForUser`: they are oracles, not the other modules' methods.
- Clock: `datetime.now` is the parameter `now` (the posting time) and `unixSeconds` (the scheduler's clock). The source reads the clock again for every posted pair. The model stamps every post of one run with the same `now`.
- Randomness: `random.choice` over the four templates is the parameter `choice` (0..3).
- Scores: Python floats are exact reals. This covers `float(count - i)`, the news score 1.0 and `likes * 1.0 + retweets * 2.0 + replies * 0.5`. Float rounding of counts above 2^53 is not modelled.
- Result values: the JSON values of result dictionaries and API responses are simplified to strings.
- Exceptions: exception texts are abstracted. A rejected HTTP call carries its response text and any other failure carries its message.
- Python objects: `Post` objects are returned as `PostRow` values.
- AutoScheduler.PairStepDecision: it does not model a platform other than `x` or `threads`. The source's `result` would then be unbound, but `PLATFORMS` makes that unreachable.
- SnsPoster.PostToX: it does not model tweepy failing to import. The `except tweepy.TweepyException` clause would then raise `UnboundLocalError` instead of `RuntimeError`.
- SnsPoster.PostToThreads: a create reply without `id` gives a publish call with `creation_id` absent (`None`). The model records that call; the oracle answers it.
- BuzzCollector.CollectAllTrends: the comment on buzz_collector.py:119 says a failed source becomes an empty list. The code substitutes the source's fallback sample list instead, and the model follows the code.
- AiGenerator.BuildTrendContext: it has no loop in the source (list comprehensions and conditional appends), so it is a function, not a method.
- BuzzCollector.FeedContribution: a feed either yields all of its first three entries or fails as a whole. In the source the appends run inside the per-feed `try`, so an entry that raises part-way (for example a `summary` whose value is None) keeps the entries already appended. The model does not capture such a partially read feed.
