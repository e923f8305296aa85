# newsstream broadcast pipeline — a Dafny model

`newsstream.py` runs a looping news channel. At start-up it produces a set of
video clips and puts them in a shared list, `looping_tts_clips`:

- an intro clip;
- one clip per cryptocurrency market report;
- one clip per news article, narrating an LLM summary of the article.

An HTTP handler then serves the list as a ring. Each request pops the head
clip, appends it back at the tail and sends it.

This project models the logic of that pipeline once the network, the
text-to-speech engine, ffmpeg and the file system are taken away. It has
one module per concern:

- `Text` (`text.dfy`) — the Python string methods used: `strip()`
  (`Strip`), `upper()` (`Upper`) and one-character `replace` (`Replace`).
- `Format` (`format.dfy`) — `f"{x:.2f}"` (`Fixed2`), `f"{x:,.2f}"`
  (`Money`) and `str(i)` (`IntToString`). Amounts are integer hundredths.
  Each format is paired with a reading `SignedValue` that gets the amount
  back from the text.
- `Metrics` (`metrics.dfy`) — the market report of `fetch_coin_metrics`:
  - the fields read with their defaults (`Read`);
  - the sentence narrated (`Sentence`, `MetricText`);
  - the loop over `COINS` (`FetchCoinMetrics`, specified by `CoinReports`).
- `Enrichment` (`enrichment.dfy`) — `generate_response`, the failover loop
  over `LLM_API_URLS`:
  - `Failover` is the recursive reference;
  - `GenerateResponse` is the loop, proved equal to `Failover`;
  - what each endpoint does is an input (`Attempt`).
- `LoopQueue` (`loop_queue.dfy`) — the clip ring:
  - `Rotate` and `RotateN` on sequences;
  - the class `ClipQueue` with `Append`, and `Pull` modelling `do_GET`;
  - `ServeRequests`, a run of requests;
  - `Run`, any interleaving of producer appends and handler pulls.
- `Producer` (`producer.dfy`) — `pre_generate_tts_clips`:
  - `ProcessAll` is the article loop as a function over a `Run`: the store
    `previous_analyzed_articles`, its last saved copy, the clips produced and
    the URLs sent to the LLM;
  - the class `AnalysisStore` is the store and its file;
  - the method `PreGenerate` does the whole start-up pass. It is proved to end
    in the state `ProcessAll` gives, with the producer appending `InitialFill`
    in order. Requests served meanwhile rotate the queue; `FillUnderPulls`
    states what then still holds.

Inputs the model takes as parameters:

- the HTTP answers of the market-data provider (`fetch`);
- the news provider's article list (`articles`);
- the outcome of every LLM endpoint for every article (`llm`);
- the sentiment scorer (`polarity`);
- Python's string hash (`hash`).

Two behaviours of the code are easy to miss, and the model follows the code
in both:

- `generate_visuals_with_audio` swallows ffmpeg's `CalledProcessError`
  (newsstream.py:178-179), and the caller appends the clip path right after
  the call (newsstream.py:209-210, 257-258). So a clip whose rendering failed
  because ffmpeg exited non-zero is queued all the same, not skipped. In the
  model, every clip handed to the renderer is queued.
- `load_analyzed_articles` catches only `FileNotFoundError`
  (newsstream.py:55-59). So a corrupt file stops the program instead of
  falling back to an empty store. In the model, `AnalysisStore.Load` takes
  either a parsed file or no file, and the corrupt case is not modelled.

## Model

| member | source | states |
|---|---|---|
| Text.Strip | newsstream.py:140 | reference definition of `strip()`: cut the leading, then the trailing run of white space; its properties are stated by the `Strip…` lemmas below |
| Text.StripLeavesNoEdgeSpace | newsstream.py:140 | the stripped reply neither starts nor ends with white space |
| Text.StripIsInfix | newsstream.py:140 | the stripped text is the infix of the input that starts right after the leading run of white space |
| Text.StripCutsOnlySpace | newsstream.py:140 | the stripped text lies inside the input, and everything cut before and after it is white space |
| Text.StripAllSpace | newsstream.py:140 | stripping gives "" exactly when the text is all white space, so a blank "content" becomes the empty reply |
| Text.StripIdempotent | newsstream.py:140 | stripping twice gives what stripping once gives |
| Text.StripKeepsTrimmed | newsstream.py:140 | a text with no white space at either end comes back unchanged |
| Text.Upper | newsstream.py:97 | `upper()` keeps the length, maps each character by itself, and leaves no lower-case ASCII letter |
| Text.Replace | newsstream.py:251 | `replace('/', '_')` keeps the length, changes exactly the occurrences of the target, and leaves none of them |
| Format.IntToString | newsstream.py:208 | reference definition of `str(i)`: a minus sign for a negative value, then the decimal digits; stated by `IntToStringValue`, `DigitsValue` and `DigitsNoLeadingZero` |
| Format.DigitsValue | newsstream.py:208 | the decimal digits of a number read back as that number, and every character is a digit |
| Format.IntToStringValue | newsstream.py:208 | `str(i)` reads back as `i`, with a minus sign for negative values |
| Format.DigitsNoLeadingZero | newsstream.py:208 | the decimal digits of a number start with '0' only when the number is 0 |
| Format.Grouped | newsstream.py:108 | reference definition of the `,` option on a whole number: groups of three digits from the right, separated by commas; stated by `GroupedValue` and `GroupedShape` |
| Format.GroupedValue | newsstream.py:108 | the comma-grouped digits of `n` read back as `n` |
| Format.WellGrouped | newsstream.py:108 | reference definition of the `,` option's shape: one to three digits, then groups of a comma and exactly three digits; stated of `Grouped` by `GroupedShape` |
| Format.GroupedShape | newsstream.py:108 | the comma-grouped digits have that shape (a first group of one to three digits, each comma followed by exactly three digits), and start with '0' only for 0 |
| Format.Fixed2 | newsstream.py:109-110 | reference definition of `:.2f` on a non-negative amount of hundredths; stated by `Fixed2Value` |
| Format.Fixed2Value | newsstream.py:109-110 | `:.2f` of a magnitude is digits only (no sign, no commas) up to a point and two decimals, has a leading zero only for a whole part of 0, and reads back as the amount |
| Format.AmountValue | newsstream.py:108 | the unsigned part of `:,.2f` is comma-grouped digits in the `WellGrouped` shape, with a leading zero only for a whole part of 0, then a point and two decimals, and reads back as the amount |
| Format.Money | newsstream.py:108-112 | reference definition of `:,.2f` on an amount of hundredths; stated by `MoneyValue` and `AmountValue` |
| Format.MoneyValue | newsstream.py:108 | `:,.2f` ends in two decimals, starts with a minus sign exactly when the amount is negative, and reads back as the amount |
| Metrics.Usd | newsstream.py:99-105 | reference definition of `.get(table, {}).get("usd", 0)`; stated by `NestedTablesDefault` |
| Metrics.Read | newsstream.py:96-105 | reference definition of reading a provider record with its defaults; its properties are stated by `MissingFieldsDefault`, `NestedTablesDefault` and `EmptyRecordNarrated` |
| Metrics.MissingFieldsDefault | newsstream.py:96-105 | a missing name is "Unknown" and a present one is taken as it is; a missing symbol gives "UNKNOWN" (the default upper-cased) and a present one is upper-cased; missing market data gives 0 for every amount; inside it, a missing 24-hour or 7-day change is 0 and a present one is taken as it is |
| Metrics.NestedTablesDefault | newsstream.py:99-105 | inside a present `market_data`, a missing price table (current price, day high, day low, market cap, volume) or one without a "usd" entry reads as 0, and otherwise its "usd" entry is taken |
| Metrics.Sentence | newsstream.py:107-113 | reference definition of the sentence built from the read values; its properties are stated by `TrendWordFollowsSign`, `DailySignOnlyPicksWord`, `WeeklySignDropped` and `CapAndVolumeNotNarrated` |
| Metrics.MetricText | newsstream.py:96-113 | reference definition of one coin's narration: the sentence of the read record; stated by `FallOfThreeFiftyNarrated` and `EmptyRecordNarrated` |
| Metrics.TrendWordFollowsSign | newsstream.py:109 | right after the opening, the sentence says "up " exactly when the 24-hour change is not negative, and "down " exactly when it is negative |
| Metrics.DailySignOnlyPicksWord | newsstream.py:109 | a rise and a fall of the same size give sentences equal except for "up"/"down", so the 24-hour figure is printed as a magnitude |
| Metrics.WeeklySignDropped | newsstream.py:110 | the sentence is the same for a weekly change and its negation, so the weekly figure carries no sign and no qualifier |
| Metrics.CapAndVolumeNotNarrated | newsstream.py:102-112 | market cap and volume are read but do not affect the sentence, since their clause is commented out |
| Metrics.FallOfThreeFiftyNarrated | newsstream.py:100-109 | a 24-hour change of -3.50 % is narrated as "down 3.50%" right after the opening |
| Metrics.EmptyRecordNarrated | newsstream.py:96-113 | an empty provider record reads as name "Unknown", symbol "UNKNOWN" and every amount 0, and 0 prints as "0.00" in both formats |
| Metrics.CoinReports | newsstream.py:86-119 | reference definition of the report list: the narration of each coin of `COINS`, in order; stated by `PerCoinInOrder` and `FetchCoinMetrics` |
| Metrics.PerCoinInOrder | newsstream.py:86-114 | the report list has one entry per coin, and entry `i` is the report for coin `i` |
| Metrics.FetchCoinMetrics | newsstream.py:86-119 | the loop's result is the reference report list `CoinReports`: the sentence for each coin of `COINS`, in order |
| Enrichment.ReplyOf | newsstream.py:140 | reference definition of the reply of an answering endpoint: None for a falsy body, else the stripped "content" (default ""); stated by `BlankContentIsFalsy` |
| Enrichment.Truthy | newsstream.py:231 | reference definition of `if llm_response:` on a reply: present and not empty; used by `ArticleStep`, `RecordArticle` and `SavedOnlyOnTruthyReply` |
| Enrichment.Failover | newsstream.py:136-144 | reference definition of the failover policy; its properties are stated by `FailoverStopsAtFirstAnswer`, `AllDownGivesNone`, `SecondaryAnswers`, `ConfiguredEndpointsInOrder`, and `GenerateResponse` is proved equal to it |
| Enrichment.FirstAnswer | newsstream.py:136-140 | the position found is the first endpoint that answers: every endpoint before it raised, and it answered unless all raised |
| Enrichment.FailoverStopsAtFirstAnswer | newsstream.py:136-144 | exactly the endpoints before the first answer are logged, in order; the first answer decides the reply and is the last endpoint tried; if none answers, all are tried and the reply is None |
| Enrichment.ConfiguredEndpointsInOrder | newsstream.py:27-144 | with the two configured endpoints, the logged failures are a prefix of `LLM_API_URLS` in list order, and at most one more endpoint is tried, the one that answered |
| Enrichment.AllDownGivesNone | newsstream.py:141-144 | when every endpoint raises, the reply is None and one error is logged per endpoint |
| Enrichment.SecondaryAnswers | newsstream.py:136-143 | a failing primary followed by an answering secondary gives the secondary's reply, with one logged error and two endpoints tried |
| Enrichment.BlankContentIsFalsy | newsstream.py:140 | an answer whose content is missing or only white space gives the empty reply, which is falsy |
| Enrichment.GenerateResponse | newsstream.py:127-144 | the loop with its early return gives the reference `Failover` result: failures before the answer logged in order, the answering endpoint's stripped reply, or None with every endpoint tried |
| LoopQueue.Rotate | newsstream.py:269-270 | reference definition of one pull on the list: tail, then the old head; stated by `RotateKeepsClips`, `KthPullServes`, `FullCycleRestores` and `ClipQueue.Pull` |
| LoopQueue.RotateN | newsstream.py:269-270 | reference definition of the queue after `n` pulls with no append; stated by `KthPullServes`, `FullCycleRestores` and `ServeRequests` |
| LoopQueue.Served | newsstream.py:268-275 | reference definition of the clips the first `n` pulls answer, in order; stated by `ServedInRoundRobin`, `CyclesServeEachClipEqually` and `ServeRequests` |
| LoopQueue.RotateKeepsClips | newsstream.py:269-270 | a pull keeps the multiset of clips |
| LoopQueue.KthPullServes | newsstream.py:269-270 | on a queue of `m` clips, after `k` pulls with no append the head (the clip the next pull serves) is `q[k mod m]`, and the length is unchanged |
| LoopQueue.FullCycleRestores | newsstream.py:269-270 | as many pulls as the queue has clips give back the original queue |
| LoopQueue.ServedInRoundRobin | newsstream.py:268-275 | on a queue of `m` clips, `n` pulls serve `n` clips, the `k`-th being `q[k mod m]` |
| LoopQueue.CyclesServeEachClipEqually | newsstream.py:268-275 | `c` full cycles serve exactly `c` copies of the queue, in queue order |
| LoopQueue.Run | newsstream.py:258-270 | reference definition of the queue after a run of producer appends and handler pulls, each one atomic step; stated by `InterleavingLosesNothing` |
| LoopQueue.AppendInsidePullIsAtomic | newsstream.py:269-270 | a producer append that lands between `pop(0)` and `append(head)` leaves the queue as the append followed by a whole pull would, so one request may be taken as one step |
| LoopQueue.InterleavingLosesNothing | newsstream.py:258-270 | under any interleaving of appends and pulls, the queue's length and multiset are the original clips plus the appended ones |
| LoopQueue.ClipQueue.constructor | newsstream.py:46 | `looping_tts_clips = []`: the queue starts empty |
| LoopQueue.ClipQueue.Append | newsstream.py:258 | the path is added at the tail and nothing else changes |
| LoopQueue.ClipQueue.Pull | newsstream.py:266-278 | on a non-empty queue: status 200, the old head is returned, and the queue becomes tail + [head]; on an empty queue: status 204, no clip, the queue unchanged |
| LoopQueue.ServeRequests | newsstream.py:266-278 | `n` requests leave the queue rotated `n` times and answer the clips in round-robin order, or no content every time on an empty queue |
| Producer.ArticleText | newsstream.py:222 | reference definition of the description with a missing one read as ""; used by `FirstSightingDecides` and `AllEndpointsDownFallsBack` |
| Producer.Narration | newsstream.py:249 | reference definition of the narration; stated by `NarrationParts` |
| Producer.ClipStem | newsstream.py:251 | reference definition of the URL with '/' replaced by '_'; stated by `ClipPathsFlatten` |
| Producer.VideoPath | newsstream.py:256 | reference definition of an article's clip path; stated by `ClipPathsFlatten` and `ClipPathsCanCollide` |
| Producer.CoinSegment | newsstream.py:208-209 | reference definition of a coin report's clip: path named after the report's hash, narrating the report; stated by `CoinClipsInOrder` and `FillOrder` |
| Producer.AudioPath | newsstream.py:251 | reference definition of an article's `.mp3` path; stated by `ClipPathsFlatten` |
| Producer.CoinSegments | newsstream.py:200-210 | reference definition of the coin loop's clips, one per report in report order; stated by `CoinClipsInOrder` and `QueueCoinClips` |
| Producer.ClipPathsFlatten | newsstream.py:251-256 | an article's clip name has the URL's length, maps each '/' to '_' and keeps every other character, contains no '/', sits directly under `tts_clips/`, and is shared by the audio and the video |
| Producer.ClipPathsCanCollide | newsstream.py:256 | two different URLs, "a/b" and "a_b", get the same clip path |
| Producer.NarrationParts | newsstream.py:249 | the narration is the title, one space, then the analysis |
| Producer.NewRecord | newsstream.py:231-244 | reference definition of the entry written for an unseen article: its sentiment, and the truthy reply or else title followed by description; stated by `FirstSightingDecides` and `AllEndpointsDownFallsBack` |
| Producer.Replies | newsstream.py:229-230 | reference definition of the reply `generate_response` gives for each article, the `Failover` result on its endpoint outcomes; used by `ProcessArticles` and `PreGenerate` |
| Producer.ProcessArticle | newsstream.py:218-258 | reference definition of one turn of the article loop; stated by `ArticleStep`, `EntryWithoutAnalysisSkipped` and `ClipStep`, and `HandleArticle` is proved to end in its state |
| Producer.ProcessAll | newsstream.py:218-258 | reference definition of the article loop; its properties are stated by `EntriesWrittenOnce`, `EnrichedOnlyWhenUnseen`, `EveryUnseenEnriched`, `FirstSightingDecides`, `SavedIsPartOfStore`, `SavedOnlyOnTruthyReply`, `OneClipPerArticleInOrder` and `ArticleClipsAreKept`, and `ProcessArticles` is proved to end in its state |
| Producer.ArticleStep | newsstream.py:228-244 | one article turn: a stored URL leaves the store, saved copy and enrichment list as they were; an unseen URL gets its new entry, is counted as enriched, and the saved copy catches up exactly on a truthy reply |
| Producer.EntriesWrittenOnce | newsstream.py:228-244 | an entry present before the loop is unchanged after it, and the store ends with exactly the old URLs plus the articles' URLs |
| Producer.EnrichedOnlyWhenUnseen | newsstream.py:228-230 | the LLM is asked only about URLs the store lacked before the loop, each at most once, and each of those URLs ends up stored |
| Producer.EveryUnseenEnriched | newsstream.py:228-230 | the URLs sent to the LLM are exactly the articles' URLs that the store lacked |
| Producer.FirstSightingDecides | newsstream.py:222-244 | the first sighting of an unseen URL stores its sentiment together with the truthy reply, or else the title followed by the description, with a missing description read as "" |
| Producer.AllEndpointsDownFallsBack | newsstream.py:237-244 | when every endpoint raises, the new entry's analysis is the title followed by the description, with no separator |
| Producer.SavedIsPartOfStore | newsstream.py:231-236 | the saved copy of the file stays a sub-map of the store |
| Producer.SavedOnlyOnTruthyReply | newsstream.py:231-244 | without a truthy reply for a first-sighted article, the file is never written |
| Producer.EntryWithoutAnalysisSkipped | newsstream.py:248 | a stored entry without "analysis" gives no clip and changes nothing |
| Producer.ClipStep | newsstream.py:246-258 | one turn appends the article's clip exactly when the entry it finds, or the one it writes, has an analysis, and otherwise appends nothing |
| Producer.NewEntriesAnalysed | newsstream.py:231-244 | every entry the loop writes has an analysis |
| Producer.Kept | newsstream.py:218-258 | reference definition of the clips the article loop queues: one per article, in article order, except for an article whose URL already has a stored entry without an analysis |
| Producer.ArticleClipsAreKept | newsstream.py:218-258 | the article loop appends exactly the clips of `Kept` to those already queued, with no assumption on the stored entries |
| Producer.KeptAllWhenAnalysed | newsstream.py:246-258 | when every stored entry has an analysis, `Kept` holds one clip per article, in article order |
| Producer.OneClipPerArticleInOrder | newsstream.py:218-258 | when every entry has an analysis, each article adds exactly one clip, in article order, at its sanitised path, narrating its title and its stored analysis |
| Producer.InitialFill | newsstream.py:195-258 | reference definition of what the start-up pass appends to the queue; stated by `FillOrder`, `FillIsKept` and `InitialFillParts`, and `PreGenerate` is proved to append exactly it |
| Producer.FillOrder | newsstream.py:195-258 | the queue fill is the intro first, then one clip per coin report in report order, then the clips of `Kept` in provider order, whatever the stored entries; when every entry has an analysis that is one clip per article; with no articles it stops after the coins |
| Producer.FillIsKept | newsstream.py:212-258 | with or without articles, the fill is the intro, the coin clips, then `Kept` |
| Producer.FillUnderPulls | newsstream.py:193-298 | with requests served while the pass appends, in any interleaving, the queue ends with the length and the multiset of clips of the old queue plus `InitialFill` |
| Producer.PullDuringFillReorders | newsstream.py:193-270 | a pull between appends changes the order: intro, clip, pull, clip leaves the clip, then the intro, then the second clip |
| Producer.InitialFillParts | newsstream.py:212-216 | with or without articles, the fill is the intro, then the coin clips, then the article clips; the early return adds none |
| Producer.AnalysisStore.Load | newsstream.py:50-59 | loading gives the parsed file, or an empty store when there is no file, and the saved copy equals it |
| Producer.AnalysisStore.Put | newsstream.py:232-244 | writes one entry and leaves the saved copy alone |
| Producer.AnalysisStore.Save | newsstream.py:61-66 | the saved copy becomes the whole store, which is unchanged |
| Producer.QueueCoinClips | newsstream.py:200-210 | the coin loop renders one clip per report, in order, and appends each path to the queue |
| Producer.RecordArticle | newsstream.py:228-244 | an unseen article gets the entry `NewRecord` gives for the `Failover` reply, and the file is rewritten exactly on a truthy reply |
| Producer.QueueArticleClip | newsstream.py:246-258 | the article's clip is appended exactly when its entry has an analysis, and nothing else changes |
| Producer.HandleArticle | newsstream.py:218-258 | one iteration on the shared store and queue ends in the state `ProcessArticle` gives, enriching through `GenerateResponse` |
| Producer.ProcessArticles | newsstream.py:218-258 | the article loop ends with the store, saved copy and queued clips of `ProcessAll` |
| Producer.PreGenerate | newsstream.py:187-258 | the whole start-up pass: store, saved file and LLM requests are those of `ProcessAll` on the replies `Failover` gives, and the queue gains exactly `InitialFill` |

## Left out

- The network: `fetch_news`, the market-data `requests.get` and the LLM
  `requests.post`. Their results are inputs (`articles`, `fetch`, `llm`).
- Failures that abort the start-up pass are not modelled. In the model the
  fetches, the article list and the renderer cannot fail. In the code, each
  of these raises out of `pre_generate_tts_clips`:
  - an HTTP error from `raise_for_status` in `fetch_news` (newsstream.py:79);
  - a failing market-data `requests.get` or `response.json()`
    (newsstream.py:89-90);
  - a failing `tts.save` (newsstream.py:153, 204, 252);
  - ffmpeg missing, so that `subprocess.run` raises `FileNotFoundError`,
    which is not caught (newsstream.py:176).

  The pass runs on the main thread (newsstream.py:298), so any of these stops
  the program, and the daemon server thread with it.
  Composing the prompt and the request payload is not modelled, because
  nothing in the model depends on them.
- The LLM outcome model is simplified:
  - any request error, including a reply body that fails to decode, is
    `Raised`;
  - a body that is neither falsy nor an object (for example a non-empty list),
    or a "content" that is not a string, makes the source raise an uncaught
    error; those cases are not modelled.
- Text-to-speech (`gTTS`), the ffmpeg subprocess, temporary files and reading
  the clip bytes in `do_GET` are I/O. A clip is a `Segment` handed to the
  renderer: its path and its narration.
- The analysis file is I/O. Saving is "the saved copy becomes the store". A
  corrupt file, which stops the program, is not modelled.
- TextBlob sentiment is a function from a foreign library, so it is the
  parameter `polarity`. The `sentiment_label` computed from it is never used,
  so it is left out.
- Floating point: amounts and percentages are integer hundredths, so `:.2f`
  rounding of values with more decimals is not modelled. Neither are
  non-numeric field values or JSON `null` in a provider record.
- Python's per-process string `hash` is the parameter `hash`.
- Threading, `serve_forever`, `time.sleep` and the idle loop in `main`. Each
  queue access is taken as one atomic step (`LoopQueue.Run`). The code has no
  lock, but `HTTPServer` serves one request at a time, so pulls never overlap
  each other. Only the producer's `append` can land inside a pull, and
  `LoopQueue.AppendInsidePullIsAtomic` shows that this interleaving leaves
  the same queue as the append followed by the whole pull.
- The HTTP headers and the port number.
- Logging and `print`.
- Commented-out code: the musac insertion and the market-cap clause. The
  unused `random` import and `musac_clips` are not modelled either.
- White space and case outside ASCII: `Strip` and `Upper` treat every other
  character as a plain letter without case.
- Metrics.EmptyRecordNarrated: states the defaults the sentence is built from
  and the "0.00" amounts rather than the whole sentence as one literal, because
  a proof about the full literal is too costly.
- Producer.PreGenerate: its queue contract, and those of `FillOrder` and
  `InitialFill`, describe the order of the producer's appends with no request
  served in between. The server thread starts before the pass
  (newsstream.py:294-298), and pulls during it rotate the queue between
  appends, so the served order may differ (`PullDuringFillReorders`). What
  holds under any interleaving is the length and the multiset of clips
  (`FillUnderPulls`).
- A stored entry whose "analysis" is JSON `null` or not a string is not
  modelled: `Record.analysis` is `None` only for a missing key. In the code
  such an entry passes the `"analysis" in …` test (newsstream.py:248) and
  narrates `"<title> None"` or the value's text.
- A `None` title and a missing "url" or "title" key, which make the source
  raise, are not modelled: `Article` has both as strings.
