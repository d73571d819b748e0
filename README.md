# Thai lottery prediction engine — a verified model

This project models the decision logic of a Thai Government Lottery "prediction" tool.
The tool exists in three variants:

- the main engine `ThaiLottoPredictor` (`src/thai_lotto_predictor.py`);
- the legacy engine `LottoEngine` (`src/legacy_predictor.py`);
- the Streamlit app (`app.py`), with its own draw-date rule, an "intersection" scorer and
  nested engine methods (`fetch_latest_draw`, `get_next_draw_context`,
  `run_advanced_algorithm`). Those nested methods sit after a `return` inside
  `get_latest_draw_penalty` and are never reached.

Each variant has three parts:

- a calendar resolver. It computes the next draw from today: the 1st and the 16th of each
  month, with January 16 held on the 17th (Teacher's Day) and May 1 held on the 2nd (Labour
  Day). It also derives "cultural bias" numbers from that draw date.
- a history store. It keeps newest-first draw records, and a sync step turns the latest API
  result into a `DD-MM-YYYY` record and prepends it only when its date is new.
- a scoring engine. It adds weighted factors (cultural, seasonal, weekday, recent,
  most-frequent digit, history repeat, repeat penalty) into a score table with per-number
  evidence, then keeps a stable, descending top five.

Modules:

| file | contents |
|---|---|
| `wrappers.dfy` | `Option` |
| `text.dfy` | `str(n)`, zero padding, `s[-2:]`, `str.split`, counting, and first-occurrence deduplication (dict key order) |
| `calendar.dfy` | dates, date validity, date order, and the draw-date predicate |
| `date_format.dfy` | `strptime` for `"%d %B %Y"` and `"%d %b %Y"`, the try-formats loop, and `strftime("%d-%m-%Y")` |
| `fetch.dfy` | the outcome of one API request, given as an input value |
| `history.dfy` | `{date, number}` records, insert-if-new, and the month filter of the seasonal factor |
| `scoring.dfy` | the score/evidence table, the accumulate loop, and the stable descending ranking |
| `weighted_scoring.dfy` | one scorer, configured by weights, tags and window, for `compute_top_picks` and `run_advanced_algorithm` |
| `thai_lotto_predictor.dfy` | the main engine: seed data, draw context, sync, top picks, and the `Predictor` class |
| `legacy_predictor.dfy` | the legacy engine: seed rows, sync, `add_score`, the forecast, and the `LottoEngine` class |
| `app.dfy` | `get_target_date`, the bias set, the top digit, intersection scoring, and the nested engine methods |

Inputs the source takes from its environment are parameters:

- "now" is a `Date`.
- The API reply is a `FetchOutcome` value: a transport error, a non-200 status, a body that
  is not JSON, a missing field, or the date and number fields.
- The per-year replies of the history miner are `NumberReply` values.
- `strftime("%A")` is a `Date -> string` function.

Python's `set` has no defined iteration order. Bias sets are therefore modelled as
deduplicated sequences in first-insertion order, and the tie order of the ranking depends on
this choice.

Behaviours of the code worth knowing when reading the model:

- The main engine's recent factor runs only when the history holds at least five records
  (`len(self.history) >= 5`). A one-record history therefore gets no recent point: with a
  single January record "61", "61" scores 5 + 3 - 5 = 3 (`SingleJanuaryRecord`).
- Evidence lists are deduplicated only by the legacy `add_score`. The main engine and
  `run_advanced_algorithm` append one tag per contribution.
- The main engine's bias list also holds `str(year % 100)`. For years whose last two digits
  are 00 to 09, this is a one-character string beside the padded suffix (`YearSuffixQuirk`).
- The main engine's sync also counts a body that is not JSON as a failure: `requests`
  raises its JSON decode error as a `RequestException`.

## Model

| member | source | states |
|---|---|---|
| `ThaiLottoPredictor.NextDrawDate` | src/thai_lotto_predictor.py:140-161 | the target is a valid draw date (day 1, 2, 16 or 17; 17 only in January, 2 only in May; never Jan 16 or May 1) on or after today, and equals today exactly on a 16th outside January |
| `ThaiLottoPredictor.NoDrawSkipped` | src/thai_lotto_predictor.py:144-159 | no draw date lies strictly between today and the target, except May 2 when today is May 1 |
| `ThaiLottoPredictor.BiasNumbers` | src/thai_lotto_predictor.py:163-178 | the bias list has no duplicates and holds exactly the holiday numbers, the last two digits of the (rolled-over) year, `str(year % 100)` and "96" |
| `ThaiLottoPredictor.TeachersDayBias` | src/thai_lotto_predictor.py:167-170 | all of "16","17","61","95","97" are bias numbers if and only if the target is January 17 |
| `ThaiLottoPredictor.LabourDayBias` | src/thai_lotto_predictor.py:171-172 | all of "01","02","05" are bias numbers if and only if the target is May 2 |
| `ThaiLottoPredictor.YearSuffixQuirk` | src/thai_lotto_predictor.py:175-176 | `str(year % 100)` equals `str(year)[-2:]` exactly when the year is below 10 or its last two digits are at least 10 |
| `ThaiLottoPredictor.SeedWellFormed` | src/thai_lotto_predictor.py:53-67 | the seed has 11 records, with distinct dates that all have a month field |
| `ThaiLottoPredictor.SyncedEffect` | src/thai_lotto_predictor.py:83-129 | the history changes exactly when a 200 reply with a parseable, new date arrives; the counter resets to 0 then, increases by 1 on a non-200 status or a request error, and is otherwise unchanged |
| `ThaiLottoPredictor.SyncedAdds` | src/thai_lotto_predictor.py:96-121 | an added record sits at index 0 in front of the unchanged history, carries the fetched number, and has a new date that is the `%d-%m-%Y` form of the first format that parsed |
| `ThaiLottoPredictor.SyncedIdempotent` | src/thai_lotto_predictor.py:112-123 | syncing the same reply again leaves the history unchanged |
| `ThaiLottoPredictor.SyncedKeepsHistoryWellFormed` | src/thai_lotto_predictor.py:112-115 | a sync keeps the stored dates distinct and their month fields readable |
| `ThaiLottoPredictor.SyncedKeepsMonthFields` | src/thai_lotto_predictor.py:110-115 | a sync keeps every stored date's month field readable |
| `ThaiLottoPredictor.FailuresCounted` | src/thai_lotto_predictor.py:87-90 | over a run of syncs that add nothing, `api_failures` grows by exactly the number of failures |
| `ThaiLottoPredictor.Predictor.constructor` | src/thai_lotto_predictor.py:33-76 | the history is the stored one or the seed, the counter starts at 0, and the seed satisfies the invariant |
| `ThaiLottoPredictor.Predictor.SyncOnlineData` | src/thai_lotto_predictor.py:78-129 | the new (history, api_failures) pair is `Synced` of the old one, and distinct dates are preserved |
| `ThaiLottoPredictor.Predictor.ComputeTopPicks` | src/thai_lotto_predictor.py:180-242 | syncs, then returns `most_common(5)` of the weighted scores for the next draw's bias numbers and zero-padded month |
| `ThaiLottoPredictor.TopPicksRanked` | src/thai_lotto_predictor.py:200-232 | one to five picks, scores non-increasing, no number twice, each pick a scored number with its exact weighted score |
| `ThaiLottoPredictor.TopPicksBeatRest` | src/thai_lotto_predictor.py:232 | no scored number left out of the picks scores more than any pick |
| `ThaiLottoPredictor.EmptyHistoryPicks` | src/thai_lotto_predictor.py:203-229 | with an empty history the picks are the first five bias numbers in bias order, each scoring 5 |
| `ThaiLottoPredictor.SingleJanuaryRecord` | src/thai_lotto_predictor.py:203-232 | with one January record of "61" and bias "61","17", "61" scores 5+3-5 = 3, "17" scores 5, and the ranking is ("17",5), ("61",3) |
| `ThaiLottoPredictor.MainPenaltyOnLatest` | src/thai_lotto_predictor.py:216-229 | once the history holds five records, the penalty applies to a number exactly when it is `history[0]`'s number |
| `WeightedScoring.WeightedScores` | src/thai_lotto_predictor.py:200-229 | the score of n is culture·#bias + seasonal·#month matches + recent·#window hits (+ penalty if n is the latest number and was scored); the evidence has one tag per contribution in factor order; keys are in first-scored order |
| `WeightedScoring.RecentNumbers` | src/thai_lotto_predictor.py:217-218 | the recent window is a prefix of the history: of length 5 or nothing (main), or of length min(20, len) (advanced) |
| `WeightedScoring.PenaltyOnlyLatest` | src/thai_lotto_predictor.py:225-229 | the penalty tag occurs at most once per number, and only for `history[0]`'s number |
| `WeightedScoring.LatestPenalised` | src/thai_lotto_predictor.py:225-229 | once the recent window covers `history[0]`, the latest number is always scored and therefore penalised |
| `WeightedScoring.EmptyHistoryScoresBiasOnly` | src/thai_lotto_predictor.py:203-229 | with an empty history exactly the bias numbers are scored, each with the cultural weight and only the cultural tag |
| `WeightedScoring.EmptyHistoryRanked` | src/thai_lotto_predictor.py:232 | with an empty history the ranking is the first k bias numbers, in order |
| `WeightedScoring.WeightedRanked` | src/thai_lotto_predictor.py:232 | `most_common(k)` returns min(k, #scored) entries, non-increasing, with distinct numbers and exact scores |
| `WeightedScoring.WeightedBeatRest` | src/thai_lotto_predictor.py:232 | a scored number left out of the top k scores no more than any ranked entry |
| `Scoring.Bump` | src/thai_lotto_predictor.py:212-214 | `scores[n] += w` with `evidence.setdefault(n, []).append(tag)`: only n changes, and a new key goes last |
| `Scoring.AddAll` | src/thai_lotto_predictor.py:204-206 | after the loop, every number gained w and one tag per occurrence, and keys are in first-occurrence order |
| `Scoring.SortDescCorrect` | src/thai_lotto_predictor.py:232 | the stable sort is sorted descending, is a permutation, and keeps entries of equal score in their original order |
| `Scoring.RankEntries` | src/legacy_predictor.py:165-169 | ranking keeps min(k, #items) entries, sorted descending, each one of the items |
| `Scoring.RankDistinct` | src/legacy_predictor.py:165-169 | no number is ranked twice, and with at most k items every item is ranked |
| `Scoring.RankIsTop` | src/legacy_predictor.py:165-169 | an item cut from the top k scores no more than any ranked entry |
| `Scoring.RankTies` | src/legacy_predictor.py:165 | the ranked entries of each score are a prefix of that score's entries in item order (ties go in first-scored order) |
| `History.InsertIfNew` | src/thai_lotto_predictor.py:113-115 | afterwards the date is present; a new date adds exactly one record at index 0 in front of the old history; a known date changes nothing |
| `History.InsertIdempotent` | src/thai_lotto_predictor.py:113-115 | inserting the same record twice equals inserting it once |
| `History.InsertKeepsDatesDistinct` | src/thai_lotto_predictor.py:113-115 | insert-if-new preserves date uniqueness |
| `History.SeasonalCount` | src/thai_lotto_predictor.py:209-210 | the seasonal list counts a number at most as often as the history holds it, and exactly as often when every record is in the target month |
| `History.SeasonalHits` | src/thai_lotto_predictor.py:209-210 | the seasonal list holds a number exactly once per record whose month field is the target month and whose number is that number |
| `History.SeasonalMatchesMonth` | src/thai_lotto_predictor.py:110 | a stored `%d-%m-%Y` date's middle field equals the zero-padded target month if and only if the months agree |
| `History.InsertKeepsMonthFields` | src/thai_lotto_predictor.py:110-115 | prepending a record with a formatted date keeps every month field readable |
| `DateFormat.FirstParse` | src/thai_lotto_predictor.py:97-103 | the result is None exactly when no format parses; otherwise it is the parse of the first format that succeeds |
| `DateFormat.TryFormats` | src/thai_lotto_predictor.py:97-103 | the try-each-format loop with `break` returns the first successful parse |
| `DateFormat.FirstParseValid` | src/thai_lotto_predictor.py:100 | a parsed date is a real calendar date with a year of at most four digits |
| `DateFormat.ParseSpelled` | src/thai_lotto_predictor.py:98-100 | every valid date, spelled in either format, parses back to itself |
| `DateFormat.AbbreviatedNotFull` | src/legacy_predictor.py:71 | `"%d %B %Y"` rejects an abbreviated month name exactly when the month is not May |
| `DateFormat.FormatDateFields` | src/thai_lotto_predictor.py:110 | the stored form splits on '-' into the padded day, the padded month and the year |
| `DateFormat.FormatDateInjective` | src/thai_lotto_predictor.py:110-113 | different dates have different stored forms, so the stored date is a sound dedupe key |
| `DateFormat.MonthNumber` | src/thai_lotto_predictor.py:98-100 | a month name maps to its month under `%B`/`%b`, and a name of no month maps to None |
| `LegacyPredictor.NextDrawTarget` | src/legacy_predictor.py:99-119 | the legacy target is a valid draw date on or after today, and equals the main engine's target |
| `LegacyPredictor.LegacySyncedEffect` | src/legacy_predictor.py:59-91 | a sync either leaves the table unchanged or prepends one row with a new date, whose day, month and weekday come from the date parsed with `"%d %B %Y"` |
| `LegacyPredictor.LegacySyncedIdempotent` | src/legacy_predictor.py:75-88 | syncing the same reply again leaves the table unchanged |
| `LegacyPredictor.LegacySyncedKeepsDatesDistinct` | src/legacy_predictor.py:75-85 | a sync keeps the stored dates distinct |
| `LegacyPredictor.AbbreviatedIgnored` | src/legacy_predictor.py:71 | a date spelled with an abbreviated month (not May) changes nothing, although the main engine's second format accepts it |
| `LegacyPredictor.AddOnce` | src/legacy_predictor.py:156-158 | the score grows by w, and the tag is appended only if the number does not have it yet |
| `LegacyPredictor.AddScore` | src/legacy_predictor.py:153-158 | "Unknown" is skipped; each other occurrence adds w; each tag is added at most once per number; keys are in first-scored order |
| `LegacyPredictor.ForecastScores` | src/legacy_predictor.py:136-162 | score(n) = 3·#day-and-month hits + 2·#weekday hits + 1·#first-20 hits; the reasons are the factors that fired, once each, in factor order |
| `LegacyPredictor.RecentHits` | src/legacy_predictor.py:147 | `df.head(20)` is the first min(20, len) numbers |
| `LegacyPredictor.ReasonsWellFormed` | src/legacy_predictor.py:153-158 | every scored number is not "Unknown" and has a non-empty, repeat-free reason list |
| `LegacyPredictor.ForecastRanked` | src/legacy_predictor.py:165-172 | at most five lines, scores non-increasing, distinct numbers, none "Unknown", each with its exact score and non-empty reasons |
| `LegacyPredictor.CollectForecasts` | src/legacy_predictor.py:168-170 | each ranked entry is paired with its reasons |
| `LegacyPredictor.LottoEngine.SyncLatestData` | src/legacy_predictor.py:53-91 | the new table is `LegacySynced` of the old one |
| `LegacyPredictor.LottoEngine.ComputeForecast` | src/legacy_predictor.py:121-172 | syncs, then returns the top five of the forecast for the next draw and its weekday |
| `App.TargetDate` | app.py:18-30 | the target is valid and on or after today; its day is 1, 16 or 17; it is 17 exactly in January on or before the 16th; it is a draw date except when it is May 1 |
| `App.TargetDateVsNextDraw` | app.py:18-30 | the app's target differs from the main engine's exactly after April 16, where it is May 1 instead of May 2 |
| `App.BiasOf` | app.py:242-251 | the bias set holds exactly the padded day, the padded day before, the year suffix and the Buddhist-era suffix, plus "61","95","19","79" when requested; it is non-empty and duplicate-free |
| `App.TeachersDayBiasSet` | app.py:250-251 | all four Teacher's Day numbers are in the bias set if and only if the target is January 17 |
| `App.TopDigitCorrect` | app.py:237-239 | the top digit occurs in the digits, no character occurs more often, and on a tie it is the character seen first |
| `App.MinedNumbers` | app.py:43-64 | the mined history holds exactly the numbers of 200 replies that carry one, and no more numbers than replies |
| `App.MinedCount` | app.py:50-60 | each number occurs in the mined history exactly as often as a 200 reply carrying it occurs among the yearly replies |
| `App.MinedAppend` | app.py:50-60 | mined numbers keep the order of the yearly replies: mining two runs of years one after the other gives the first run's numbers followed by the second's |
| `App.StatBonus` | app.py:264-267 | only keys present before history scoring that contain the top digit gain 3 and the stat tag, and the keys are unchanged |
| `App.IntersectionScores` | app.py:254-280 | score(n) = 5·[n in bias] + 3·[n in bias and top digit in n] + 5·#history occurrences − 20·[n is the latest number and was scored]; reasons follow step order |
| `App.IntersectionPicksRanked` | app.py:286 | one to five picks, non-increasing, distinct, each with its exact intersection score |
| `App.WinnerIsBest` | app.py:289 | `top_picks[0]` exists and scores at least as much as every scored number |
| `App.RunLiveAnalysis` | app.py:214-289 | no mined number stops the analysis; all-empty numbers make the top-digit step fail; otherwise the result is the target, top digit, top five and winner |
| `App.DrawContextBias` | app.py:120-158 | the nested context's bias equals the main engine's without `str(year % 100)` when that differs from the year suffix |
| `App.AdvancedResultsRanked` | app.py:160-206 | min(5, #scored) rows, non-increasing, distinct, each with its weighted score and unreduced evidence, using a window of min(20, len) |
| `App.AdvancedPenaltyOnLatest` | app.py:193-198 | from one record on, the penalty applies to exactly `history[0]`'s number |
| `App.FetchedEffect` | app.py:76-118 | a failure is counted exactly when "Offline" is reported; the history effect equals the main sync's; the counter is never reset |
| `App.FetchedIdempotent` | app.py:100-104 | fetching the same reply again leaves the history unchanged |
| `App.AdvancedEngine.FetchLatestDraw` | app.py:76-118 | the new state is `Fetched` of the old one, and the returned dict is `FetchedShown` |
| `App.AdvancedEngine.RunAdvancedAlgorithm` | app.py:160-206 | returns the ranked rows of the weighted scores under the engine's weights |

## Left out

- HTTP requests, timeouts and Streamlit caching. Each request's outcome is an input value.
- Reading and writing the JSON/CSV store, and the seed-or-file decision. The constructors
  take the loaded history as an optional argument. An I/O error raised by the unguarded
  write after the main engine's prepend is not modelled.
- Failing to write the seed back to disk in `_load_or_seed_data`.
- `datetime.now()`, which is an argument, and `strftime("%A")`, which is a function argument.
  Years above 9999, which Python rejects, are not bounded for "now".
- `strptime` in full. The model accepts day, month name and four-digit year written with
  ASCII digits and separated by single spaces, with English, case-sensitive month names.
  `strptime`'s case-insensitive names, its extra whitespace handling (a leading space before a
  one-digit day included) and its acceptance of non-ASCII decimal digits are not modelled.
- `strftime("%Y")` is written as `str(year)` without padding, which only differs for years
  below 1000.
- `ThaiLottoPredictor.Predictor.ComputeTopPicks`: requires every stored date to have a '-'
  month field. A malformed stored file makes `split('-')[1]` raise there, and that crash is
  not modelled.
- `ThaiLottoPredictor.TopPicks`: requires every stored date to have a '-' month field, for
  the same reason; on a history without one, `split('-')[1]` raises `IndexError` and no
  picks are returned, which is not modelled.
- `App.AdvancedResults`: requires every stored date to have a '-' month field. Its seasonal
  step (`d['date'].split('-')[1]`) raises `IndexError` otherwise, and that crash is not modelled.
- `App.AdvancedEngine.RunAdvancedAlgorithm`: requires every stored date to have a '-' month
  field. A history holding a date without one makes `run_advanced_algorithm` raise
  `IndexError`, and that crash is not modelled.
- Responses whose JSON has unexpected types (a `TypeError` rather than a `KeyError` or
  `IndexError`) are not modelled.
- Pandas column typing: the legacy table's numbers are kept as strings, as the seed writes them.
- The nested engine methods in `app.py` use names that the file never defines (`CACHE_TTL`,
  `API_ENDPOINT`, `DB_FILE`, `json`, `defaultdict`, the weights dict). They are modelled as
  their code intends, with the weights as a parameter.
- Console printing, Streamlit rendering and the `main()` exception wrappers.
- The iteration order of Python sets. It is replaced by first-insertion order, and the
  ranking's tie order depends on that choice.
- `src/__init__.py` only re-exports names.
