# Depot driving-time calculator — a Dafny model

This project models the core of a small tool that computes the driving time
(and, in one variant, the driving distance) between every pair of depots
listed in a spreadsheet, by asking a routing provider (MapQuest or Google)
about one pair at a time. The core is the pairwise orchestration loop that
the four calculator classes share, the provider-name check and dispatch, the
classification of each provider reply as a metric or a failure, and the
required-column check on the depot sheet.

What is modelled, module by module:

- `Pairs` (pairs.dfy): the pairs `itertools.permutations(index, 2)` and
  `itertools.combinations(index, 2)` produce for an n-row table with a default
  index, and Python's `pairs[:test_limit]`, negative limits included.
- `BestEffort` (best_effort.dfy): the per-pair outcomes of a run (a record, or
  the log entry written when the provider call raised) and the output as the
  filter-map of those outcomes: successful records in pair order, failures
  absent.
- `Providers` (providers.dfy): the provider name check of the constructors
  (`provider.lower()` must be "mapquest" or "google"), the parts of the two
  backends' replies the adapters read, and the status gates
  (`info.statuscode == 0` for MapQuest, `rows[0].elements[0].status == "OK"`
  for Google).
- `Depots` (depots.dfy): depots, output records and the dictionaries appended
  for them.
- `TimeDistance`, `Time`, `MapQuestCalculator`, `GoogleCalculator`: one module per
  calculator file. Each has a class with the constructor's fields and a
  `CalculateTimes...` method whose `for` loop appends records and log entries
  and counts sleeps, proved against the module's specification functions
  `Matrix` and `ErrorLog`.
- `ExcelHandler` (excel_handler.dfy): `_validate_dataframe` and the
  validate-then-return path of `read_depot_data`.

The network is a parameter: for each backend, a function from
(origin, destination) to the reply (a transport failure or a decoded body).
Metrics are an opaque type parameter `M`. The constructors that raise on an
unknown provider are modelled by a static `Create` returning a `Result`.

Facts about the code that the model keeps:
- `sleep` runs only after a successful append (src/time_distance_calculator.py:70,
  src/time_calculator_google.py:52), so a failed pair is not followed by a pause;
- the Google-only calculator enumerates `itertools.combinations`
  (src/time_calculator_google.py:26), so each unordered pair is asked once, lower
  row first;
- a negative `test_limit` drops pairs from the end, because `depot_pairs[:test_limit]`
  is a Python slice (src/time_distance_calculator.py:47-48);
- the deprecated `calculate_times` raises when no pair succeeds, because it drops
  a column from a DataFrame that has none (src/time_distance_calculator.py:88; see
  Findings).

## Model

| member | source | states |
|---|---|---|
| Providers.ProviderAcceptedIff | src/time_distance_calculator.py:25-32 | a provider name is accepted as MapQuest iff it spells "mapquest" in any mix of letter cases, as Google iff it spells "google", and rejected iff it spells neither |
| Providers.LowerMatches | src/time_calculator.py:25 | lower-casing a name gives a lower-case word iff the name spells that word letter by letter in either case |
| TimeDistance.TimeDistanceCalculator.Create | src/time_distance_calculator.py:16-32 | construction succeeds iff the provider name is accepted, and then keeps the key and the parsed provider; otherwise it fails with the rejected name |
| Time.TimeCalculator.Create | src/time_calculator.py:16-32 | construction succeeds iff the provider name is accepted, and then keeps the key and the parsed provider; otherwise it fails with the rejected name |
| Pairs.PermutationsFacts | src/time_distance_calculator.py:45 | the permutations of n row positions are exactly the ordered pairs of distinct positions, in strictly increasing lexicographic order, n * (n - 1) of them |
| Pairs.PermutationsFromFacts | src/time_calculator.py:42 | the pairs enumerated from first position i on have first element in i..n-1, second element a different row, lexicographic order, and (n - i) * (n - 1) members |
| Pairs.PermutationRowFacts | src/time_calculator_mapquest.py:25 | the pairs with first element i are (i, j) for every other row j, n - 1 of them, in increasing order |
| Pairs.ConcatStrictlyLex | src/time_distance_calculator.py:45 | joining two increasing runs, the first wholly below the second, stays increasing |
| Pairs.CombinationsFacts | src/time_calculator_google.py:26 | the combinations of n row positions are exactly the pairs i < j, in strictly increasing lexicographic order, n * (n - 1) / 2 of them |
| Pairs.CombinationsFromFacts | src/time_calculator_google.py:26 | the pairs enumerated from first position i on are exactly those with i <= p.0 < p.1 < n, in lexicographic order, (n - i) * (n - i - 1) / 2 of them |
| Pairs.CombinationRowFacts | src/time_calculator_google.py:26 | the combinations with first element i are (i, j) for every later row j, in increasing order |
| Pairs.CombinationsUndirected | src/time_calculator_google.py:26 | a combination never appears reversed and never pairs a row with itself; both it and its reverse are permutations |
| Pairs.SliceTo | src/time_distance_calculator.py:47-48 | `s[:k]` is a prefix of `s` of length min(k, len(s)) for k >= 0 and max(0, len(s) + k) for k < 0 |
| Pairs.SliceToNegative | src/time_calculator.py:44-45 | a negative stop counts from the end: `s[:k]` equals `s[:len(s) + k]` |
| Pairs.Truncate | src/time_calculator_mapquest.py:27-28 | without a limit the pairs are unchanged; with one they are the Python slice, always a prefix |
| Pairs.PrefixWithin | src/time_distance_calculator.py:53-55 | every pair of a prefix of the enumeration indexes a row of the table |
| Pairs.PermutationPairs | src/time_distance_calculator.py:45-48 | the processed pairs are a prefix of the full enumeration and index rows of the table |
| Pairs.PermutationPairsCount | src/time_distance_calculator.py:45-48 | n * (n - 1) pairs are processed without a limit, min(k, n * (n - 1)) with a limit k >= 0, max(0, n * (n - 1) + k) with k < 0 |
| Pairs.PermutationPairsBound | src/time_calculator.py:42-45 | never more than n * (n - 1) pairs, and never more than a non-negative limit |
| Pairs.CombinationPairs | src/time_calculator_google.py:26-30 | the processed pairs are a prefix of the combinations and index rows of the table |
| Pairs.CombinationPairsCount | src/time_calculator_google.py:26-30 | n * (n - 1) / 2 pairs are processed without a limit, min(k, that) with a limit k >= 0, max(0, that + k) with k < 0 |
| Pairs.CombinationPairsOrdered | src/time_calculator_google.py:26-30 | every processed pair has its lower row position first |
| Pairs.NoPairsBelowTwo | src/time_distance_calculator.py:45 | a table of fewer than two rows gives no pair to process, with or without a limit |
| BestEffort.Outcomes | src/time_distance_calculator.py:53-73 | there is exactly one outcome per processed pair |
| BestEffort.Successes | src/time_distance_calculator.py:53-75 | the output never has more records than there are processed pairs |
| BestEffort.Failures | src/time_distance_calculator.py:72-73 | the log never has more entries than there are processed pairs |
| BestEffort.Step | src/time_distance_calculator.py:57-73 | processing one more pair appends its record when it succeeds and its log entry when it fails, never both |
| BestEffort.Partition | src/time_distance_calculator.py:57-73 | every processed pair ends up exactly once, as a record or as a log entry |
| BestEffort.Append | src/time_calculator.py:50-71 | the output and the log of two runs of pairs one after the other are the outputs and logs of each run joined |
| BestEffort.SuccessPositionsFacts | src/time_distance_calculator.py:53-75 | the output is the subsequence of successful outcomes: record m comes from the m-th successful pair, positions increase, and no successful pair is left out |
| BestEffort.AllSucceed | src/time_distance_calculator.py:57-68 | when no pair fails there is one record per pair, in pair order, and nothing is logged |
| BestEffort.AllFail | src/time_distance_calculator.py:72-73 | when every pair fails there is no record and one log entry per pair |
| BestEffort.OneFailure | src/time_distance_calculator.py:57-73 | when exactly one pair fails, every other pair has its record and that pair has the only log entry |
| BestEffort.Correspond | src/time_distance_calculator.py:86-88 | two runs whose outcomes succeed together, with records related by f, produce outputs related by f record by record |
| Providers.MapQuestChecked | src/time_distance_calculator.py:117-118 | a MapQuest reply passes iff it was delivered, `info.statuscode` is 0 and a route is present; a present status other than 0 is reported as that status |
| Providers.MapQuestTime | src/time_calculator.py:100-103 | the MapQuest time adapter succeeds iff the status gate passes and the route has a time, and then returns `route.time` |
| Providers.MapQuestRouteInfo | src/time_distance_calculator.py:117-124 | the MapQuest time-and-distance adapter succeeds iff the status gate passes and the route has a time and a distance, and then returns `route.time` and `route.distance` |
| Providers.GoogleChecked | src/time_distance_calculator.py:143-150 | a Google reply passes iff it was delivered and its first row's first element exists with status "OK", and then yields that element |
| Providers.GoogleTime | src/time_calculator.py:122-126 | the Google time adapter succeeds iff the element gate passes and the element has a duration, and then returns that duration |
| Providers.GoogleRouteInfo | src/time_distance_calculator.py:143-150 | the Google time-and-distance adapter succeeds iff the element gate passes and the element has a duration and a distance, and then returns that duration and distance |
| Providers.MapQuestRouteInfoExtendsTime | src/time_distance_calculator.py:117-124 | the time-and-distance reading of a MapQuest reply carries the time-only reading, fails with the same error when that fails, and differs only when the distance is missing |
| Providers.GoogleRouteInfoExtendsTime | src/time_distance_calculator.py:143-150 | the time-and-distance reading of a Google reply carries the time-only reading, fails with the same error when that fails, and differs only when the distance is missing |
| Depots.DropDistanceColumn | src/time_distance_calculator.py:61-68 | removing the distance column from a time-and-distance row leaves exactly the time-only row for the same depots and time |
| Depots.TimeRowColumns | src/time_calculator.py:58-64 | a time-only row has the four depot columns and the time column and nothing else, holding both designations, both addresses and the time |
| TimeDistance.TimeDistanceCalculator.CalculateTimesAndDistances | src/time_distance_calculator.py:45-75 | the loop returns exactly the records of the successful processed pairs in order, logs exactly the failed ones in order, and sleeps once per record |
| TimeDistance.PairStep | src/time_distance_calculator.py:57-73 | processing pair i appends the record with both depots, time and distance when the provider answers, and otherwise the log entry with both designations and the error |
| TimeDistance.MatrixSize | src/time_distance_calculator.py:53-75 | records plus log entries number the processed pairs; at most n * (n - 1) records, and at most k with a limit k >= 0 |
| TimeDistance.RecordsFollowPairs | src/time_distance_calculator.py:58-68 | record m has depot 1 from row idx1 and depot 2 from row idx2 of the m-th successful pair, with that pair's time and distance; pairs used increase; no successful pair is missing |
| TimeDistance.AllPairsSucceed | src/time_distance_calculator.py:57-73 | when the provider answers every processed pair, there is one record per processed pair, in pair order, and nothing is logged |
| TimeDistance.CompleteMatrix | src/time_distance_calculator.py:45-75 | without a limit and with a provider that answers every pair of distinct rows, there are n * (n - 1) records and one for every ordered pair of distinct rows |
| TimeDistance.DistinctRowsCoverProcessedPairs | src/time_distance_calculator.py:45 | a provider that answers every pair of distinct rows answers every processed pair, since permutations never pair a row with itself |
| TimeDistance.CompleteMatrixSize | src/time_distance_calculator.py:45-75 | without a limit and with a provider that answers every pair of distinct rows, there are n * (n - 1) records |
| TimeDistance.RowOfPair | src/time_distance_calculator.py:53-68 | with a provider that answers every pair of distinct rows, the ordered pair (i, j) of distinct rows has a record from row i to row j |
| TimeDistance.FewerThanTwoDepots | src/time_distance_calculator.py:45-75 | fewer than two depots give no record and no log entry |
| TimeDistance.OneFailingPair | src/time_distance_calculator.py:57-73 | when the provider fails on exactly one processed pair, that pair alone is missing and is the only log entry |
| TimeDistance.OnlySelectedBackendConsulted | src/time_distance_calculator.py:92-95 | the records and the log depend only on the replies of the backend chosen at construction |
| TimeDistance.TimeDistanceCalculator.CalculateTimes | src/time_distance_calculator.py:78-88 | the deprecated entry point returns the as-written result of dropping the distance column, and when that succeeds it equals the intended projection |
| TimeDistance.LegacyTimes | src/time_distance_calculator.py:88 | as written, dropping the distance column fails iff there is no record, and otherwise drops the distance from every record |
| TimeDistance.LegacyTimesFailsWithoutRecords | src/time_distance_calculator.py:86-88 | with fewer than two depots, or a provider that fails on every processed pair, the deprecated entry point raises, where the intended result is an empty table |
| TimeDistance.IntendedLegacyTimes | src/time_distance_calculator.py:86-88 | the intended projection keeps every record, each row equal to its time-and-distance row minus the distance column |
| TimeDistance.IntendedLegacyMatchesTimeCalculator | src/time_calculator.py:34-71 | the intended projection equals what the consolidated time-only calculator returns for the same provider and replies, when every reply with a time also has a distance |
| TimeDistance.AttemptSucceeds | src/time_distance_calculator.py:58-68 | a pair whose provider call succeeds yields the record with both depots, the time and the distance |
| TimeDistance.ThreeDepotExample | src/time_distance_calculator.py:45-75 | depots A, B, C and a stub answering time 5 and distance 2 give six records, (A, B) first and (C, B) last |
| TimeDistance.StubAnswers | src/time_distance_calculator.py:117-124 | a MapQuest reply with status 0, time 5 and distance 2 is read as time 5 and distance 2 |
| TimeDistance.PermutationsOfThree | src/time_distance_calculator.py:45 | three rows give the pairs (0,1), (0,2), (1,0), (1,2), (2,0), (2,1) in that order |
| Time.TimeCalculator.CalculateTimes | src/time_calculator.py:42-71 | the loop returns exactly the records of the successful processed pairs in order, logs exactly the failed ones in order, and sleeps once per record |
| Time.PairStep | src/time_calculator.py:54-69 | processing pair i appends the record with both depots and the time when the provider answers, and otherwise the log entry with both designations and the error |
| Time.RecordsFollowPairs | src/time_calculator.py:50-71 | record m has depot 1 from row idx1 and depot 2 from row idx2 of the m-th successful pair, with that pair's time; pairs used increase; no successful pair is missing |
| Time.OnlySelectedBackendConsulted | src/time_calculator.py:73-78 | the records and the log depend only on the replies of the backend chosen at construction |
| MapQuestCalculator.TimeCalculator.CalculateTimes | src/time_calculator_mapquest.py:25-58 | the loop returns exactly the records of the successful processed pairs in order, logs exactly the failed ones in order, and sleeps once per record |
| MapQuestCalculator.PairStep | src/time_calculator_mapquest.py:37-56 | processing pair i appends the record with both depots and the time when MapQuest answers, and otherwise the log entry with both designations and the error |
| MapQuestCalculator.RecordsFollowPairs | src/time_calculator_mapquest.py:33-58 | record m comes from the m-th successful pair, its reply was delivered with status 0 and this route time; pairs used increase; no successful pair is missing |
| MapQuestCalculator.NonZeroStatusSkipped | src/time_calculator_mapquest.py:81-82 | a pair whose reply has no status or a status other than 0 fails and has no record; its log entry carries that status, or a malformed-reply error when the reply has no `info` |
| GoogleCalculator.TimeCalculator.CalculateTimes | src/time_calculator_google.py:26-58 | the loop returns exactly the records of the successful processed unordered pairs in order, logs exactly the failed ones in order, and sleeps once per record |
| GoogleCalculator.PairStep | src/time_calculator_google.py:39-56 | processing pair i appends the record with both depots and the time when Google answers, and otherwise the log entry with both designations and the error |
| GoogleCalculator.RecordsFollowPairs | src/time_calculator_google.py:35-58 | record m comes from the m-th successful pair, lower row first, whose single element had status "OK" and this duration; pairs used increase; no successful pair is missing |
| GoogleCalculator.PairsNotRepeatedReversed | src/time_calculator_google.py:26-30 | the processed pairs are distinct and none is the reverse of another |
| GoogleCalculator.Row | src/time_calculator_google.py:43-49 | the row appended has the four depot columns and "Driving Time", holding both designations, both addresses and the time |
| ExcelHandler.Missing | src/excel_handler.py:27 | a column is reported missing iff it is required and absent, and the missing list keeps the required order |
| ExcelHandler.SubsequenceDropHead | src/excel_handler.py:27 | a subsequence of a list's tail is a subsequence of the list |
| ExcelHandler.ValidateDataframe | src/excel_handler.py:25-29 | validation fails iff some required column is absent, and then names exactly the missing required columns in required order |
| ExcelHandler.ExtraColumnsIrrelevant | src/excel_handler.py:27 | two frames that agree on the presence of every required column get the same verdict and the same missing list |
| ExcelHandler.MissingAgrees | src/excel_handler.py:27 | the missing list depends only on which required columns are present |
| ExcelHandler.ReadDepotData | src/excel_handler.py:15-23 | reading succeeds iff the sheet was read and passes validation, and then returns the frame read unchanged; a validation failure is passed on as it is |
| ExcelHandler.DepotsOf | src/time_distance_calculator.py:54-59 | a validated frame gives one depot per row, with that row's "Depot Designation" and "Depot Address" |

## Left out

- HTTP transport, the `requests` and `googlemaps` clients and JSON decoding are not modelled: each backend is a function from (origin, destination) to a transport failure or a decoded body. Such a function always gives the same reply for the same pair, so replies that change over time are not captured.
- The unit conversions (`/ 60`, `/ 1609.34`) are not modelled, because they are floating-point arithmetic: metrics are an opaque type, passed through unchanged.
- `sleep` is a counter of sleeps, not a delay; the 0.2 s and 0.1 s durations are not modelled.
- Logging is modelled as the sequence of (designation 1, designation 2, error) entries of the failed pairs. The message texts, the adapters' own log lines and the "test mode" info line are not modelled.
- pandas is not modelled: a DataFrame is a sequence of depots, and `iloc[idx]` over `depots_df.index` is row position `idx`, which holds for the default 0..n-1 index that `read_excel` produces.
- `googlemaps.Client(key=...)` can itself reject a malformed key during construction; the model's constructors do not.
- Reading and writing the workbook (`pd.read_excel`, `write_times_and_distances`) are not modelled; the read is a parameter of `ReadDepotData`.
- `config.py`'s environment loading and `src/main.py` are outside the core; `main.py` calls a `write_times` method that does not exist.
- Providers.Lower: lower-cases ASCII letters only; Python's `str.lower()` also maps other letters. The only other characters that lower-case to ASCII letters are KELVIN SIGN (U+212A, to "k") and LATIN CAPITAL LETTER I WITH DOT ABOVE (U+0130, to "i" plus a combining dot); neither "mapquest" nor "google" contains k or i, so the verdict is the same.
- Providers.MapQuestChecked: `statuscode` is an integer or absent. A JSON value such as 0.0 or false, which Python also compares equal to 0, is not modelled. The error values do not follow Python's exception types. A reply without `info` is `MalformedResponse`, where `data['info']['messages']` raises KeyError. A reply with `info` and a status other than 0 is `MapQuestStatusError` with that status, also when `messages` is missing and Python raises KeyError instead of ValueError (src/time_distance_calculator.py:117-118). A status-0 reply without `route` is `MalformedResponse`. The loop catches all of these alike, so only the error value in the log entry differs.
- Providers.GoogleChecked: a reply without `rows[0].elements[0]` or without a `status` is `MalformedResponse`. Python raises IndexError or KeyError there, which the loop catches like any other error.

## Findings

| source | as written | input that shows it | evidently intended | confidence | as-written member | corrected member |
|---|---|---|---|---|---|---|
| src/time_distance_calculator.py:86-88 | `df.drop(columns=["Driving Distance (miles)"])` runs on the DataFrame built from the records; when there is no record that DataFrame has no columns, so pandas raises KeyError | a table of one depot (no pair), or a provider that fails on every pair | an empty time table, as the time-only calculators return for the same input | not executed | TimeDistance.LegacyTimesFailsWithoutRecords | TimeDistance.IntendedLegacyTimes |
