# OpenFlights top-N source airports, modelled in Dafny

This project models the logic of the `OpenFlights` application object, which
ranks the source airports of flight routes. Everything around that logic is
Spark, file and console plumbing and is left out. The logic has two parts.

- **The route schema and its in-place streaming rewrite.** The object is built
  with a nine-field route schema that ends in `Equipment`. Before either stream
  starts, `manipulate_streaming_schema` pops the last field and appends the
  timestamp field `datetime`. The class `App.OpenFlights` holds the field list
  as a `seq` that its methods reassign. The lemmas in `Schema` prove the
  following:
  - the field count stays nine;
  - fields 0..7 are unchanged;
  - the last field becomes `datetime`;
  - a second rewrite gives the same list as the first;
  - `datetime` can be resolved only after the rewrite.
- **The meaning of `groupBy(key).count().orderBy(count desc).limit(top_n)`.**
  The three queries use this chain: batch, unbounded stream in complete output
  mode, and stream grouped by 15-second tumbling window. Module `Ranking`
  models the chain over any key type:
  - a count per distinct key;
  - an order by count, non-increasing;
  - a cut to the first `top_n` rows.

  `orderBy` leaves the order of equal counts open. So a result is specified by
  the predicate `Ranking.IsTopN`, which accepts every tie order. `Ranking.TopN`
  computes one such result. `Ranking.TopNUniqueUpToTies` proves that all
  results have the same length and the same count column.
  - Complete output mode is modelled as running the same function, after each
    micro-batch, over every row delivered so far (`App.Accumulated`).
  - In the windowed query the key is the pair (window, `Source_airport`).
    Module `Windows` assigns each event time, in whole seconds, to the one
    aligned window `[s, s + 15)` that contains it.
  - The limit applies to all (window, airport) rows together, as the code
    does, not to each window.

Modules: `Wrappers` (Result type), `Schema`, `Ranking`, `Windows`, `App` (the
application object and the three queries), `Scenarios` (worked inputs).

What the code does, and so what the model does:

- The code breaks no ties: `orderBy(count desc)` fixes no order among equal
  counts.
- The code sets no watermark, so no window is evicted and no late event is
  dropped. Every window's counts stay in the aggregation state, and all
  (window, airport) rows compete for the one limit over all rows. When
  `top_n` is smaller than the number of such rows, some windows show no row.
- `limit(0)` is allowed and gives an empty result. A negative `top_n` makes
  Spark's `limit` fail, which the model returns as `Err(NegativeLimit)`.

## Model

| member | source | states |
|---|---|---|
| `Schema.HistoricalFields` | app/openflights.py:15-24 | the schema as built has nine fields and its last field is `Equipment` (string, nullable) |
| `Schema.StreamingVariantShape` | app/openflights.py:62-63 | dropping the last field and appending `datetime` keeps the field count, leaves every earlier field unchanged, and makes the last field the nullable timestamp `datetime` |
| `Schema.StreamingVariantIdempotent` | app/openflights.py:62-63 | rewriting a second time gives the same field list as rewriting once |
| `Schema.StreamingVariantOfRoutesSchema` | app/openflights.py:62-63 | from either shape of the routes schema, the rewrite gives the one streaming schema |
| `Schema.StreamingNames` | tests/test_openflights.py:30-31 | the stream's column names are `Airline` … `Stops`, then `datetime` |
| `Schema.DatetimeOnlyAfterRewrite` | app/openflights.py:123-124 | `Source_airport` always resolves; `datetime`, which the window is computed from, resolves exactly when the last field is `datetime` |
| `Ranking.CountIsMultiplicity` | app/openflights.py:44 | a group's count is the multiplicity of its key in the input, so input order does not matter |
| `Ranking.CountConcat` | app/openflights.py:89 | the count over two concatenated inputs is the sum of the counts |
| `Ranking.Distinct` | app/openflights.py:43 | the groups are exactly the keys of the input, each once |
| `Ranking.SortByCount` | app/openflights.py:45 | the ordered keys are the same keys, with no key repeated, in non-increasing order of count |
| `Ranking.TopNIsTopN` | app/openflights.py:43-46 | the computed result meets `IsTopN`: at most `n` rows; each count equals the number of input rows with that key; keys distinct; counts non-increasing; a key is left out only when the limit is reached, and then its count is no greater than any kept row's |
| `Ranking.TopNLength` | app/openflights.py:46 | every result has exactly min(`n`, number of distinct keys) rows; when it has fewer than `n`, it holds every key |
| `Ranking.TopNUniqueUpToTies` | app/openflights.py:45-46 | any two results for the same input and limit have the same length and the same count at every position |
| `Ranking.TopNUniqueWithoutTies` | app/openflights.py:45-46 | when no other key shares the count of an expected row, the result is exactly that row list |
| `Ranking.IsTopNOfMultiset` | app/openflights.py:88-93 | inputs with the same multiset of keys admit exactly the same results |
| `Windows.WindowOf` | app/openflights.py:123 | an event time is assigned a window `[s, s + 15)` that contains it, with `s` a multiple of 15 |
| `Windows.WindowOfUnique` | app/openflights.py:123 | an aligned 15-second window contains time `t` if and only if it is the window assigned to `t` |
| `Windows.NotInAdjacentWindow` | app/openflights.py:123 | an event is in neither the window before nor the window after its own |
| `App.CountColumns` | app/openflights.py:43-44 | `groupBy(...).count()` has the grouping columns followed by `count` when every grouping column is, spelled exactly, a field name of the schema, and otherwise fails naming a column that is not |
| `App.SourceCountColumns` | tests/test_openflights.py:17 | the batch and complete-mode results have exactly the columns (`Source_airport`, `count`) |
| `App.BatchTopN` | app/openflights.py:41-46 | fails exactly when `top_n` is negative; otherwise the result is a top-`top_n` ranking (`IsTopN`) of the source airports of all routes |
| `App.CompleteTopN` | app/openflights.py:87-93 | fails exactly when `top_n` is negative; otherwise there is one output per micro-batch, and output `i` is a top-`top_n` ranking of the source airports of every route in micro-batches `0..i` |
| `App.WindowedTopN` | app/openflights.py:122-130 | fails exactly when `top_n` is negative; otherwise output `i` is a top-`top_n` ranking of the (window, source airport) pairs of every event in micro-batches `0..i`, with one limit across all windows |
| `App.CompleteCountStep` | app/openflights.py:87-93 | after micro-batch `i` an airport's running count is its count before `i` plus its count in micro-batch `i` |
| `App.CompleteCountMonotone` | app/openflights.py:87-93 | running counts never decrease from one micro-batch to a later one |
| `App.CompleteRowsGrow` | app/openflights.py:87-93 | take any complete-mode outputs after micro-batches `i <= j`, whatever their tie order: an airport shown in both shows a count in the later output no smaller than in the earlier one |
| `App.CompleteIsBatchOfAccumulated` | app/openflights.py:87-93 | each complete-mode output has the same length and the same counts at every position as any result the batch query can give over all routes received so far |
| `App.WindowCountIsEventsIn` | app/openflights.py:123-125 | for an aligned window `w`, the count of (`w`, airport) equals the number of that airport's events whose time lies in `w` (an independent reference count) |
| `App.WindowedRowsCountEvents` | app/openflights.py:122-125 | every row of any windowed result over a set of events names an aligned 15-second window; its count is exactly the number of that airport's events inside the window, and at least 1 |
| `App.WindowedLimitIsOverall` | app/openflights.py:122-127 | a windowed output has min(`top_n`, number of distinct (window, airport) pairs over all windows) rows |
| `App.OpenFlights.constructor` | app/openflights.py:12-24 | the new object holds the nine-field schema ending in `Equipment` |
| `App.OpenFlights.ManipulateStreamingSchema` | app/openflights.py:55-63 | in place, the field list becomes the list with its last field dropped and `datetime` appended; nine fields; fields 0..7 unchanged; the result is the same whether or not the schema was rewritten before |
| `App.OpenFlights.CreateTopNSource` | app/openflights.py:26-53 | returns the batch query's result, a top-`top_n` ranking when `top_n` is not negative |
| `App.OpenFlights.StreamTopNSource` | app/openflights.py:78-97 | rewrites the schema to the streaming variant, then returns the complete-mode outputs |
| `App.OpenFlights.TopNStreamWindow` | app/openflights.py:112-133 | rewrites the schema, after which `datetime` and `Source_airport` both resolve, then returns the windowed outputs |
| `Scenarios.BatchScenario` | app/openflights.py:41-46 | source airports A, A, B, C, A, B with `top_n` 2 give exactly (A, 3), (B, 2) |
| `Scenarios.WindowedScenario` | app/openflights.py:122-127 | events A at 1 s, A at 3 s and B at 16 s with `top_n` 10 give exactly ([0, 15), A, 2), ([15, 30), B, 1) |
| `Scenarios.WindowedLimitSpansWindows` | app/openflights.py:126-127 | two windows with one airport each and `top_n` 1 give one row in all, not one per window |
| `Scenarios.CompleteScenario` | app/openflights.py:87-93 | two micro-batches of one A route each give (A, 1) and then (A, 2) |

## Left out

- Spark session construction, `local[4]` parallelism and the streaming engine (`readStream`, `writeStream`, `start`, `awaitTermination`, `foreachBatch`). These are library and concurrency machinery. A stream is modelled as the finite sequence of micro-batches it has processed.
- Fetching `routes.dat` from GitHub, `SparkFiles`, CSV parsing, and `cleanSource=delete`. These are network and file I/O. Routes arrive already parsed.
- Parquet writes, `df.show()`, the console sink and loguru logging. These are output only. So is the default output path `data/top_<n>_source_airport.parquet`.
- The order of rows with equal counts. `orderBy` does not fix it, so `IsTopN` accepts every tie order. `TopN` picks one order only to show that a result exists.
- Null column values. A null `Source_airport` would form its own group. A null or unparsable `datetime` would get no window. Every field is modelled as present.
- The `names` list that `StructType` keeps next to its fields. `fields.pop` does not update it. Only the field list, which the DataFrame columns come from, is modelled.
- Integer widths. Counts are 64-bit in Spark and unbounded here. A `top_n` beyond the JVM's 32-bit range is not modelled.
- Timestamps. In the model they are whole seconds. Spark uses microseconds, time zones and real-valued input.
- Window assignment before 1970. The model rounds an event time down to a multiple of 15 seconds, and does so for negative times too.
- App.CountColumns: column names match case-sensitively, while Spark's analyzer by default (`spark.sql.caseSensitive=false`) resolves a `groupBy` column name ignoring case. The program groups only by the exact name `Source_airport`, so no query result of the core depends on this.
- The default argument `top_n: int = 10` of `top_n_stream_window`. `App.OpenFlights.TopNStreamWindow` always takes `topN`, and `app/main.py` always passes `top_n`.
- `app/main.py` (flag parsing and dispatch) and `tests/test_openflights.py`. The tests are used only as evidence for properties.
