# sli-monitor counting pipeline, in Dafny

This project models the core of sli-monitor. sli-monitor is a worker that
probes configured URLs and counts how many probes were successful and how
many were fast. It keeps these counts in a SQLite table `slis` keyed by URL.
It reads the counts back as rates and checks them against configured
service level objectives (SLOs).

The model has four modules:

- `Wrappers` (wrappers.dfy): `Option` and `Result`, used for the Python
  exceptions and for SQL NULL.
- `Records` (records.dfy): the `Response` and `Slo` records, a table row
  (`Counters`), what a probe answers (`Probe`), one already-loaded
  configuration entry (`Entry`) and the document that holds the entries
  (`Document`).
- `Utils` (utils.dfy), the final pipeline of `utils.py`:
  - the classifier `ParseResponse`;
  - the `slis` table as the class `SliTable`, whose field `rows` is a
    `map<string, Counters>`. Its method `RecalculateSlis` runs the loop of
    `recalculate_slis`: one insert-or-ignore and one update per response.
    It is proved against the specification function `Recalculated`;
  - the rate read-out `GetSlosFromDb`;
  - the objective checks `IsFastEnough` and `IsSuccessfulEnough`, written as
    loops with an early return, like the source;
  - `ParseIntoSloList`, `GetSloUrls` and `DoRequests`.
- `Worker` (worker.dfy), the class `SloWorker` of `slo_worker.py`:
  - the refresh interval default;
  - the two loop variables of `start` (`last_read_config`, `slos`) and the
    reload gating between them;
  - one pass of the loop;
  - `daemonize`.

`slo_worker.py` repeats `parse_into_slo_list`, `do_requests` and
`get_slo_urls` from `utils.py` line for line (slo_worker.py:56-107). The
worker uses the `Utils` versions.

**Success and fast columns are swapped, as written.** `parse_response`
returns `(url, is_successful, is_fast)`. `recalculate_slis` unpacks that
triple as `(url, is_fast, is_successful)`. It then binds
`(is_successful, is_fast, url)` to the update. The net effect:

- `successful_responses` counts the FAST responses;
- `fast_responses` counts the SUCCESSFUL ones.

The model keeps this column assignment. `RecalculatedRow` and
`ColumnSwapExample` state it. The reporting page, which is not part of this
model, passes the `successful_responses` rate to `is_fast_enough`. That
reverses the swap again (index.py:12-14).

Two more behaviours, both as the code has them:

- **Objective lookup.** The loops of `is_fast_enough` and
  `is_successful_enough` return true when ANY objective with that URL is met.
  They do not look only at the first objective with that URL.
- **Division by zero in the read-out.** SQLite's integer division by zero
  gives NULL, not an error. `GetSlosFromDb` gives `None` there.

Timestamps are integers counted from the epoch. Only their order matters.
Latencies and thresholds are `real`.

## Model

| member | source | states |
|---|---|---|
| `Utils.ParseResponse` | utils.py:82-96 | The url is returned unchanged. A response is successful iff its status is in class 2xx, 3xx or 4xx, i.e. 200 to 499 inclusive. A response is fast iff its time is at most 100 ms. |
| `Utils.FastIsDownwardClosed` | utils.py:95 | Lowering the latency never turns a fast response slow. |
| `Utils.ClassifierBoundaries` | utils.py:94-95 | Statuses 200, 400, 429 and 499 are successful; 500 and 199 are not. Exactly 100 ms is fast; 100.1 ms is not. |
| `Utils.SliTable.constructor` | utils.py:156-157 | `CREATE TABLE IF NOT EXISTS` leaves an existing table as it is. |
| `Utils.SliTable.EnsureRow` | utils.py:110-121 | Insert-or-ignore. A url with no row gets the row (0, 0, 0). An existing row is never replaced. No row is removed. |
| `Utils.SliTable.RecordOutcome` | utils.py:122-132 | The update adds the two bits and 1 to the url's row. It changes no other row. It adds no row, so a url without a row changes nothing. |
| `Utils.SliTable.RecalculateSlis` | utils.py:99-133 | After the loop, the table is the old table folded through `Step`, the insert-then-update of one response, for each response in order. `Step` unpacks the classifier's triple as (url, is_fast, is_successful) and binds (is_successful, is_fast, url), as utils.py:109 and 131 do. The row invariant holds afterwards if it held before. |
| `Utils.RecalculatedRow` | utils.py:108-132 | After a batch, a url has a row iff it had one or the batch probes it. Each counter is the old value plus the batch's count for that url: successful gets the number of fast responses, fast gets the number of successful ones, total gets the number of probes. |
| `Utils.TallyBounds` | utils.py:125-127 | For every batch and url, the number of successful responses and the number of fast responses are each at most the number of probes of that url. The probe count is positive iff the url is in the batch. |
| `Utils.RecalculatedKeys` | utils.py:108-121 | The urls after a batch are the old urls plus the batch's urls. Each url of the batch has one row whose total grew by the number of times it occurs. |
| `Utils.RecalculatedFrame` | utils.py:128-129 | A url the batch does not probe keeps its row unchanged. It gains no row. |
| `Utils.RecalculatedNeverResets` | utils.py:110-121 | An existing row survives a batch, and none of its counters decreases. |
| `Utils.RecalculatedKeepsInvariant` | utils.py:118-127 | Every batch keeps successful <= total and fast <= total in every row. |
| `Utils.ColumnSwapExample` | utils.py:109-131 | As written, a 500 answered in 50 ms makes the new row (1, 0, 1), and a 200 answered in 150 ms makes it (0, 1, 1). |
| `Utils.InsertOrIgnoreIdempotent` | utils.py:110-132 | For every table, inserting a url twice equals inserting it once, and the keys become the old keys plus that url. One update after that adds exactly 1 to the url's total, which is then 1 for a url that had no row. |
| `Utils.TallyPermutation` | utils.py:108-132 | The per-url counts of a batch depend only on the multiset of its responses. |
| `Utils.RecalculatedOrderIndependent` | utils.py:108-132 | Two batches with the same responses in any order give the same table. |
| `Utils.SqlDivide` | utils.py:143 | Integer division gives NULL exactly when the divisor is 0. For a non-negative count over a positive total it is the floor quotient. |
| `Utils.GetSlosFromDb` | utils.py:136-145 | The read-out has one rate row per table row and no other. A rate is NULL exactly when that row's total is 0. |
| `Utils.RatesAreAllOrNothing` | utils.py:143 | Under the invariant, with total > 0, each rate is 1 when its counter equals the total and 0 otherwise. |
| `Utils.BatchRates` | utils.py:99-145 | After a batch on an empty table, every probed url has defined rates. The successful-column rate is 1 iff all its probes were fast. The fast-column rate is 1 iff all were successful. |
| `Utils.IsFastEnough` | utils.py:162-173 | True iff some configured objective has this url and the rate is at least its fast threshold. False when no objective has the url. |
| `Utils.IsSuccessfulEnough` | utils.py:176-187 | The same check against the successful threshold. |
| `Utils.ParseIntoSloList` | utils.py:29-48 | A document without `SLOs` fails with that key. Otherwise the result is one objective per entry, in order, copying the url and both thresholds. The parse succeeds iff every entry has all three keys. If it fails, the error is that of the first incomplete entry. |
| `Utils.SloFromEntry` | utils.py:43-46 | An entry gives an objective iff it has all three keys, and the objective copies the url and both thresholds. Otherwise the error names the first absent key in the order `url`, `successful-responses-SLO`, `fast-responses-SLO`, and every key before it is present. |
| `Utils.ExampleConfigRoundTrip` | test_slo_worker.py:41-53 | The test's document, one entry (`www.example.com`, 0.9, 0.9) under `SLOs`, parses to exactly the one objective with those values. |
| `Utils.GetSloUrls` | utils.py:70-79 | One url per objective, with length and order kept. |
| `Utils.DoRequests` | utils.py:51-67 | One response per url, in input order. Response i carries url i and what the i-th request answered. An empty input gives an empty list. |
| `Worker.SloWorker.constructor` | slo_worker.py:35-39 | The refresh time is 5 when no value is given, and exactly the given value otherwise. |
| `Worker.SloWorker.Start` | slo_worker.py:141-149 | Before its loop, `start` sets last-read to the epoch; `slos` is unbound until the first reload. The refresh time is unchanged. |
| `Worker.SloWorker.ReloadIfChanged` | slo_worker.py:141-150 | A reload happens only when last-read < last-modified (strict). A reload replaces the objectives wholesale and sets last-read to now. Otherwise both are unchanged. A failed load changes nothing and is returned. |
| `Worker.SloWorker.Iterate` | slo_worker.py:143-152 | One pass = gating step, then one request per configured url in configuration order. A load failure is returned as `ConfigFailed` with the state unchanged; in the source that exception leaves `start` and ends the worker, so no further pass follows. Using `slos` before any load is the unbound-variable error. |
| `Worker.SloWorker.Daemonize` | slo_worker.py:119-126 | Always fails with the not-implemented error. |
| `Worker.ReloadOnlyOnChange` | slo_worker.py:141-152 | On a fresh worker, the first pass loads a file modified after the epoch. A second pass, at any time `later` (unconstrained) and with the file unchanged since that load, keeps exactly the first pass's objectives, thresholds included, whatever the file would now give. The read time stays at the first load, and the second pass probes the same urls. |

## Left out

- The HTTP request and the clock in `do_requests` (utils.py:63-66, slo_worker.py:91-94) are the parameter `fetch`. It gives the status and time of the i-th request of a batch. `requests.get` raises on a network failure and nothing catches it, so failed probes are not modelled as responses.
- The YAML loader and the `float(...)` coercion (utils.py:41-46) are foreign code. The model starts from entries already loaded and coerced. Reading the file in `get_configurations` (utils.py:14-26, slo_worker.py:41-54) is the parameter `loaded` of `SloWorker.ReloadIfChanged` and `SloWorker.Iterate`. `is_fast_enough` and `is_successful_enough` re-read that file on every call. In the model they take the loaded objectives as a parameter.
- SQLite plumbing is not modelled: the connection and the cursors (utils.py:148-159, slo_worker.py:136-139) and `commit` (utils.py:133). `CREATE TABLE IF NOT EXISTS` is the `SliTable` constructor, which keeps the rows it is given. The table is a map, and a batch is applied as one change. The table in slo_worker.py has no primary key; the model uses the keyed table of utils.py:157.
- The read-out's row order is not modelled: the SELECT has no ORDER BY, so `GetSlosFromDb` gives a map keyed by url, not a list.
- Floating point is not modelled. Latencies and thresholds are reals compared exactly, with no rounding.
- Time zones are not modelled. slo_worker.py:144-150 compares a UTC modification time with the local `datetime.now()`; the model treats all timestamps as values on one scale.
- The worker process is not modelled: the endless `while True` loop (only one pass is), `time.sleep`, `print`, argparse, the `SLI_REFRESH_TIME` lookup, `KeyboardInterrupt` and `stop` (a `pass`). `os.getenv` returns a string or None; the model's refresh time is an optional integer.
- `recalculate_slis` in slo_worker.py:109-117 is a `pass`, and the worker's loop prints its responses instead of recording them. The model of the table is the one in utils.py.
- index.py (the web page) is presentation and is not part of this model.
- test_slo_worker.py is a network-dependent harness and is not modelled itself. Its assertions reappear as contracts: an empty url list gives an empty list and one url gives one response carrying the probe's status (`Utils.DoRequests`), and its configuration example is `Utils.ExampleConfigRoundTrip`.
- File-system failures are not modelled. `os.path.getmtime` (slo_worker.py:144-146) and `open` (slo_worker.py:53) raise when the configuration file is missing, and either ends `start`. In the model the modification time is a plain integer, and `ConfigError` has only the missing-key case.
- `IsFastEnough` and `IsSuccessfulEnough` take the rate as a real, so they cannot receive the NULL that `GetSlosFromDb` gives for a row with total 0. In the source, comparing such a NULL (None) rate with a threshold raises `TypeError` (utils.py:171, utils.py:185) once an objective names the url. After a batch on an empty table every row has a total of at least 1 and defined rates (`Utils.BatchRates`).
