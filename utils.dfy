/** The counting pipeline of the utility module: classifying one response,
    folding a batch of responses into the `slis` table, reading the rates
    back, checking them against the configured objectives, and the list
    transforms that feed the prober. */
module Utils {
  import opened Wrappers
  import opened Records

  // ---------------------------------------------------------------------
  // Classifier
  // ---------------------------------------------------------------------

  /** Latency bound, in milliseconds, at or below which a response is fast. */
  const FastThreshold: real := 100.0

  /** The HTTP status class of a code: 2 for 2xx, 4 for 4xx, and so on. */
  function StatusClass(status: int): int
  {
    status / 100
  }

  /** `parse_response`: the url, whether the response was successful and
      whether it was fast, in that order. Successful means a 2xx, 3xx or
      4xx status; only 5xx and codes outside 200..499 are failures. */
  function ParseResponse(response: Response): (parsed: (string, bool, bool))
    ensures parsed.0 == response.url
    ensures parsed.1 <==> StatusClass(response.status) in {2, 3, 4}
    ensures parsed.2 <==> response.time <= FastThreshold
  {
    (response.url, 200 <= response.status <= 499, response.time <= FastThreshold)
  }

  /** Speed is decided by the latency alone, and a quicker response is never
      slower: fastness is closed under lowering the round-trip time. */
  lemma FastIsDownwardClosed(quick: Response, slow: Response)
    requires quick.time <= slow.time
    ensures ParseResponse(slow).2 ==> ParseResponse(quick).2
  {
  }

  /** The boundaries: 4xx codes are successful, 500 and 199 are not;
      exactly 100 ms is fast and anything above it is not. */
  lemma ClassifierBoundaries(url: string)
    ensures ParseResponse(Response(url, 200, 0.0)).1 && ParseResponse(Response(url, 400, 0.0)).1
    ensures ParseResponse(Response(url, 429, 0.0)).1 && ParseResponse(Response(url, 499, 0.0)).1
    ensures !ParseResponse(Response(url, 500, 0.0)).1 && !ParseResponse(Response(url, 199, 0.0)).1
    ensures ParseResponse(Response(url, 200, 100.0)).2 && !ParseResponse(Response(url, 200, 100.1)).2
  {
  }

  // ---------------------------------------------------------------------
  // The slis table
  // ---------------------------------------------------------------------

  /** The row `INSERT OR IGNORE` writes for a new url. */
  const EmptyRow := Counters(0, 0, 0)

  /** Python's sqlite binding stores True as 1 and False as 0. */
  function Bit(b: bool): nat
  {
    if b then 1 else 0
  }

  /** The row a url has in the table, or the zero row where it has none. */
  function Row(rows: map<string, Counters>, url: string): Counters
  {
    if url in rows then rows[url] else EmptyRow
  }

  /** The per-row invariant: neither counter exceeds the total. */
  predicate RowInvariant(c: Counters)
  {
    c.successfulResponses <= c.totalResponses && c.fastResponses <= c.totalResponses
  }

  predicate TableInvariant(rows: map<string, Counters>)
  {
    forall url :: url in rows ==> RowInvariant(rows[url])
  }

  /** `INSERT OR IGNORE INTO slis ... VALUES (url, 0, 0, 0)`: the primary key
      makes the insert a no-op when the url already has a row. */
  function InsertOrIgnore(rows: map<string, Counters>, url: string): map<string, Counters>
  {
    if url in rows then rows else rows[url := EmptyRow]
  }

  /** `UPDATE slis SET successful_responses = successful_responses + ?,
      fast_responses = fast_responses + ?, total_responses = total_responses + 1
      WHERE url = ?`, bound to (successful, fast, url). No row matches a url
      without one, and then nothing changes. */
  function Increment(rows: map<string, Counters>, successful: bool, fast: bool, url: string): map<string, Counters>
  {
    if url in rows then
      var c := rows[url];
      rows[url := Counters(c.successfulResponses + Bit(successful),
                           c.fastResponses + Bit(fast),
                           c.totalResponses + 1)]
    else
      rows
  }

  /** One pass of the loop of `recalculate_slis`. The triple that
      `ParseResponse` returns as (url, successful, fast) is unpacked as
      (url, is_fast, is_successful), so the name `isSuccessful` below holds
      the fast bit, and binding (is_successful, is_fast, url) sends the fast
      bit to `successful_responses` and the success bit to `fast_responses`. */
  function Step(rows: map<string, Counters>, response: Response): map<string, Counters>
  {
    var (url, isFast, isSuccessful) := ParseResponse(response);
    Increment(InsertOrIgnore(rows, url), isSuccessful, isFast, url)
  }

  /** The table after the loop of `recalculate_slis` has run over `responses`
      in order. */
  function Recalculated(rows: map<string, Counters>, responses: seq<Response>): map<string, Counters>
    decreases |responses|
  {
    if responses == [] then rows
    else
      var n := |responses| - 1;
      Step(Recalculated(rows, responses[..n]), responses[n])
  }

  /** Reference counts of a batch for one url, by the classification rules
      stated directly: how many responses probe it, how many of those have a
      status in 200..499, and how many took at most 100 ms. */
  datatype Tally = Tally(successes: nat, fasts: nat, probes: nat)

  function TallyOf(responses: seq<Response>, url: string): Tally
    decreases |responses|
  {
    if responses == [] then Tally(0, 0, 0)
    else
      var n := |responses| - 1;
      var t := TallyOf(responses[..n], url);
      var r := responses[n];
      if r.url != url then t
      else Tally(t.successes + (if 200 <= r.status <= 499 then 1 else 0),
                 t.fasts + (if r.time <= 100.0 then 1 else 0),
                 t.probes + 1)
  }

  /** The set of urls a batch probes. */
  function UrlsOf(responses: seq<Response>): set<string>
  {
    set i | 0 <= i < |responses| :: responses[i].url
  }

  /** The exact effect of a batch on each url: the url has a row afterwards
      iff it had one or the batch probes it; every counter grows from the old
      row (or from zero) by the batch's count for that url, where, as
      written, `successful_responses` grows by the number of FAST responses
      and `fast_responses` by the number of SUCCESSFUL ones. */
  lemma {:induction false} RecalculatedRow(rows: map<string, Counters>, responses: seq<Response>, url: string)
    ensures url in Recalculated(rows, responses) <==> url in rows || TallyOf(responses, url).probes > 0
    ensures var before, t := Row(rows, url), TallyOf(responses, url);
            Row(Recalculated(rows, responses), url)
            == Counters(before.successfulResponses + t.fasts,
                        before.fastResponses + t.successes,
                        before.totalResponses + t.probes)
    decreases |responses|
  {
    if responses != [] {
      var n := |responses| - 1;
      RecalculatedRow(rows, responses[..n], url);
    }
  }

  /** For every batch and url, neither the number of successful responses
      nor the number of fast ones exceeds the number of probes of that url,
      and the url has probes iff the batch contains it. */
  lemma {:induction false} TallyBounds(responses: seq<Response>, url: string)
    ensures TallyOf(responses, url).successes <= TallyOf(responses, url).probes
    ensures TallyOf(responses, url).fasts <= TallyOf(responses, url).probes
    ensures TallyOf(responses, url).probes > 0 <==> url in UrlsOf(responses)
    decreases |responses|
  {
    if responses != [] {
      var n := |responses| - 1;
      TallyBounds(responses[..n], url);
      assert UrlsOf(responses) == UrlsOf(responses[..n]) + {responses[n].url} by {
        forall u | u in UrlsOf(responses) ensures u in UrlsOf(responses[..n]) + {responses[n].url} {
          var i :| 0 <= i < |responses| && responses[i].url == u;
          if i < n { assert responses[..n][i] == responses[i]; }
        }
        forall u | u in UrlsOf(responses[..n]) ensures u in UrlsOf(responses) {
          var i :| 0 <= i < n && responses[..n][i].url == u;
          assert responses[i] == responses[..n][i];
        }
      }
    }
  }

  /** After a batch the table's urls are the old ones plus every url of the
      batch, and each url of the batch has exactly one row whose total grew
      by the number of times the url occurs. */
  lemma {:induction false} RecalculatedKeys(rows: map<string, Counters>, responses: seq<Response>)
    ensures Recalculated(rows, responses).Keys == rows.Keys + UrlsOf(responses)
    ensures forall url :: url in UrlsOf(responses) ==>
              Recalculated(rows, responses)[url].totalResponses
              == Row(rows, url).totalResponses + TallyOf(responses, url).probes
  {
    var after := Recalculated(rows, responses);
    forall url | url in after.Keys || url in rows.Keys + UrlsOf(responses)
      ensures url in after.Keys <==> url in rows.Keys + UrlsOf(responses)
    {
      RecalculatedRow(rows, responses, url);
      TallyBounds(responses, url);
    }
    forall url | url in UrlsOf(responses)
      ensures after[url].totalResponses == Row(rows, url).totalResponses + TallyOf(responses, url).probes
    {
      RecalculatedRow(rows, responses, url);
      TallyBounds(responses, url);
    }
  }

  /** Rows of urls the batch does not probe are untouched, and no url left
      out of the batch gains a row. */
  lemma {:induction false} RecalculatedFrame(rows: map<string, Counters>, responses: seq<Response>, url: string)
    requires url !in UrlsOf(responses)
    ensures url in Recalculated(rows, responses) <==> url in rows
    ensures url in rows ==> Recalculated(rows, responses)[url] == rows[url]
  {
    RecalculatedRow(rows, responses, url);
    TallyBounds(responses, url);
  }

  /** Insert-or-ignore never resets a row: every counter of an existing row
      is at least what it was. */
  lemma {:induction false} RecalculatedNeverResets(rows: map<string, Counters>, responses: seq<Response>, url: string)
    requires url in rows
    ensures url in Recalculated(rows, responses)
    ensures Recalculated(rows, responses)[url].successfulResponses >= rows[url].successfulResponses
    ensures Recalculated(rows, responses)[url].fastResponses >= rows[url].fastResponses
    ensures Recalculated(rows, responses)[url].totalResponses >= rows[url].totalResponses
  {
    RecalculatedRow(rows, responses, url);
  }

  /** Every batch preserves the table invariant. */
  lemma {:induction false} RecalculatedKeepsInvariant(rows: map<string, Counters>, responses: seq<Response>)
    requires TableInvariant(rows)
    ensures TableInvariant(Recalculated(rows, responses))
  {
    var after := Recalculated(rows, responses);
    forall url | url in after ensures RowInvariant(after[url]) {
      RecalculatedRow(rows, responses, url);
      TallyBounds(responses, url);
    }
  }

  /** A batch of one response to a url with no row: the fast bit lands in
      `successful_responses` and the success bit in `fast_responses`. A quick
      500 thus counts as a successful but not a fast response. */
  lemma ColumnSwapExample(rows: map<string, Counters>, url: string)
    requires url !in rows
    ensures Recalculated(rows, [Response(url, 500, 50.0)])[url] == Counters(1, 0, 1)
    ensures Recalculated(rows, [Response(url, 200, 150.0)])[url] == Counters(0, 1, 1)
  {
    assert [Response(url, 500, 50.0)][..0] == [];
    assert [Response(url, 200, 150.0)][..0] == [];
  }

  /** Creating a row twice is creating it once and leaves one row for the
      url; one update after that adds exactly one to its total, which is
      then one for a url that had no row. */
  lemma InsertOrIgnoreIdempotent(rows: map<string, Counters>, url: string, successful: bool, fast: bool)
    ensures InsertOrIgnore(InsertOrIgnore(rows, url), url) == InsertOrIgnore(rows, url)
    ensures InsertOrIgnore(InsertOrIgnore(rows, url), url).Keys == rows.Keys + {url}
    ensures var after := Increment(InsertOrIgnore(InsertOrIgnore(rows, url), url), successful, fast, url);
            url in after && after.Keys == rows.Keys + {url} &&
            after[url].totalResponses == Row(rows, url).totalResponses + 1
    ensures url !in rows ==>
              Increment(InsertOrIgnore(InsertOrIgnore(rows, url), url), successful, fast, url)[url].totalResponses == 1
  {
  }

  /** The sum of two tallies, field by field. */
  function Plus(a: Tally, b: Tally): Tally
  {
    Tally(a.successes + b.successes, a.fasts + b.fasts, a.probes + b.probes)
  }

  /** Splitting a batch splits its tally. */
  lemma {:induction false} TallyAppend(front: seq<Response>, back: seq<Response>, url: string)
    ensures TallyOf(front + back, url) == Plus(TallyOf(front, url), TallyOf(back, url))
    decreases |back|
  {
    if back != [] {
      var n := |back| - 1;
      assert (front + back)[..|front| + n] == front + back[..n];
      TallyAppend(front, back[..n], url);
    } else {
      assert front + back == front;
    }
  }

  /** Taking one response out of a batch takes its tally out too. */
  lemma TallyRemove(responses: seq<Response>, k: nat, url: string)
    requires k < |responses|
    ensures multiset(responses) == multiset(responses[..k] + responses[k + 1..]) + multiset{responses[k]}
    ensures TallyOf(responses, url)
            == Plus(TallyOf(responses[..k] + responses[k + 1..], url), TallyOf([responses[k]], url))
  {
    var front, back := responses[..k], responses[k + 1..];
    assert responses == front + [responses[k]] + back;
    TallyAppend(front + [responses[k]], back, url);
    TallyAppend(front, [responses[k]], url);
    TallyAppend(front, back, url);
  }

  /** The tally of a batch does not depend on the order of its responses. */
  lemma {:induction false} TallyPermutation(responses: seq<Response>, reordered: seq<Response>, url: string)
    requires multiset(responses) == multiset(reordered)
    ensures TallyOf(responses, url) == TallyOf(reordered, url)
    decreases |responses|
  {
    if responses == [] {
      assert |reordered| == |multiset(reordered)| == 0;
    } else {
      var n := |responses| - 1;
      var last := responses[n];
      assert last in multiset(reordered);
      var k :| 0 <= k < |reordered| && reordered[k] == last;
      var rest := reordered[..k] + reordered[k + 1..];
      TallyRemove(reordered, k, url);
      TallyRemove(responses, n, url);
      assert responses[..n] + responses[n + 1..] == responses[..n];
      assert multiset(responses[..n]) == multiset(rest) by {
        assert multiset(responses[..n]) + multiset{last} == multiset(rest) + multiset{last};
        assert multiset(responses[..n]) == multiset(responses[..n]) + multiset{last} - multiset{last};
        assert multiset(rest) == multiset(rest) + multiset{last} - multiset{last};
      }
      TallyPermutation(responses[..n], rest, url);
    }
  }

  /** The increments commute: a batch in any order yields the same table. */
  lemma {:induction false} RecalculatedOrderIndependent(rows: map<string, Counters>, responses: seq<Response>, reordered: seq<Response>)
    requires multiset(responses) == multiset(reordered)
    ensures Recalculated(rows, responses) == Recalculated(rows, reordered)
  {
    var a, b := Recalculated(rows, responses), Recalculated(rows, reordered);
    forall url | url in a.Keys + b.Keys ensures url in a && url in b && a[url] == b[url] {
      RecalculatedRow(rows, responses, url);
      RecalculatedRow(rows, reordered, url);
      TallyPermutation(responses, reordered, url);
    }
    assert a.Keys == b.Keys;
  }

  /** The `slis` table of a connection, with `url` as primary key. */
  class SliTable {
    var rows: map<string, Counters>

    /** `CREATE TABLE IF NOT EXISTS`: an existing table is kept as it is. */
    constructor (existing: map<string, Counters>)
      ensures rows == existing
    {
      rows := existing;
    }

    /** The first statement of the loop body. */
    method EnsureRow(url: string)
      modifies this
      ensures rows == InsertOrIgnore(old(rows), url)
      ensures url in rows && old(rows).Keys <= rows.Keys
    {
      if url !in rows {
        rows := rows[url := EmptyRow];
      }
    }

    /** The second statement of the loop body. */
    method RecordOutcome(successful: bool, fast: bool, url: string)
      modifies this
      ensures rows == Increment(old(rows), successful, fast, url)
      ensures rows.Keys == old(rows).Keys
    {
      if url in rows {
        var c := rows[url];
        rows := rows[url := Counters(c.successfulResponses + Bit(successful),
                                     c.fastResponses + Bit(fast),
                                     c.totalResponses + 1)];
      }
    }

    /** `recalculate_slis`: applies the batch response by response, each as
        an insert-or-ignore followed by the update; the single commit at the
        end makes the batch visible as one change. */
    method RecalculateSlis(responses: seq<Response>)
      modifies this
      ensures rows == Recalculated(old(rows), responses)
      ensures TableInvariant(old(rows)) ==> TableInvariant(rows)
    {
      var i := 0;
      while i < |responses|
        invariant 0 <= i <= |responses|
        invariant rows == Recalculated(old(rows), responses[..i])
      {
        var (url, isFast, isSuccessful) := ParseResponse(responses[i]);
        EnsureRow(url);
        RecordOutcome(isSuccessful, isFast, url);
        assert responses[..i + 1][..i] == responses[..i];
        i := i + 1;
      }
      assert responses[..i] == responses;
      if TableInvariant(old(rows)) {
        RecalculatedKeepsInvariant(old(rows), responses);
      }
    }
  }

  // ---------------------------------------------------------------------
  // Rate read-out
  // ---------------------------------------------------------------------

  /** One row of `SELECT url, successful_responses/total_responses,
      fast_responses/total_responses FROM slis`; a rate is NULL (None)
      where SQLite divides by zero. */
  datatype RateRow = RateRow(successfulRate: Option<int>, fastRate: Option<int>)

  function Abs(x: int): nat
  {
    if x < 0 then -x else x
  }

  /** SQLite's `/` on two integers: NULL for a zero divisor, otherwise the
      quotient truncated toward zero. */
  function SqlDivide(a: int, b: int): (q: Option<int>)
    ensures q == None <==> b == 0
    ensures 0 <= a && 0 < b ==> q == Some(a / b)
  {
    if b == 0 then None
    else
      var m := Abs(a) / Abs(b);
      Some(if (a < 0) == (b < 0) then m else -m)
  }

  /** `get_slos_from_db`: one rate row per table row. */
  function GetSlosFromDb(rows: map<string, Counters>): (rates: map<string, RateRow>)
    ensures rates.Keys == rows.Keys
    ensures forall url :: url in rates ==>
              (rates[url].successfulRate == None <==> rows[url].totalResponses == 0) &&
              (rates[url].fastRate == None <==> rows[url].totalResponses == 0)
  {
    map url | url in rows ::
      RateRow(SqlDivide(rows[url].successfulResponses, rows[url].totalResponses),
              SqlDivide(rows[url].fastResponses, rows[url].totalResponses))
  }

  /** Integer division of a count by a larger-or-equal total is 1 exactly
      when they are equal and 0 otherwise. */
  lemma CountOverTotal(count: nat, total: nat)
    requires count <= total && 0 < total
    ensures count / total == if count == total then 1 else 0
  {
    if count < total {
      assert count / total == 0;
    }
  }

  /** Under the invariant, each rate of a row with a non-zero total is 1
      exactly when its counter equals the total and 0 otherwise. */
  lemma RatesAreAllOrNothing(rows: map<string, Counters>, url: string)
    requires url in rows && RowInvariant(rows[url]) && rows[url].totalResponses > 0
    ensures var c := rows[url];
            GetSlosFromDb(rows)[url]
            == RateRow(Some(if c.successfulResponses == c.totalResponses then 1 else 0),
                       Some(if c.fastResponses == c.totalResponses then 1 else 0))
  {
    var c := rows[url];
    CountOverTotal(c.successfulResponses, c.totalResponses);
    CountOverTotal(c.fastResponses, c.totalResponses);
  }

  /** After a batch, every url the batch probed reads back defined rates:
      its `successful_responses` rate is 1 iff all its probes were fast and
      its `fast_responses` rate is 1 iff all were successful (as written). */
  lemma BatchRates(responses: seq<Response>, url: string)
    requires url in UrlsOf(responses)
    ensures var t := TallyOf(responses, url);
            url in GetSlosFromDb(Recalculated(map[], responses)) &&
            GetSlosFromDb(Recalculated(map[], responses))[url]
            == RateRow(Some(if t.fasts == t.probes then 1 else 0),
                       Some(if t.successes == t.probes then 1 else 0))
  {
    var after := Recalculated(map[], responses);
    RecalculatedRow(map[], responses, url);
    TallyBounds(responses, url);
    RatesAreAllOrNothing(after, url);
  }

  // ---------------------------------------------------------------------
  // Objective check
  // ---------------------------------------------------------------------

  /** `is_fast_enough`: true iff SOME configured objective names the url
      and the rate reaches its fast-responses threshold (not only the first
      objective with that url); false when no objective names the url. */
  method IsFastEnough(url: string, rate: real, slos: seq<Slo>) returns (enough: bool)
    ensures enough <==> exists i :: 0 <= i < |slos| && slos[i].url == url && rate >= slos[i].fastResponses
  {
    for i := 0 to |slos|
      invariant forall j :: 0 <= j < i ==> !(slos[j].url == url && rate >= slos[j].fastResponses)
    {
      if slos[i].url == url && rate >= slos[i].fastResponses {
        return true;
      }
    }
    return false;
  }

  /** `is_successful_enough`: the same check against the
      successful-responses threshold. */
  method IsSuccessfulEnough(url: string, rate: real, slos: seq<Slo>) returns (enough: bool)
    ensures enough <==> exists i :: 0 <= i < |slos| && slos[i].url == url && rate >= slos[i].successfulResponses
  {
    for i := 0 to |slos|
      invariant forall j :: 0 <= j < i ==> !(slos[j].url == url && rate >= slos[j].successfulResponses)
    {
      if slos[i].url == url && rate >= slos[i].successfulResponses {
        return true;
      }
    }
    return false;
  }

  // ---------------------------------------------------------------------
  // Configuration and probing
  // ---------------------------------------------------------------------

  /** The keys of an entry in the order the objective's constructor reads them. */
  const EntryKeys := [UrlKey, SuccessfulKey, FastKey]

  /** Whether an entry has the key at position `k` of `EntryKeys`. */
  predicate HasKey(entry: Entry, k: nat)
    requires k < |EntryKeys|
  {
    if k == 0 then entry.url.Some?
    else if k == 1 then entry.successfulSlo.Some?
    else entry.fastSlo.Some?
  }

  /** Builds one objective from one entry, reading the keys in the order
      `url`, `successful-responses-SLO`, `fast-responses-SLO`; the first
      absent key is the `KeyError` raised. */
  function SloFromEntry(entry: Entry): (r: Result<Slo, ConfigError>)
    ensures r.Success? <==> forall k :: 0 <= k < |EntryKeys| ==> HasKey(entry, k)
    ensures r.Success? ==>
              entry.url.Some? && entry.successfulSlo.Some? && entry.fastSlo.Some? &&
              r.value.url == entry.url.value &&
              r.value.successfulResponses == entry.successfulSlo.value &&
              r.value.fastResponses == entry.fastSlo.value
    ensures r.Failure? ==>
              exists k :: 0 <= k < |EntryKeys| && r.error == MissingKey(EntryKeys[k]) &&
                          !HasKey(entry, k) && forall j :: 0 <= j < k ==> HasKey(entry, j)
  {
    if entry.url.None? then
      assert EntryKeys[0] == UrlKey && !HasKey(entry, 0);
      Failure(MissingKey(UrlKey))
    else if entry.successfulSlo.None? then
      assert EntryKeys[1] == SuccessfulKey && HasKey(entry, 0) && !HasKey(entry, 1);
      Failure(MissingKey(SuccessfulKey))
    else if entry.fastSlo.None? then
      assert EntryKeys[2] == FastKey && HasKey(entry, 0) && HasKey(entry, 1) && !HasKey(entry, 2);
      Failure(MissingKey(FastKey))
    else Success(Slo(entry.url.value, entry.successfulSlo.value, entry.fastSlo.value))
  }

  /** `parse_into_slo_list`: one objective per entry under `SLOs`, in order,
      each copying the url and both thresholds. A document without `SLOs`
      fails with that key; otherwise the first entry missing a key stops the
      parse with that entry's error. */
  method ParseIntoSloList(document: Document) returns (r: Result<seq<Slo>, ConfigError>)
    ensures SlosKey !in document ==> r == Failure(MissingKey(SlosKey))
    ensures SlosKey in document ==>
              var entries := document[SlosKey];
              (r.Success? <==> forall i :: 0 <= i < |entries| ==> SloFromEntry(entries[i]).Success?)
    ensures SlosKey in document && r.Success? ==>
              var entries := document[SlosKey];
              |r.value| == |entries| &&
              forall i :: 0 <= i < |entries| ==> SloFromEntry(entries[i]) == Success(r.value[i])
    ensures SlosKey in document && r.Failure? ==>
              var entries := document[SlosKey];
              exists k :: 0 <= k < |entries| && SloFromEntry(entries[k]) == Failure(r.error) &&
                          forall j :: 0 <= j < k ==> SloFromEntry(entries[j]).Success?
  {
    if SlosKey !in document {
      return Failure(MissingKey(SlosKey));
    }
    var entries := document[SlosKey];
    var slos: seq<Slo> := [];
    for i := 0 to |entries|
      invariant |slos| == i
      invariant forall j :: 0 <= j < i ==> SloFromEntry(entries[j]) == Success(slos[j])
    {
      var slo := SloFromEntry(entries[i]);
      if slo.Failure? {
        return Failure(slo.error);
      }
      slos := slos + [slo.value];
    }
    return Success(slos);
  }

  /** The configuration test: a document with one entry under `SLOs` for
      `www.example.com` with both thresholds 0.9 parses to exactly that
      one objective. */
  method ExampleConfigRoundTrip() returns (slos: Result<seq<Slo>, ConfigError>)
    ensures slos == Success([Slo("www.example.com", 0.9, 0.9)])
  {
    var entry := Entry(Some("www.example.com"), Some(0.9), Some(0.9));
    slos := ParseIntoSloList(map[SlosKey := [entry]]);
    assert SloFromEntry(entry).Success?;
    assert slos.Success?;
    assert SloFromEntry(entry) == Success(slos.value[0]);
    assert slos.value == [slos.value[0]];
  }

  /** `get_slo_urls`: the url of each objective, one per objective, in order. */
  function GetSloUrls(slos: seq<Slo>): (urls: seq<string>)
    ensures |urls| == |slos|
    ensures forall i :: 0 <= i < |slos| ==> urls[i] == slos[i].url
  {
    if slos == [] then [] else [slos[0].url] + GetSloUrls(slos[1..])
  }

  /** `do_requests`: one response per url, in input order, carrying that url
      and what the `i`-th request of the batch answered. The HTTP call and
      the clock are the parameter `fetch`. */
  method DoRequests(urls: seq<string>, fetch: (nat, string) -> Probe) returns (responses: seq<Response>)
    ensures |responses| == |urls|
    ensures forall i :: 0 <= i < |urls| ==>
              responses[i] == Response(urls[i], fetch(i, urls[i]).status, fetch(i, urls[i]).time)
  {
    responses := [];
    for i := 0 to |urls|
      invariant |responses| == i
      invariant forall j :: 0 <= j < i ==>
                  responses[j] == Response(urls[j], fetch(j, urls[j]).status, fetch(j, urls[j]).time)
    {
      var probe := fetch(i, urls[i]);
      responses := responses + [Response(urls[i], probe.status, probe.time)];
    }
  }
}
