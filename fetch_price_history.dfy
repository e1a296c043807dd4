/**
 * The historical price fetcher (scripts/fetch_price_history.py): finding an instrument in
 * the catalogue, choosing a chunk size, splitting a date range into request windows, and
 * upserting the returned bars keyed by instrument, interval and timestamp.
 */
module FetchPriceHistory {
  import opened Wrappers
  import opened Text

  // ---------------------------------------------------------------- resolve_instrument

  /** A catalogue field: missing, present as `None`, or a text. */
  datatype Field = Absent | Null | Str(s: string)

  /** `str(item.get(key, ""))` */
  function FieldText(f: Field): string {
    match f
    case Absent => ""
    case Null => "None"
    case Str(s) => s
  }

  /** `item.get(key)` compared with a text: a missing key reads as `None`. */
  predicate FieldIs(f: Field, s: string) {
    f == Str(s)
  }

  datatype CatalogueItem = CatalogueItem(
    instrumentToken: int, tradingsymbol: Field, name: Field, segment: Field, exchange: Field)

  /**
   * Whether an item is a candidate: the upper-cased identifier equals the upper-cased
   * trading symbol or name; a given segment must be equal; a given exchange must be equal
   * unless the item's exchange is missing, `None` or empty.
   */
  predicate Matches(item: CatalogueItem, identifier: string, segment: Option<string>, exchange: Option<string>) {
    var id := Upper(identifier);
    && (id == Upper(FieldText(item.tradingsymbol)) || id == Upper(FieldText(item.name)))
    && (segment.None? || segment.value == [] || FieldIs(item.segment, segment.value))
    && (exchange.None? || exchange.value == [] || item.exchange.Absent? || item.exchange.Null?
        || FieldIs(item.exchange, []) || FieldIs(item.exchange, exchange.value))
  }

  function NotFound(identifier: string): string {
    "Instrument '" + identifier + "' not found. Try specifying --segment/--exchange "
    + "or provide the instrument token directly."
  }

  /** Whether `i` is the first candidate of the catalogue. */
  predicate MatchesBefore(catalogue: seq<CatalogueItem>, identifier: string,
                          segment: Option<string>, exchange: Option<string>, i: int) {
    && 0 <= i < |catalogue|
    && Matches(catalogue[i], identifier, segment, exchange)
    && forall j :: 0 <= j < i ==> !Matches(catalogue[j], identifier, segment, exchange)
  }

  /** Whether `item` is the first candidate of the catalogue. */
  predicate FirstMatch(catalogue: seq<CatalogueItem>, identifier: string,
                       segment: Option<string>, exchange: Option<string>, item: CatalogueItem) {
    exists i :: 0 <= i < |catalogue| && MatchesBefore(catalogue, identifier, segment, exchange, i) && catalogue[i] == item
  }

  /** `resolve_instrument`: all the candidates in catalogue order, then the first of them. */
  method ResolveInstrument(catalogue: seq<CatalogueItem>, identifier: string,
                           segment: Option<string>, exchange: Option<string>)
    returns (r: Result<CatalogueItem, string>)
    ensures r.Failure? <==> forall i :: 0 <= i < |catalogue| ==> !Matches(catalogue[i], identifier, segment, exchange)
    ensures r.Failure? ==> r.error == NotFound(identifier)
    ensures r.Success? ==> FirstMatch(catalogue, identifier, segment, exchange, r.value)
  {
    var matches: seq<CatalogueItem> := [];
    ghost var first := 0;
    var i := 0;
    while i < |catalogue|
      invariant 0 <= i <= |catalogue|
      invariant matches == [] ==> forall j :: 0 <= j < i ==> !Matches(catalogue[j], identifier, segment, exchange)
      invariant matches != [] ==> (0 <= first < i && catalogue[first] == matches[0] && MatchesBefore(catalogue, identifier, segment, exchange, first))
    {
      var m := Matches(catalogue[i], identifier, segment, exchange);
      if m {
        if matches == [] {
          first := i;
        }
        matches := matches + [catalogue[i]];
      }
      i := i + 1;
    }
    if matches == [] {
      return Failure(NotFound(identifier));
    }
    r := Success(matches[0]);
  }

  lemma UpperIdempotent(s: string)
    ensures Upper(Upper(s)) == Upper(s)
  {
    assert forall c :: UpperChar(UpperChar(c)) == UpperChar(c);
  }

  /** Matching ignores the case of the identifier: its upper-cased form matches the same items. */
  lemma MatchesIgnoresCase(item: CatalogueItem, identifier: string, segment: Option<string>, exchange: Option<string>)
    ensures Matches(item, Upper(identifier), segment, exchange) == Matches(item, identifier, segment, exchange)
  {
    UpperIdempotent(identifier);
  }

  // ---------------------------------------------------------------- resolve_chunk_days

  /** The default chunk size per interval, in days; other intervals get 120. */
  function DefaultChunkDays(interval: string): (days: int)
    ensures days > 0
  {
    if interval == "minute" then 30
    else if interval == "3minute" then 60
    else if interval == "5minute" then 90
    else if interval == "10minute" then 120
    else if interval == "15minute" then 150
    else if interval == "day" then 365
    else 120
  }

  /** `resolve_chunk_days`: a positive override, else the default for the lower-cased interval. */
  function ResolveChunkDays(interval: string, override: Option<int>): int {
    if override.Some? && override.value > 0 then override.value else DefaultChunkDays(Lower(interval))
  }

  /** The chunk size is always positive, a positive override wins, and the interval's case does not matter. */
  lemma ResolveChunkDaysSpec(interval: string, override: Option<int>)
    ensures ResolveChunkDays(interval, override) > 0
    ensures override.Some? && override.value > 0 ==> ResolveChunkDays(interval, override) == override.value
    ensures (override.None? || override.value <= 0) && Lower(interval) == "day" ==> ResolveChunkDays(interval, override) == 365
    ensures ResolveChunkDays(Upper(interval), override) == ResolveChunkDays(interval, override)
  {
    assert Lower(Upper(interval)) == Lower(interval) by {
      assert forall c :: LowerChar(UpperChar(c)) == LowerChar(c);
    }
  }

  // ---------------------------------------------------------------- historical_data_chunked

  /** Time is counted in microseconds, the resolution of a Python `datetime`. */
  const Minute: int := 60 * 1000000
  const Day: int := 1440 * Minute

  datatype Window = Window(start: int, end: int)

  function Min(a: int, b: int): int { if a <= b then a else b }

  /**
   * The request windows from `start` to `stop`: each ends a chunk later or at `stop`, and the
   * next one starts a minute after the previous end; the window that reaches `stop` is the last.
   */
  function Windows(start: int, stop: int, delta: nat): seq<Window>
    decreases stop - start
  {
    if start >= stop then []
    else if start + delta >= stop then [Window(start, stop)]
    else [Window(start, start + delta)] + Windows(start + delta + Minute, stop, delta)
  }

  /** The batches of all the windows, concatenated in request order. */
  function Fetched<C>(fetch: (int, int) -> seq<C>, windows: seq<Window>): seq<C> {
    if windows == [] then [] else fetch(windows[0].start, windows[0].end) + Fetched(fetch, windows[1..])
  }

  /**
   * `historical_data_chunked`: the request loop. The chunk length must not be negative
   * (a negative one moves the start backwards and the loop never ends).
   */
  method HistoricalDataChunked<C>(fetch: (int, int) -> seq<C>, fromDate: int, toDate: int, chunkDays: int)
    returns (results: seq<C>)
    requires chunkDays >= 0
    ensures results == Fetched(fetch, Windows(fromDate, toDate, chunkDays * Day))
  {
    var delta: nat := chunkDays * Day;
    ghost var all := Fetched(fetch, Windows(fromDate, toDate, delta));
    results := [];
    var current := fromDate;
    var done := false;
    while !done && current < toDate
      invariant done ==> results == all
      invariant !done ==> results + Fetched(fetch, Windows(current, toDate, delta)) == all
      decreases if done || current >= toDate then 0 else toDate - current + 1
    {
      var end := Min(current + delta, toDate);
      var batch := fetch(current, end);
      assert Windows(current, toDate, delta)[0] == Window(current, end);
      results := results + batch;
      if end == toDate {
        done := true;
      } else {
        current := end + Minute;
      }
    }
  }

  /** Whether consecutive windows are a minute apart and every window lies inside the range. */
  predicate Chained(ws: seq<Window>, from: int, stop: int) {
    && (forall i :: 0 <= i < |ws| ==> from <= ws[i].start <= ws[i].end <= stop && ws[i].start < stop)
    && (forall i :: 0 < i < |ws| ==> ws[i].start == ws[i - 1].end + Minute)
  }

  /**
   * The windows: none when the range is empty; otherwise the first starts at `from`, each
   * is at most a chunk long, the next starts a minute after, and the last ends at `stop`
   * or less than a minute before it (the loop stops once the next start passes `stop`).
   */
  lemma {:induction false} WindowsSpec(start: int, stop: int, delta: nat)
    ensures Windows(start, stop, delta) == [] <==> start >= stop
    ensures Chained(Windows(start, stop, delta), start, stop)
    ensures Windows(start, stop, delta) != [] ==> Windows(start, stop, delta)[0].start == start
    ensures Windows(start, stop, delta) != [] ==> Covers(Windows(start, stop, delta), stop)
    ensures (forall w :: w in Windows(start, stop, delta) ==> w.end - w.start <= delta)
    decreases stop - start
  {
    if start < stop && start + delta < stop {
      var next := start + delta + Minute;
      WindowsSpec(next, stop, delta);
      var rest := Windows(next, stop, delta);
      var ws := Windows(start, stop, delta);
      assert ws == [Window(start, start + delta)] + rest;
      ChainedCons(Window(start, start + delta), rest, start, stop);
      if rest != [] {
        assert ws[|ws| - 1] == rest[|rest| - 1];
      }
    }
  }

  lemma ChainedCons(w: Window, rest: seq<Window>, from: int, stop: int)
    requires from <= w.start <= w.end <= stop && w.start < stop
    requires Chained(rest, w.end + Minute, stop)
    requires rest != [] ==> rest[0].start == w.end + Minute
    ensures Chained([w] + rest, from, stop)
  {
    var ws := [w] + rest;
    forall i | 0 < i < |ws| ensures ws[i].start == ws[i - 1].end + Minute {
      if i > 1 {
        assert ws[i] == rest[i - 1] && ws[i - 1] == rest[i - 2];
      }
    }
  }

  /** Whether the last window reaches `stop`, or ends less than a minute before it. */
  predicate Covers(ws: seq<Window>, stop: int)
    requires ws != []
  {
    ws[|ws| - 1].end == stop || stop <= ws[|ws| - 1].end + Minute
  }

  // ---------------------------------------------------------------- upsert_price_bars

  /** The `date` of a fetched row: a `datetime`, or anything else by its `str` (a missing one reads "None"). */
  datatype RowDate = DateTime(iso: string) | Other(repr: string)

  datatype PriceRow = PriceRow(
    date: RowDate, open: Option<real>, high: Option<real>, low: Option<real>,
    close: Option<real>, volume: Option<real>, oi: Option<real>)

  /** The primary key of the `price_bars` table. */
  datatype BarKey = BarKey(instrumentToken: int, interval: string, timestamp: string)

  datatype BarValues = BarValues(
    open: Option<real>, high: Option<real>, low: Option<real>,
    close: Option<real>, volume: Option<real>, oi: Option<real>)

  datatype PayloadRow = PayloadRow(key: BarKey, values: BarValues)

  function TimestampIso(d: RowDate): string {
    match d
    case DateTime(iso) => iso
    case Other(repr) => repr
  }

  /** The payload tuple of one fetched row. */
  function PayloadOf(token: int, interval: string, row: PriceRow): PayloadRow {
    PayloadRow(BarKey(token, interval, TimestampIso(row.date)),
               BarValues(row.open, row.high, row.low, row.close, row.volume, row.oi))
  }

  /** The payload of the fetched rows, one tuple per row in order. */
  function Payload(token: int, interval: string, rows: seq<PriceRow>): (p: seq<PayloadRow>)
    ensures |p| == |rows|
    ensures forall i :: 0 <= i < |rows| ==> p[i] == PayloadOf(token, interval, rows[i])
  {
    if rows == [] then [] else Payload(token, interval, rows[..|rows| - 1]) + [PayloadOf(token, interval, rows[|rows| - 1])]
  }

  /** The rows inserted one after another, a conflicting key taking the new values. */
  function Applied(store: map<BarKey, BarValues>, payload: seq<PayloadRow>): map<BarKey, BarValues> {
    if payload == [] then store
    else
      var last := payload[|payload| - 1];
      Applied(store, payload[..|payload| - 1])[last.key := last.values]
  }

  /** Whether the row at `i` is the last one of the payload with its key. */
  predicate LastWithKey(payload: seq<PayloadRow>, i: int) {
    0 <= i < |payload| && forall j :: i < j < |payload| ==> payload[j].key != payload[i].key
  }

  /** After the upsert a key is stored iff it was stored before or the payload has it. */
  lemma {:induction false} AppliedKeys(store: map<BarKey, BarValues>, payload: seq<PayloadRow>)
    ensures forall k :: k in Applied(store, payload) <==>
      k in store || exists i :: 0 <= i < |payload| && payload[i].key == k
  {
    if payload != [] {
      var n := |payload| - 1;
      var init := payload[..n];
      AppliedKeys(store, init);
      forall k | k in Applied(store, payload) && k !in store
        ensures exists i :: 0 <= i < |payload| && payload[i].key == k
      {
        if k != payload[n].key {
          var i :| 0 <= i < |init| && init[i].key == k;
          assert payload[i].key == k;
        }
      }
      forall k | (exists i :: 0 <= i < |payload| && payload[i].key == k)
        ensures k in Applied(store, payload)
      {
        var i :| 0 <= i < |payload| && payload[i].key == k;
        if i < n {
          assert init[i].key == k;
        }
      }
    }
  }

  /** A payload key holds the values of the last payload row with that key. */
  lemma {:induction false} AppliedLast(store: map<BarKey, BarValues>, payload: seq<PayloadRow>, i: int)
    requires LastWithKey(payload, i)
    ensures payload[i].key in Applied(store, payload)
    ensures Applied(store, payload)[payload[i].key] == payload[i].values
  {
    var n := |payload| - 1;
    if i < n {
      assert LastWithKey(payload[..n], i);
      AppliedLast(store, payload[..n], i);
    }
  }

  /** A key the payload does not have keeps its stored values. */
  lemma {:induction false} AppliedUnchanged(store: map<BarKey, BarValues>, payload: seq<PayloadRow>, k: BarKey)
    requires forall i :: 0 <= i < |payload| ==> payload[i].key != k
    ensures k in Applied(store, payload) <==> k in store
    ensures k in store ==> Applied(store, payload)[k] == store[k]
  {
    if payload != [] {
      var n := |payload| - 1;
      assert forall i :: 0 <= i < n ==> payload[..n][i] == payload[i];
      AppliedUnchanged(store, payload[..n], k);
    }
  }

  /** A key the payload has has a last row. */
  lemma {:induction false} LastWithKeyExists(payload: seq<PayloadRow>, k: BarKey, j: int)
    requires 0 <= j < |payload| && payload[j].key == k
    ensures exists i :: LastWithKey(payload, i) && payload[i].key == k
  {
    var n := |payload| - 1;
    if payload[n].key == k {
      assert LastWithKey(payload, n);
    } else {
      LastWithKeyExists(payload[..n], k, j);
      var i :| LastWithKey(payload[..n], i) && payload[..n][i].key == k;
      assert LastWithKey(payload, i);
    }
  }

  /** Upserting the same rows again leaves the table as the first upsert left it. */
  lemma UpsertIdempotent(store: map<BarKey, BarValues>, payload: seq<PayloadRow>)
    ensures Applied(Applied(store, payload), payload) == Applied(store, payload)
  {
    var once := Applied(store, payload);
    var twice := Applied(once, payload);
    AppliedKeys(store, payload);
    AppliedKeys(once, payload);
    forall k | k in twice ensures k in once && twice[k] == once[k] {
      if j :| 0 <= j < |payload| && payload[j].key == k {
        LastWithKeyExists(payload, k, j);
        var i :| LastWithKey(payload, i) && payload[i].key == k;
        AppliedLast(store, payload, i);
        AppliedLast(once, payload, i);
      } else {
        AppliedUnchanged(once, payload, k);
      }
    }
    assert twice.Keys == once.Keys;
  }

  /** The price store, the `price_bars` table by primary key. */
  class PriceStore {
    var bars: map<BarKey, BarValues>

    constructor()
      ensures bars == map[]
    {
      bars := map[];
    }

    /**
     * `upsert_price_bars`: one payload row per fetched row, in order, inserted with the
     * conflict rule; the number of rows is returned.
     */
    method UpsertPriceBars(token: int, interval: string, rows: seq<PriceRow>) returns (count: nat)
      modifies this
      ensures count == |rows|
      ensures bars == Applied(old(bars), Payload(token, interval, rows))
    {
      var payload: seq<PayloadRow> := [];
      var i := 0;
      while i < |rows|
        invariant 0 <= i <= |rows|
        invariant |payload| == i
        invariant forall j :: 0 <= j < i ==> payload[j] == PayloadOf(token, interval, rows[j])
      {
        payload := payload + [PayloadOf(token, interval, rows[i])];
        i := i + 1;
      }
      assert payload == Payload(token, interval, rows);
      if payload == [] {
        return 0;
      }
      var k := 0;
      while k < |payload|
        invariant 0 <= k <= |payload|
        invariant bars == Applied(old(bars), payload[..k])
      {
        assert payload[..k + 1][..k] == payload[..k];
        bars := bars[payload[k].key := payload[k].values];
        k := k + 1;
      }
      assert payload[..|payload|] == payload;
      count := |payload|;
    }
  }
}
