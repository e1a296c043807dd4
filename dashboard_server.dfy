/**
 * The record shaping of the live dashboard server (dashboard/server.py): the ENTRY rows of
 * an event log sorted by time and normalised, the default position, and the conversions of
 * frames, series and dicts into JSON-ready records.
 */
module DashboardServer {
  import opened Wrappers
  import opened Text
  import opened IronFlyTrading
  import opened IronFlyDashboard

  /** A Python value as it reaches the server: decoded JSON, or a pandas cell. */
  datatype Value =
    | Null
    | Bool(b: bool)
    | Int(i: int)
    | Num(x: real)
    | NaN
    | Text(s: string)
    | Stamp(iso: string)
    | Dict(entries: map<string, Value>)
    | List(items: seq<Value>)

  /** Python truthiness, as used by `x or {}`. */
  predicate Truthy(v: Value) {
    match v
    case Null => false
    case Bool(b) => b
    case Int(i) => i != 0
    case Num(x) => x != 0.0
    case NaN => true
    case Text(s) => s != []
    case Stamp(_) => true
    case Dict(m) => |m| > 0
    case List(l) => |l| > 0
  }

  type Entry = EventEntry<Value>

  // ---------------------------------------------------------------- normalise_entry

  const LegacyKeys: seq<string> := ["sell_ce", "sell_pe", "buy_ce", "buy_pe"]
  const LegKeys: seq<string> := ["short_call", "short_put", "long_call", "long_put"]

  /** `d.get(k)`: the value, or `None` when the key is missing. */
  function Get(d: map<string, Value>, k: string): Value {
    if k in d then d[k] else Null
  }

  /** The strikes under the legacy names, renamed to the leg names. */
  function Renamed(legacy: map<string, Value>): (r: map<string, Value>)
    ensures r.Keys == {"short_call", "short_put", "long_call", "long_put"}
    ensures forall j :: 0 <= j < 4 ==> r[LegKeys[j]] == Get(legacy, LegacyKeys[j])
  {
    map["short_call" := Get(legacy, "sell_ce"), "short_put" := Get(legacy, "sell_pe"),
        "long_call" := Get(legacy, "buy_ce"), "long_put" := Get(legacy, "buy_pe")]
  }

  /** Whether the strikes use the legacy names only. */
  predicate NeedsRename(strikes: Value) {
    strikes.Dict? && "short_call" !in strikes.entries && "sell_ce" in strikes.entries
  }

  /** The strikes as read: `details.get('strikes', {}) or {}`. */
  function StrikesIn(details: map<string, Value>): (r: Value)
    ensures Truthy(r) || r == Dict(map[])
  {
    if "strikes" in details && Truthy(details["strikes"]) then details["strikes"] else Dict(map[])
  }

  /** The strikes stored back: legacy names renamed, anything else kept. */
  function Normalised(strikes: Value): Value {
    if NeedsRename(strikes) then Dict(Renamed(strikes.entries)) else strikes
  }

  /**
   * The details after normalisation: exactly the keys strikes, wing_distance and lot_size
   * are added; every other key keeps its value; the wing distance and lot size are kept when
   * present and are the configured defaults (500 and 15) otherwise.
   */
  function NormalDetails(d: map<string, Value>): (r: map<string, Value>)
    ensures "strikes" in r && "wing_distance" in r && "lot_size" in r
    ensures forall k :: k in r <==> k in d || k == "strikes" || k == "wing_distance" || k == "lot_size"
    ensures forall k :: k in d && k != "strikes" && k != "wing_distance" && k != "lot_size" ==> r[k] == d[k]
    ensures r["strikes"] == Normalised(StrikesIn(d))
    ensures r["wing_distance"] == (if "wing_distance" in d then d["wing_distance"] else Int(500))
    ensures r["lot_size"] == (if "lot_size" in d then d["lot_size"] else Int(15))
  {
    // `setdefault` keeps a present value, so it stores the same value again
    var wing := if "wing_distance" in d then d["wing_distance"] else Int(DefaultConfig.wingDistanceDefault);
    var lot := if "lot_size" in d then d["lot_size"] else Int(DefaultConfig.lotSizeFallback);
    d["strikes" := Normalised(StrikesIn(d))]["wing_distance" := wing]["lot_size" := lot]
  }

  /** How `dict(...)` reads one element of the sequence it is given. */
  datatype PairRead =
    | Pair(key: string, val: Value)  // a pair whose key is a text
    | OtherKey                       // a pair whose key is hashable but not a text
    | Unusable                       // `dict` raises on this element

  /**
   * One element as `dict` reads it: a two-element list gives its first element as key and
   * its second as value, and raises when that key is a list or a dict (unhashable); a
   * two-character text gives its first character as key and its second as value; any other
   * element raises (it is not iterable, or it does not have exactly two elements).
   */
  function PairOf(item: Value): PairRead {
    match item
    case List(l) =>
      if |l| != 2 then Unusable
      else (match l[0]
            case Text(k) => Pair(k, l[1])
            case List(_) => Unusable
            case Dict(_) => Unusable
            case _ => OtherKey)
    case Text(s) => if |s| == 2 then Pair(s[..1], Text(s[1..])) else Unusable
    case _ => Unusable
  }

  /** `dict(items)`: the pairs in order, a later key overwriting an earlier one; `None` when it raises. */
  function DictOfPairs(items: seq<Value>): Option<map<string, Value>> {
    if items == [] then Some(map[])
    else
      var prefix := DictOfPairs(items[..|items| - 1]);
      var last := PairOf(items[|items| - 1]);
      if prefix.None? || last.Unusable? then None
      else if last.Pair? then Some(prefix.value[last.key := last.val])
      else prefix
  }

  /** Whether element `i` of `items` is a pair with text key `k`. */
  predicate KeyedAt(items: seq<Value>, i: int, k: string) {
    0 <= i < |items| && PairOf(items[i]).Pair? && PairOf(items[i]).key == k
  }

  /** `dict(items)` succeeds exactly when `dict` can read every element as a pair. */
  lemma {:induction false} DictOfPairsDefined(items: seq<Value>)
    ensures DictOfPairs(items).Some? <==> forall i :: 0 <= i < |items| ==> !PairOf(items[i]).Unusable?
  {
    if items != [] {
      var n := |items| - 1;
      var front := items[..n];
      DictOfPairsDefined(front);
      assert forall i :: 0 <= i < n ==> front[i] == items[i];
    }
  }

  /** The keys of `dict(items)` are exactly the text keys of its pairs. */
  lemma {:induction false} DictOfPairsKeys(items: seq<Value>)
    requires DictOfPairs(items).Some?
    ensures forall k :: k in DictOfPairs(items).value <==> exists i :: KeyedAt(items, i, k)
  {
    if items != [] {
      var n := |items| - 1;
      var front := items[..n];
      DictOfPairsKeys(front);
      assert forall i :: 0 <= i < n ==> front[i] == items[i];
      var last := PairOf(items[n]);
      var m, p := DictOfPairs(items).value, DictOfPairs(front).value;
      assert m == if last.Pair? then p[last.key := last.val] else p;
      forall k ensures k in m <==> exists i :: KeyedAt(items, i, k) {
        if last.Pair? && last.key == k {
          assert KeyedAt(items, n, k);
        }
        if exists i :: KeyedAt(front, i, k) {
          var i :| KeyedAt(front, i, k);
          assert KeyedAt(items, i, k);
        }
        if exists i :: KeyedAt(items, i, k) {
          var i :| KeyedAt(items, i, k);
          if i < n {
            assert KeyedAt(front, i, k);
          } else {
            assert last.Pair? && last.key == k;
          }
        }
      }
    }
  }

  /** Each key of `dict(items)` holds the value of the last pair with that key. */
  lemma {:induction false} DictOfPairsLastWins(items: seq<Value>, k: string)
    requires DictOfPairs(items).Some? && k in DictOfPairs(items).value
    ensures exists i :: (KeyedAt(items, i, k) && DictOfPairs(items).value[k] == PairOf(items[i]).val
                         && forall j :: i < j < |items| ==> !KeyedAt(items, j, k))
  {
    var n := |items| - 1;
    var front := items[..n];
    var last := PairOf(items[n]);
    if last.Pair? && last.key == k {
      assert KeyedAt(items, n, k);
    } else {
      DictOfPairsLastWins(front, k);
      var i :| KeyedAt(front, i, k) && DictOfPairs(front).value[k] == PairOf(front[i]).val
        && (forall j :: i < j < |front| ==> !KeyedAt(front, j, k));
      assert KeyedAt(items, i, k);
      forall j | i < j < |items| ensures !KeyedAt(items, j, k) {
        if j < n {
          assert !KeyedAt(front, j, k);
          assert front[j] == items[j];
        }
      }
    }
  }

  /**
   * `dict(entry.get('details', {}) or {})`: a copy of mapping details, the dict built from a
   * list of pairs, an empty dict for missing or falsy details, or the error `dict` raises.
   */
  function DetailsRead(details: Value): Result<map<string, Value>, string> {
    if !Truthy(details) then Success(map[])
    else
      match details
      case Dict(m) => Success(m)
      case List(items) =>
        (match DictOfPairs(items)
         case Some(m) => Success(m)
         case None => Failure("details is not a sequence of pairs"))
      case _ => Failure("details is not a mapping")
  }

  /**
   * Whether `'short_call' not in strikes and 'sell_ce' in strikes` raises, or holds on
   * strikes that then have no `get`: `in` raises on a value that is not a container, and a
   * text (substring test) or a list (element test) that passes the test has no `get`.
   */
  predicate LegacyTestRaises(strikes: Value) {
    match strikes
    case Dict(_) => false
    case Text(s) => RFind(s, "short_call").None? && RFind(s, "sell_ce").Some?
    case List(l) => Text("short_call") !in l && Text("sell_ce") in l
    case _ => true
  }

  /** `normalise_entry`: a copy of the entry whose details are normalised, or the error raised. */
  function NormaliseEntry(entry: Entry): Result<Entry, string> {
    match DetailsRead(entry.details)
    case Failure(err) => Failure(err)
    case Success(d) =>
      if LegacyTestRaises(StrikesIn(d)) then Failure("strikes is not a mapping")
      else Success(entry.(details := Dict(NormalDetails(d))))
  }

  /**
   * What `normalise_entry` promises. It fails exactly when the details are neither falsy, a
   * mapping nor a list of pairs, or when the strikes read from them are a bool, a number or
   * a timestamp, a text containing `sell_ce` but not `short_call`, or a list holding the text
   * `sell_ce` but not `short_call`. Otherwise only the details change, into their normalised
   * form, and the strikes are renamed exactly when they are a mapping with `sell_ce` and
   * without `short_call`.
   */
  lemma NormaliseEntrySpec(entry: Entry)
    ensures DetailsRead(entry.details).Success? <==>
      || !Truthy(entry.details) || entry.details.Dict?
      || (entry.details.List? && forall i :: 0 <= i < |entry.details.items| ==> !PairOf(entry.details.items[i]).Unusable?)
    ensures DetailsRead(entry.details).Success? ==>
      DetailsRead(entry.details).value
        == if !Truthy(entry.details) then map[]
           else if entry.details.Dict? then entry.details.entries
           else DictOfPairs(entry.details.items).value
    ensures NormaliseEntry(entry).Failure? <==>
      || DetailsRead(entry.details).Failure?
      || (var strikes := StrikesIn(DetailsRead(entry.details).value);
          || !(strikes.Dict? || strikes.Text? || strikes.List?)
          || (strikes.Text? && (forall i :: !Occurs(strikes.s, "short_call", i))
                && exists i :: Occurs(strikes.s, "sell_ce", i))
          || (strikes.List? && Text("short_call") !in strikes.items && Text("sell_ce") in strikes.items))
    ensures NormaliseEntry(entry).Success? ==>
      var r := NormaliseEntry(entry).value;
      && r.(details := entry.details) == entry
      && r.details == Dict(NormalDetails(DetailsRead(entry.details).value))
    ensures NormaliseEntry(entry).Success? ==>
      var strikes := StrikesIn(DetailsRead(entry.details).value);
      NormaliseEntry(entry).value.details.entries["strikes"]
        == if strikes.Dict? && "short_call" !in strikes.entries && "sell_ce" in strikes.entries
           then Dict(Renamed(strikes.entries)) else strikes
  {
    if entry.details.List? {
      DictOfPairsDefined(entry.details.items);
    }
  }

  /** Normalised strikes read back unchanged and pass the legacy test. */
  lemma NormalisedStable(d: map<string, Value>)
    ensures !NeedsRename(Normalised(StrikesIn(d)))
    ensures StrikesIn(NormalDetails(d)) == Normalised(StrikesIn(d))
    ensures !LegacyTestRaises(StrikesIn(d)) ==> !LegacyTestRaises(StrikesIn(NormalDetails(d)))
  {
    var x := StrikesIn(d);
    var s := Normalised(x);
    if NeedsRename(x) {
      assert "short_call" in Renamed(x.entries);
      assert Truthy(s);
    } else {
      assert s == x;
    }
    assert NormalDetails(d)["strikes"] == s;
  }

  /** Normalising details twice is normalising them once. */
  lemma NormalDetailsIdempotent(d: map<string, Value>)
    ensures NormalDetails(NormalDetails(d)) == NormalDetails(d)
  {
    var e := NormalDetails(d);
    NormalisedStable(d);
    assert forall k :: k in NormalDetails(e) <==> k in e;
    forall k | k in e ensures NormalDetails(e)[k] == e[k] {
    }
  }

  /** Normalising an entry twice is normalising it once. */
  lemma NormaliseIdempotent(entry: Entry)
    requires NormaliseEntry(entry).Success?
    ensures NormaliseEntry(NormaliseEntry(entry).value) == NormaliseEntry(entry)
  {
    var d := DetailsRead(entry.details).value;
    var r := NormaliseEntry(entry).value;
    assert r.details == Dict(NormalDetails(d));
    assert "strikes" in NormalDetails(d);
    assert Truthy(r.details);
    NormalisedStable(d);
    NormalDetailsIdempotent(d);
  }

  // ---------------------------------------------------------------- list_entry_events

  /** Whether the timestamps of a list never decrease. */
  predicate SortedByTime(s: seq<Entry>) {
    forall i, j :: 0 <= i < j < |s| ==> StrLe(s[i].timestamp, s[j].timestamp)
  }

  /** Inserts after every element whose timestamp is not later, so ties keep their order. */
  function InsertByTime(e: Entry, s: seq<Entry>): (r: seq<Entry>)
    ensures multiset(r) == multiset(s) + multiset{e}
    ensures |r| == |s| + 1
  {
    if s == [] then [e]
    else if !StrLe(s[0].timestamp, e.timestamp) then [e] + s
    else
      assert s == [s[0]] + s[1..];
      [s[0]] + InsertByTime(e, s[1..])
  }

  lemma {:induction false} InsertSorted(e: Entry, s: seq<Entry>)
    requires SortedByTime(s)
    ensures SortedByTime(InsertByTime(e, s))
  {
    if s == [] {
    } else if !StrLe(s[0].timestamp, e.timestamp) {
      StrLeTotal(s[0].timestamp, e.timestamp);
      var r := [e] + s;
      forall i, j | 0 <= i < j < |r| ensures StrLe(r[i].timestamp, r[j].timestamp) {
        if i == 0 {
          if j > 1 {
            StrLeTrans(e.timestamp, s[0].timestamp, s[j - 1].timestamp);
          }
        } else {
          assert r[i] == s[i - 1] && r[j] == s[j - 1];
        }
      }
    } else {
      var t := s[1..];
      assert SortedByTime(t) by {
        forall i, j | 0 <= i < j < |t| ensures StrLe(t[i].timestamp, t[j].timestamp) {
          assert t[i] == s[i + 1] && t[j] == s[j + 1];
        }
      }
      InsertSorted(e, t);
      var u := InsertByTime(e, t);
      var r := [s[0]] + u;
      forall k | 0 <= k < |u| ensures StrLe(s[0].timestamp, u[k].timestamp) {
        InsertMember(e, t, k);
        if u[k] != e {
          var m :| 0 <= m < |t| && t[m] == u[k];
          assert s[m + 1] == t[m];
        }
      }
      forall i, j | 0 <= i < j < |r| ensures StrLe(r[i].timestamp, r[j].timestamp) {
        if i == 0 {
          assert r[j] == u[j - 1];
        } else {
          assert r[i] == u[i - 1] && r[j] == u[j - 1];
        }
      }
    }
  }

  /** Every element after insertion is the inserted one or one of the list. */
  lemma InsertMember(e: Entry, s: seq<Entry>, k: int)
    requires 0 <= k < |InsertByTime(e, s)|
    ensures InsertByTime(e, s)[k] == e || exists m :: 0 <= m < |s| && s[m] == InsertByTime(e, s)[k]
  {
    var r := InsertByTime(e, s);
    assert r[k] in multiset(r);
    assert r[k] in multiset(s) + multiset{e};
    if r[k] != e {
      assert r[k] in multiset(s);
      assert r[k] in s;
    }
  }

  /** `entries.sort(key=timestamp)`: a stable insertion sort. */
  function SortByTime(s: seq<Entry>): (r: seq<Entry>)
    ensures multiset(r) == multiset(s)
    ensures |r| == |s|
  {
    if s == [] then []
    else
      assert s == s[..|s| - 1] + [s[|s| - 1]];
      InsertByTime(s[|s| - 1], SortByTime(s[..|s| - 1]))
  }

  /** The sort puts the timestamps in order and keeps every entry exactly once. */
  lemma {:induction false} SortByTimeSorted(s: seq<Entry>)
    ensures SortedByTime(SortByTime(s))
    ensures multiset(SortByTime(s)) == multiset(s)
  {
    if s != [] {
      SortByTimeSorted(s[..|s| - 1]);
      InsertSorted(s[|s| - 1], SortByTime(s[..|s| - 1]));
    }
  }

  /** The rows whose event type is ENTRY, in log order. */
  function EntryRows(rows: seq<Entry>): (r: seq<Entry>)
    ensures |r| <= |rows|
    ensures forall i :: 0 <= i < |r| ==> r[i].eventType == "ENTRY"
    ensures forall e :: e in rows && e.eventType == "ENTRY" ==> e in r
    ensures forall e :: e in r ==> e in rows
  {
    if rows == [] then []
    else
      var last := rows[|rows| - 1];
      assert rows == rows[..|rows| - 1] + [last];
      EntryRows(rows[..|rows| - 1]) + (if last.eventType == "ENTRY" then [last] else [])
  }

  /** Every entry normalised, or the first failure. */
  function NormaliseAll(s: seq<Entry>): (r: Result<seq<Entry>, string>)
    ensures r.Success? ==> |r.value| == |s|
    ensures r.Success? ==> forall i :: 0 <= i < |s| ==> NormaliseEntry(s[i]) == Success(r.value[i])
    ensures r.Failure? ==> exists i :: 0 <= i < |s| && NormaliseEntry(s[i]).Failure?
  {
    if s == [] then Success([])
    else
      match NormaliseEntry(s[0])
      case Failure(err) => Failure(err)
      case Success(e) =>
        match NormaliseAll(s[1..])
        case Failure(err) =>
          var i :| 0 <= i < |s[1..]| && NormaliseEntry(s[1..][i]).Failure?;
          assert NormaliseEntry(s[i + 1]).Failure?;
          Failure(err)
        case Success(rest) => Success([e] + rest)
  }

  /** `list_entry_events` on the parsed rows of an event log. */
  function ListEntryEvents(rows: seq<Entry>): Result<seq<Entry>, string> {
    NormaliseAll(SortByTime(EntryRows(rows)))
  }

  /**
   * The listed events are the log's ENTRY rows, each once, ordered by timestamp and
   * normalised; the listing fails exactly when `normalise_entry` raises on some ENTRY row.
   */
  lemma ListEntryEventsSpec(rows: seq<Entry>)
    ensures ListEntryEvents(rows).Failure? <==>
      exists e :: e in rows && e.eventType == "ENTRY" && NormaliseEntry(e).Failure?
    ensures ListEntryEvents(rows).Success? ==>
      var r := ListEntryEvents(rows).value;
      var sorted := SortByTime(EntryRows(rows));
      && |r| == |EntryRows(rows)|
      && multiset(sorted) == multiset(EntryRows(rows))
      && (forall i :: 0 <= i < |r| ==> r[i].eventType == "ENTRY" && NormaliseEntry(sorted[i]) == Success(r[i]))
      && SortedByTime(r)
  {
    var sorted := SortByTime(EntryRows(rows));
    SortByTimeSorted(EntryRows(rows));
    forall i | 0 <= i < |sorted| ensures sorted[i] in EntryRows(rows) {
      assert sorted[i] in multiset(sorted);
    }
    ListingFails(rows);
    match ListEntryEvents(rows)
    case Failure(_) =>
    case Success(r) =>
      forall i | 0 <= i < |r| ensures r[i].timestamp == sorted[i].timestamp && r[i].eventType == "ENTRY" {
        NormaliseKeepsRow(sorted[i]);
      }
      forall i, j | 0 <= i < j < |r| ensures StrLe(r[i].timestamp, r[j].timestamp) {
        assert StrLe(sorted[i].timestamp, sorted[j].timestamp);
      }
  }

  /** A normalised entry differs from its row only in the details. */
  lemma NormaliseKeepsRow(entry: Entry)
    requires NormaliseEntry(entry).Success?
    ensures NormaliseEntry(entry).value.(details := entry.details) == entry
  {
  }

  /** The listing fails exactly when some ENTRY row of the log fails to normalise. */
  lemma ListingFails(rows: seq<Entry>)
    ensures ListEntryEvents(rows).Failure? <==>
      exists e :: e in rows && e.eventType == "ENTRY" && NormaliseEntry(e).Failure?
  {
    var sorted := SortByTime(EntryRows(rows));
    if ListEntryEvents(rows).Failure? {
      var i :| 0 <= i < |sorted| && NormaliseEntry(sorted[i]).Failure?;
      assert sorted[i] in multiset(sorted);
      assert sorted[i] in EntryRows(rows);
    } else {
      forall e | e in rows && e.eventType == "ENTRY" ensures NormaliseEntry(e).Success? {
        assert e in EntryRows(rows);
        assert e in multiset(sorted);
        var k :| 0 <= k < |sorted| && sorted[k] == e;
      }
    }
  }

  // ---------------------------------------------------------------- api_positions

  /** One row of the positions list. */
  datatype Position = Position(
    positionId: string, timestamp: string, expiry: Value, atmStrike: Value, wingDistance: Value, lotSize: Value)

  function PositionOf(entry: Entry): Position {
    var d := if entry.details.Dict? then entry.details.entries else map[];
    Position(entry.positionId, entry.timestamp, Get(d, "expiry"), Get(d, "atm_strike"),
             Get(d, "wing_distance"), Get(d, "lot_size"))
  }

  /** The positions list, one row per listed entry, in order. */
  function Positions(entries: seq<Entry>): (r: seq<Position>)
    ensures |r| == |entries|
    ensures forall i :: 0 <= i < |r| ==> r[i] == PositionOf(entries[i])
  {
    seq(|entries|, i requires 0 <= i < |entries| => PositionOf(entries[i]))
  }

  /** The default position: the last row's id, or `None` when there are no rows. */
  function DefaultPositionId(positions: seq<Position>): Option<string> {
    if positions == [] then None else Some(positions[|positions| - 1].positionId)
  }

  /** Every listed entry is a logged ENTRY row with normalised details, in the sorted order. */
  lemma ListedEntry(rows: seq<Entry>, i: int)
    requires ListEntryEvents(rows).Success? && 0 <= i < |ListEntryEvents(rows).value|
    ensures var entry := ListEntryEvents(rows).value[i];
      var source := SortByTime(EntryRows(rows))[i];
      && entry.(details := source.details) == source
      && source in rows && source.eventType == "ENTRY"
      && entry.details.Dict?
      && "wing_distance" in entry.details.entries && "lot_size" in entry.details.entries
  {
    ListEntryEventsSpec(rows);
    var sorted := SortByTime(EntryRows(rows));
    NormaliseEntrySpec(sorted[i]);
    assert sorted[i] in multiset(sorted);
    assert sorted[i] in EntryRows(rows);
  }

  /**
   * The default position of a listing is the position of an ENTRY row of the log that no
   * other ENTRY row follows in time; there is one exactly when the log has an ENTRY row.
   */
  lemma DefaultPositionIsLatest(rows: seq<Entry>)
    requires ListEntryEvents(rows).Success?
    ensures var def := DefaultPositionId(Positions(ListEntryEvents(rows).value));
      && (def.None? <==> forall e :: e in rows ==> e.eventType != "ENTRY")
      && (def.Some? ==> exists e :: (e in rows && e.eventType == "ENTRY" && e.positionId == def.value
            && (forall f :: f in rows && f.eventType == "ENTRY" ==> StrLe(f.timestamp, e.timestamp))))
  {
    ListEntryEventsSpec(rows);
    var entries := ListEntryEvents(rows).value;
    var filtered := EntryRows(rows);
    var sorted := SortByTime(filtered);
    if |entries| == 0 {
      assert |multiset(filtered)| == 0;
      forall e | e in rows ensures e.eventType != "ENTRY" {
        assert e !in filtered;
      }
    } else {
      var n := |entries| - 1;
      ListedEntry(rows, n);
      var last := sorted[n];
      assert Positions(entries)[n].positionId == last.positionId;
      forall f | f in rows && f.eventType == "ENTRY" ensures StrLe(f.timestamp, last.timestamp) {
        LatestFollows(rows, f);
      }
    }
  }

  /** No ENTRY row of the log is later than the last of the sorted ENTRY rows. */
  lemma LatestFollows(rows: seq<Entry>, f: Entry)
    requires f in rows && f.eventType == "ENTRY"
    ensures var sorted := SortByTime(EntryRows(rows));
      |sorted| > 0 && StrLe(f.timestamp, sorted[|sorted| - 1].timestamp)
  {
    var sorted := SortByTime(EntryRows(rows));
    SortByTimeSorted(EntryRows(rows));
    assert f in EntryRows(rows);
    assert f in multiset(sorted);
    var m :| 0 <= m < |sorted| && sorted[m] == f;
    if m < |sorted| - 1 {
      assert StrLe(sorted[m].timestamp, sorted[|sorted| - 1].timestamp);
    } else {
      StrLeRefl(f.timestamp);
    }
  }

  // ---------------------------------------------------------------- records for JSON

  /**
   * `float(value)` where it succeeds, `None` where it raises (a text that is not a number,
   * a timestamp, a dict or a list). Parsing a text is a parameter.
   */
  function FloatOf(v: Value, parse: string -> Option<real>): (r: Value)
    ensures r.Null? || r.Num? || r.NaN?
  {
    match v
    case Null => Null
    case Bool(b) => Num(if b then 1.0 else 0.0)
    case Int(i) => Num(i as real)
    case Num(x) => Num(x)
    case NaN => NaN
    case Text(s) => (match parse(s) case Some(x) => Num(x) case None => Null)
    case Stamp(_) => Null
    case Dict(_) => Null
    case List(_) => Null
  }

  /** A float stays itself: converting twice is converting once. */
  lemma FloatOfIdempotent(v: Value, parse: string -> Option<real>)
    ensures FloatOf(FloatOf(v, parse), parse) == FloatOf(v, parse)
    ensures FloatOf(v, parse).Null? <==>
      v.Null? || v.Stamp? || v.Dict? || v.List? || (v.Text? && parse(v.s).None?)
  {
  }

  /** `dict_floatify`: the same keys, each value converted to a float or `None`. */
  method DictFloatify(data: map<string, Value>, parse: string -> Option<real>) returns (result: map<string, Value>)
    ensures result.Keys == data.Keys
    ensures forall k :: k in data ==> result[k] == FloatOf(data[k], parse)
  {
    result := map[];
    var rest := data.Keys;
    while rest != {}
      invariant rest <= data.Keys
      invariant result.Keys == data.Keys - rest
      invariant forall k :: k in result ==> result[k] == FloatOf(data[k], parse)
      decreases rest
    {
      var k :| k in rest;
      result := result[k := FloatOf(data[k], parse)];
      rest := rest - {k};
    }
  }

  /** A floatified dict holds only floats and `None`, and floatifying it again changes nothing. */
  lemma DictFloatifyStable(data: map<string, Value>, result: map<string, Value>, parse: string -> Option<real>)
    requires result.Keys == data.Keys
    requires forall k :: k in data ==> result[k] == FloatOf(data[k], parse)
    ensures forall k :: k in result ==> result[k].Null? || result[k].Num? || result[k].NaN?
    ensures forall k :: k in result ==> FloatOf(result[k], parse) == result[k]
  {
    forall k | k in result ensures FloatOf(result[k], parse) == result[k] {
      FloatOfIdempotent(data[k], parse);
    }
  }

  /** One cell of `dataframe_to_records`: timestamps become ISO text, missing scalars `None`. */
  function Clean(v: Value): (r: Value)
    ensures !r.Stamp? && !r.NaN?
    ensures !v.Stamp? && !v.NaN? && !v.Null? ==> r == v
  {
    match v
    case Stamp(iso) => Text(iso)
    case NaN => Null
    case _ => v
  }

  function CleanRow(row: map<string, Value>): (r: map<string, Value>)
    ensures r.Keys == row.Keys
  {
    map k | k in row :: Clean(row[k])
  }

  /** A cleaned row is clean: cleaning it again changes nothing. */
  lemma CleanRowIdempotent(row: map<string, Value>)
    ensures CleanRow(CleanRow(row)) == CleanRow(row)
    ensures forall k :: k in row ==> !CleanRow(row)[k].Stamp? && !CleanRow(row)[k].NaN?
  {
  }

  method CleanRecord(row: map<string, Value>) returns (processed: map<string, Value>)
    ensures processed == CleanRow(row)
  {
    processed := map[];
    var rest := row.Keys;
    while rest != {}
      invariant rest <= row.Keys
      invariant processed.Keys == row.Keys - rest
      invariant forall k :: k in processed ==> processed[k] == Clean(row[k])
      decreases rest
    {
      var k :| k in rest;
      processed := processed[k := Clean(row[k])];
      rest := rest - {k};
    }
  }

  /** `dataframe_to_records`: one cleaned record per row, in order. */
  method DataframeToRecords(rows: seq<map<string, Value>>) returns (records: seq<map<string, Value>>)
    ensures |records| == |rows|
    ensures forall i :: 0 <= i < |rows| ==> records[i] == CleanRow(rows[i])
  {
    records := [];
    var i := 0;
    while i < |rows|
      invariant 0 <= i <= |rows|
      invariant |records| == i
      invariant forall j :: 0 <= j < i ==> records[j] == CleanRow(rows[j])
    {
      var processed := CleanRecord(rows[i]);
      records := records + [processed];
      i := i + 1;
    }
  }

  /** A timestamp cell of a series: a pandas or datetime value, or anything else with its `str`. */
  datatype TimeValue = At(iso: string) | Other(repr: string)

  function TimeText(t: TimeValue): string {
    match t
    case At(iso) => iso
    case Other(repr) => repr
  }

  /** One point of the MTM series; a missing value (None or NaN) is `None`. */
  datatype MtmRecord = MtmRecord(timestamp: string, mtm: Option<real>)

  /** `series_to_records`: `zip` of the values and the timestamps, cut at the shorter. */
  method SeriesToRecords(series: seq<Option<real>>, timestamps: seq<TimeValue>) returns (output: seq<MtmRecord>)
    ensures |output| == if |series| <= |timestamps| then |series| else |timestamps|
    ensures forall i :: 0 <= i < |output| ==> output[i] == MtmRecord(TimeText(timestamps[i]), series[i])
  {
    output := [];
    var i := 0;
    while i < |series| && i < |timestamps|
      invariant 0 <= i <= |series| && i <= |timestamps|
      invariant |output| == i
      invariant forall j :: 0 <= j < i ==> output[j] == MtmRecord(TimeText(timestamps[j]), series[j])
    {
      output := output + [MtmRecord(TimeText(timestamps[i]), series[i])];
      i := i + 1;
    }
  }
}
