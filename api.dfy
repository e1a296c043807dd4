/**
 * The backend's HTTP handlers (backend/app/api.py), without the routing: the SQL text
 * and parameters built for `/instruments` and `/price-bars`, the reversal of the fetched
 * bars into ascending order, and the mapping of a training run into its response.
 * The database is a function from a query to the rows it returns.
 */
module Api {
  import opened Wrappers
  import opened Text
  import opened TrainingMetrics
  import opened TrainingJob

  /** A bound SQL parameter. */
  datatype Param = StrParam(s: string) | IntParam(n: int)

  /** One filter: its SQL text and the parameters its placeholders bind. */
  datatype Condition = Condition(clause: string, params: seq<Param>)

  datatype SqlQuery = SqlQuery(sql: string, params: seq<Param>)

  datatype HttpError = HttpError(status: int, detail: string)

  /** The number of `?` placeholders in an SQL text. */
  function Placeholders(sql: string): nat { CountChar(sql, '?') }

  /** Whether a condition binds one parameter per placeholder. */
  predicate Bound(c: Condition) { Placeholders(c.clause) == |c.params| }

  function Clauses(cs: seq<Condition>): (r: seq<string>)
    ensures |r| == |cs| && forall i :: 0 <= i < |cs| ==> r[i] == cs[i].clause
  {
    if cs == [] then [] else [cs[0].clause] + Clauses(cs[1..])
  }

  function ParamsOf(cs: seq<Condition>): seq<Param> {
    if cs == [] then [] else cs[0].params + ParamsOf(cs[1..])
  }

  /** Python truthiness of an optional text query argument. */
  predicate Given(o: Option<string>) { o.Some? && o.value != [] }

  // ---------------------------------------------------------------- placeholder counting
  //
  // The SQL texts below are written with their `?` apart, so that each count follows from
  // the texts around the `?` holding none.

  lemma {:induction false} NoPlaceholders(s: string)
    requires '?' !in s
    ensures Placeholders(s) == 0
  {
    if s != [] {
      assert s[0] != '?';
      assert forall c :: c in s[1..] ==> c in s;
      NoPlaceholders(s[1..]);
    }
  }

  lemma Hole()
    ensures Placeholders("?") == 1
  {
    assert "?"[1..] == [];
  }

  lemma OneHole(a: string)
    requires '?' !in a
    ensures Placeholders(a + "?") == 1
  {
    NoPlaceholders(a);
    Hole();
    CountCharConcat(a, "?", '?');
  }

  lemma TwoHolesLast(a: string, b: string)
    requires '?' !in a && '?' !in b
    ensures Placeholders(a + "?" + b + "?") == 2
  {
    OneHole(a);
    OneHole(b);
    CountCharConcat(a + "?", b + "?", '?');
    assert a + "?" + (b + "?") == a + "?" + b + "?";
  }

  lemma TwoHoles(a: string, b: string, c: string)
    requires '?' !in a && '?' !in b && '?' !in c
    ensures Placeholders(a + "?" + b + "?" + c) == 2
  {
    TwoHolesLast(a, b);
    NoPlaceholders(c);
    CountCharConcat(a + "?" + b + "?", c, '?');
  }

  /** Text without placeholders before a part adds none. */
  lemma Prefixed(a: string, mid: string)
    requires '?' !in a
    ensures Placeholders(a + mid) == Placeholders(mid)
  {
    NoPlaceholders(a);
    CountCharConcat(a, mid, '?');
  }

  /** Nor does text without placeholders around it. */
  lemma Framed(a: string, mid: string, b: string)
    requires '?' !in a && '?' !in b
    ensures Placeholders(a + mid + b) == Placeholders(mid)
  {
    Prefixed(a, mid);
    NoPlaceholders(b);
    CountCharConcat(a + mid, b, '?');
  }

  function SumPlaceholders(parts: seq<string>): nat {
    if parts == [] then 0 else Placeholders(parts[0]) + SumPlaceholders(parts[1..])
  }

  /** Joining with a separator free of placeholders adds none. */
  lemma {:induction false} JoinPlaceholders(sep: string, parts: seq<string>)
    requires '?' !in sep
    ensures Placeholders(Join(sep, parts)) == SumPlaceholders(parts)
  {
    if |parts| == 1 {
      assert parts[1..] == [];
    } else if |parts| > 1 {
      JoinPlaceholders(sep, parts[1..]);
      NoPlaceholders(sep);
      CountCharConcat(parts[0], sep, '?');
      CountCharConcat(parts[0] + sep, Join(sep, parts[1..]), '?');
    }
  }

  /** Conditions binding one parameter per placeholder bind, together, as many as their texts hold. */
  lemma {:induction false} BoundConditions(cs: seq<Condition>)
    requires forall c :: c in cs ==> Bound(c)
    ensures SumPlaceholders(Clauses(cs)) == |ParamsOf(cs)|
  {
    if cs != [] {
      assert Clauses(cs)[1..] == Clauses(cs[1..]);
      assert cs[0] in cs && forall c :: c in cs[1..] ==> c in cs;
      BoundConditions(cs[1..]);
    }
  }

  lemma {:induction false} ParamsSnoc(cs: seq<Condition>, c: Condition)
    ensures ParamsOf(cs + [c]) == ParamsOf(cs) + c.params
  {
    if cs == [] {
      assert [c][1..] == [];
    } else {
      assert (cs + [c])[1..] == cs[1..] + [c];
      ParamsSnoc(cs[1..], c);
    }
  }

  lemma {:induction false} ParamsConcat(a: seq<Condition>, b: seq<Condition>)
    ensures ParamsOf(a + b) == ParamsOf(a) + ParamsOf(b)
  {
    if a != [] {
      assert (a + b)[1..] == a[1..] + b;
      ParamsConcat(a[1..], b);
    } else {
      assert a + b == b;
    }
  }

  lemma ClausesSnoc(cs: seq<Condition>, c: Condition)
    ensures Clauses(cs + [c]) == Clauses(cs) + [c.clause]
  {
    var l, r := Clauses(cs + [c]), Clauses(cs) + [c.clause];
    forall i | 0 <= i < |l| ensures l[i] == r[i] {
      if i < |cs| {
        assert (cs + [c])[i] == cs[i];
      }
    }
  }

  lemma ParamsPair(a: Condition, b: Condition)
    ensures ParamsOf([a, b]) == a.params + b.params
  {
    assert [a, b][1..] == [b];
    assert [b][1..] == [];
    assert ParamsOf([b]) == b.params;
  }

  lemma {:induction false} JoinSnoc(sep: string, parts: seq<string>, x: string)
    requires parts != []
    ensures Join(sep, parts + [x]) == Join(sep, parts) + (sep + x)
  {
    if |parts| == 1 {
      assert (parts + [x])[1..] == [x];
    } else {
      assert (parts + [x])[1..] == parts[1..] + [x];
      JoinSnoc(sep, parts[1..], x);
    }
  }

  /** The conditions joined by ` AND `, as a WHERE clause holds them. */
  lemma JoinedConditions(cs: seq<Condition>)
    requires forall c :: c in cs ==> Bound(c)
    ensures Placeholders(Join(" AND ", Clauses(cs))) == |ParamsOf(cs)|
  {
    BoundConditions(cs);
    JoinPlaceholders(" AND ", Clauses(cs));
  }

  // ---------------------------------------------------------------- /instruments

  const SegmentClause: string := "segment = " + "?"
  const ExchangeClause: string := "exchange = " + "?"
  const SearchClause: string := "(tradingsymbol LIKE " + "?" + " OR name LIKE " + "?" + ")"
  const InstrumentsBase: string := "SELECT * FROM instruments"
  const InstrumentsPage: string := " ORDER BY tradingsymbol LIMIT " + "?" + " OFFSET " + "?"

  /** `%search%`, the LIKE pattern of a substring search. */
  function Like(s: string): string { "%" + s + "%" }

  function SegmentCondition(segment: string): Condition { Condition(SegmentClause, [StrParam(segment)]) }
  function ExchangeCondition(exchange: string): Condition { Condition(ExchangeClause, [StrParam(exchange)]) }
  function SearchCondition(search: string): Condition {
    Condition(SearchClause, [StrParam(Like(search)), StrParam(Like(search))])
  }

  /** The filters of `list_instruments`, in the order segment, exchange, search. */
  function InstrumentConditions(segment: Option<string>, exchange: Option<string>, search: Option<string>): seq<Condition> {
    (if Given(segment) then [SegmentCondition(segment.value)] else [])
    + (if Given(exchange) then [ExchangeCondition(exchange.value)] else [])
    + (if Given(search) then [SearchCondition(search.value)] else [])
  }

  /** ` WHERE c1 AND c2 ...`, or nothing without conditions. */
  function WhereClause(cs: seq<Condition>): string {
    if cs == [] then "" else " WHERE " + Join(" AND ", Clauses(cs))
  }

  /** The count query and the page query of `list_instruments`, with their parameters. */
  datatype InstrumentsQuery = InstrumentsQuery(total: SqlQuery, page: SqlQuery)

  function InstrumentsQueryOf(segment: Option<string>, exchange: Option<string>, search: Option<string>,
                              limit: int, offset: int): InstrumentsQuery {
    var cs := InstrumentConditions(segment, exchange, search);
    var filtered := InstrumentsBase + WhereClause(cs);
    InstrumentsQuery(SqlQuery("SELECT COUNT(*) FROM (" + filtered + ")", ParamsOf(cs)),
                     SqlQuery(filtered + InstrumentsPage, ParamsOf(cs) + [IntParam(limit), IntParam(offset)]))
  }

  /** `list_instruments`' query building: filters and parameters are appended one by one. */
  method ListInstrumentsQuery(segment: Option<string>, exchange: Option<string>, search: Option<string>,
                              limit: int, offset: int) returns (q: InstrumentsQuery)
    ensures q == InstrumentsQueryOf(segment, exchange, search, limit, offset)
  {
    var query := InstrumentsBase;
    var filters: seq<string> := [];
    var params: seq<Param> := [];
    ghost var cs: seq<Condition> := [];
    if Given(segment) {
      filters := filters + [SegmentClause];
      params := params + [StrParam(segment.value)];
      ghost var c := SegmentCondition(segment.value);
      ParamsSnoc(cs, c);
      ClausesSnoc(cs, c);
      cs := cs + [c];
    }
    if Given(exchange) {
      filters := filters + [ExchangeClause];
      params := params + [StrParam(exchange.value)];
      ghost var c := ExchangeCondition(exchange.value);
      ParamsSnoc(cs, c);
      ClausesSnoc(cs, c);
      cs := cs + [c];
    }
    if Given(search) {
      filters := filters + [SearchClause];
      params := params + [StrParam(Like(search.value)), StrParam(Like(search.value))];
      ghost var c := SearchCondition(search.value);
      ParamsSnoc(cs, c);
      ClausesSnoc(cs, c);
      cs := cs + [c];
    }
    assert cs == InstrumentConditions(segment, exchange, search);
    assert filters == Clauses(cs) && params == ParamsOf(cs);
    if filters != [] {
      query := query + (" WHERE " + Join(" AND ", filters));
    }
    assert query == InstrumentsBase + WhereClause(cs);
    var totalQuery := "SELECT COUNT(*) FROM (" + query + ")";
    query := query + InstrumentsPage;
    q := InstrumentsQuery(SqlQuery(totalQuery, params), SqlQuery(query, params + [IntParam(limit), IntParam(offset)]));
  }

  lemma InstrumentClausesBound(segment: Option<string>, exchange: Option<string>, search: Option<string>)
    ensures forall c :: c in InstrumentConditions(segment, exchange, search) ==> Bound(c)
  {
    OneHole("segment = ");
    OneHole("exchange = ");
    TwoHoles("(tradingsymbol LIKE ", " OR name LIKE ", ")");
  }

  lemma InstrumentsPageBound()
    ensures Placeholders(InstrumentsPage) == 2
  {
    TwoHolesLast(" ORDER BY tradingsymbol LIMIT ", " OFFSET ");
  }

  /** The `?` of a WHERE clause are those of its conditions. */
  lemma WherePlaceholders(cs: seq<Condition>)
    requires forall c :: c in cs ==> Bound(c)
    ensures Placeholders(InstrumentsBase + WhereClause(cs)) == |ParamsOf(cs)|
  {
    JoinedConditions(cs);
    if cs != [] {
      Prefixed(" WHERE ", Join(" AND ", Clauses(cs)));
    }
    Prefixed(InstrumentsBase, WhereClause(cs));
  }

  /** Every `?` of both queries has its parameter: the count query binds the filters' parameters, the page query also limit and offset. */
  lemma InstrumentsPlaceholders(segment: Option<string>, exchange: Option<string>, search: Option<string>,
                                limit: int, offset: int)
    ensures var q := InstrumentsQueryOf(segment, exchange, search, limit, offset);
      Placeholders(q.total.sql) == |q.total.params| && Placeholders(q.page.sql) == |q.page.params|
  {
    var cs := InstrumentConditions(segment, exchange, search);
    var filtered := InstrumentsBase + WhereClause(cs);
    InstrumentClausesBound(segment, exchange, search);
    WherePlaceholders(cs);
    Framed("SELECT COUNT(*) FROM (", filtered, ")");
    InstrumentsPageBound();
    CountCharConcat(filtered, InstrumentsPage, '?');
  }

  /** The WHERE clause is there iff some filter is given. */
  lemma InstrumentsWhere(segment: Option<string>, exchange: Option<string>, search: Option<string>,
                         limit: int, offset: int)
    ensures var q := InstrumentsQueryOf(segment, exchange, search, limit, offset);
      && (!(Given(segment) || Given(exchange) || Given(search)) ==>
            q.page.sql == InstrumentsBase + InstrumentsPage
            && q.total.sql == "SELECT COUNT(*) FROM (" + InstrumentsBase + ")")
      && (Given(segment) || Given(exchange) || Given(search) ==> StartsWith(q.page.sql, InstrumentsBase + " WHERE "))
  {
    var cs := InstrumentConditions(segment, exchange, search);
    if cs != [] {
      StartsWithConcat(InstrumentsBase + " WHERE ", Join(" AND ", Clauses(cs)), InstrumentsPage);
    }
  }

  /**
   * The parameters follow the order segment, exchange, search, the search giving two;
   * limit and offset come last.
   */
  lemma InstrumentsParams(segment: Option<string>, exchange: Option<string>, search: Option<string>,
                          limit: int, offset: int)
    ensures var q := InstrumentsQueryOf(segment, exchange, search, limit, offset);
      && q.total.params
         == (if Given(segment) then [StrParam(segment.value)] else [])
            + (if Given(exchange) then [StrParam(exchange.value)] else [])
            + (if Given(search) then [StrParam(Like(search.value)), StrParam(Like(search.value))] else [])
      && q.page.params == q.total.params + [IntParam(limit), IntParam(offset)]
  {
    ConditionParams(segment, exchange, search);
  }

  lemma ConditionParams(segment: Option<string>, exchange: Option<string>, search: Option<string>)
    ensures ParamsOf(InstrumentConditions(segment, exchange, search))
         == (if Given(segment) then [StrParam(segment.value)] else [])
            + (if Given(exchange) then [StrParam(exchange.value)] else [])
            + (if Given(search) then [StrParam(Like(search.value)), StrParam(Like(search.value))] else [])
  {
    var a := if Given(segment) then [SegmentCondition(segment.value)] else [];
    var b := if Given(exchange) then [ExchangeCondition(exchange.value)] else [];
    var c := if Given(search) then [SearchCondition(search.value)] else [];
    ParamsConcat(a, b);
    ParamsConcat(a + b, c);
    if Given(segment) { ParamsOne(SegmentCondition(segment.value)); }
    if Given(exchange) { ParamsOne(ExchangeCondition(exchange.value)); }
    if Given(search) { ParamsOne(SearchCondition(search.value)); }
  }

  lemma ParamsOne(c: Condition)
    ensures ParamsOf([c]) == c.params
  {
    assert [c][1..] == [];
  }

  lemma StartsWithConcat(p: string, a: string, b: string)
    ensures StartsWith(p + a + b, p)
  {
    assert (p + a + b)[..|p|] == p;
  }

  // ---------------------------------------------------------------- /price-bars

  const TokenClause: string := "instrument_token = " + "?"
  const IntervalClause: string := "interval = " + "?"
  const StartClause: string := "timestamp >= " + "?"
  const EndClause: string := "timestamp <= " + "?"
  const PriceBarsBase: string := "SELECT * FROM price_bars WHERE "
  const PriceBarsTail: string := " ORDER BY timestamp DESC LIMIT " + "?"

  /** The conditions of `get_price_bars`: token and interval, then the optional start and end. */
  function PriceBarsConditions(token: int, interval: string, start: Option<string>, end: Option<string>): seq<Condition> {
    [Condition(TokenClause, [IntParam(token)]), Condition(IntervalClause, [StrParam(interval)])]
    + (if start.Some? then [Condition(StartClause, [StrParam(start.value)])] else [])
    + (if end.Some? then [Condition(EndClause, [StrParam(end.value)])] else [])
  }

  /** The bars query; `start` and `end` are the ISO texts of the given bounds. */
  function PriceBarsQueryOf(token: int, interval: string, start: Option<string>, end: Option<string>, limit: int): SqlQuery {
    var cs := PriceBarsConditions(token, interval, start, end);
    SqlQuery(PriceBarsBase + Join(" AND ", Clauses(cs)) + PriceBarsTail, ParamsOf(cs) + [IntParam(limit)])
  }

  /** `get_price_bars`' query building: the text grows by one condition at a time. */
  method BuildPriceBarsQuery(token: int, interval: string, start: Option<string>, end: Option<string>, limit: int)
    returns (q: SqlQuery)
    ensures q == PriceBarsQueryOf(token, interval, start, end, limit)
  {
    ghost var cs := [Condition(TokenClause, [IntParam(token)]), Condition(IntervalClause, [StrParam(interval)])];
    var conditions := TokenClause + " AND " + IntervalClause;
    assert Clauses(cs) == [TokenClause, IntervalClause];
    assert Join(" AND ", Clauses(cs)) == conditions by {
      assert Clauses(cs)[1..] == [IntervalClause];
    }
    var params: seq<Param> := [IntParam(token), StrParam(interval)];
    ParamsPair(cs[0], cs[1]);
    if start.Some? {
      ghost var c := Condition(StartClause, [StrParam(start.value)]);
      JoinSnoc(" AND ", Clauses(cs), c.clause);
      ParamsSnoc(cs, c);
      ClausesSnoc(cs, c);
      cs := cs + [c];
      conditions := conditions + (" AND " + StartClause);
      params := params + [StrParam(start.value)];
    }
    if end.Some? {
      ghost var c := Condition(EndClause, [StrParam(end.value)]);
      JoinSnoc(" AND ", Clauses(cs), c.clause);
      ParamsSnoc(cs, c);
      ClausesSnoc(cs, c);
      cs := cs + [c];
      conditions := conditions + (" AND " + EndClause);
      params := params + [StrParam(end.value)];
    }
    assert cs == PriceBarsConditions(token, interval, start, end);
    var query := PriceBarsBase + conditions + PriceBarsTail;
    params := params + [IntParam(limit)];
    q := SqlQuery(query, params);
  }

  lemma PriceBarsClausesBound(token: int, interval: string, start: Option<string>, end: Option<string>)
    ensures forall c :: c in PriceBarsConditions(token, interval, start, end) ==> Bound(c)
  {
    OneHole("instrument_token = ");
    OneHole("interval = ");
    OneHole("timestamp >= ");
    OneHole("timestamp <= ");
  }

  /** Every `?` of the bars query has its parameter. */
  lemma PriceBarsPlaceholders(token: int, interval: string, start: Option<string>, end: Option<string>, limit: int)
    ensures var q := PriceBarsQueryOf(token, interval, start, end, limit);
      Placeholders(q.sql) == |q.params|
  {
    var cs := PriceBarsConditions(token, interval, start, end);
    var joined := Join(" AND ", Clauses(cs));
    PriceBarsClausesBound(token, interval, start, end);
    JoinedConditions(cs);
    PriceBarsTexts();
    Prefixed(PriceBarsBase, joined);
    CountCharConcat(PriceBarsBase + joined, PriceBarsTail, '?');
  }

  lemma PriceBarsTexts()
    ensures '?' !in PriceBarsBase && Placeholders(PriceBarsTail) == 1
  {
    OneHole(" ORDER BY timestamp DESC LIMIT ");
  }

  /** Token and interval come first, each given bound adds one parameter, and the limit is last. */
  lemma PriceBarsParams(token: int, interval: string, start: Option<string>, end: Option<string>, limit: int)
    ensures var q := PriceBarsQueryOf(token, interval, start, end, limit);
      && |q.params| == 3 + (if start.Some? then 1 else 0) + (if end.Some? then 1 else 0)
      && q.params[0] == IntParam(token) && q.params[1] == StrParam(interval)
      && (start.Some? ==> q.params[2] == StrParam(start.value))
      && (end.Some? ==> q.params[|q.params| - 2] == StrParam(end.value))
      && q.params[|q.params| - 1] == IntParam(limit)
  {
    var a := [Condition(TokenClause, [IntParam(token)]), Condition(IntervalClause, [StrParam(interval)])];
    var b := if start.Some? then [Condition(StartClause, [StrParam(start.value)])] else [];
    var c := if end.Some? then [Condition(EndClause, [StrParam(end.value)])] else [];
    ParamsConcat(a, b);
    ParamsConcat(a + b, c);
    ParamsPair(a[0], a[1]);
    assert ParamsOf(b) == (if start.Some? then [StrParam(start.value)] else []);
    assert ParamsOf(c) == (if end.Some? then [StrParam(end.value)] else []);
  }

  // ---------------------------------------------------------------- reversing the bars

  function Reversed<T>(s: seq<T>): (r: seq<T>)
    ensures |r| == |s| && forall i :: 0 <= i < |s| ==> r[i] == s[|s| - 1 - i]
  {
    if s == [] then [] else Reversed(s[1..]) + [s[0]]
  }

  lemma ReversedTwice<T>(s: seq<T>)
    ensures Reversed(Reversed(s)) == s
  {
  }

  /** Rows fetched newest first come out oldest first. */
  lemma ReversedAscending<T>(rows: seq<T>, stamp: T -> string)
    requires forall i, j :: 0 <= i < j < |rows| ==> StrLe(stamp(rows[j]), stamp(rows[i]))
    ensures forall i, j :: 0 <= i < j < |rows| ==> StrLe(stamp(Reversed(rows)[i]), stamp(Reversed(rows)[j]))
  {
    var r := Reversed(rows);
    forall i, j | 0 <= i < j < |rows| ensures StrLe(stamp(r[i]), stamp(r[j])) {
      assert r[i] == rows[|rows| - 1 - i] && r[j] == rows[|rows| - 1 - j];
    }
  }

  /** `items.reverse()`: the list reversed in place. */
  method ReverseInPlace<T>(a: array<T>)
    modifies a
    ensures a[..] == Reversed(old(a[..]))
  {
    var n := a.Length;
    var i := 0;
    while i < n / 2
      invariant 0 <= i <= n / 2
      invariant forall k :: 0 <= k < i ==> a[k] == old(a[n - 1 - k]) && a[n - 1 - k] == old(a[k])
      invariant forall k :: i <= k < n - i ==> a[k] == old(a[k])
    {
      a[i], a[n - 1 - i] := a[n - 1 - i], a[i];
      i := i + 1;
    }
  }

  datatype PriceBarsResponse<T> = PriceBarsResponse(
    instrumentToken: int, interval: string, start: Option<string>, end: Option<string>,
    count: nat, items: seq<T>)

  /**
   * `get_price_bars`: 404 for an unknown instrument; otherwise the rows of the bars query,
   * fetched newest first, reversed, with their count.
   */
  method GetPriceBars<T>(instrumentFound: bool, execute: SqlQuery -> seq<T>, token: int, interval: string,
                         start: Option<string>, end: Option<string>, limit: int)
    returns (r: Result<PriceBarsResponse<T>, HttpError>)
    ensures r.Failure? <==> !instrumentFound
    ensures r.Failure? ==> r.error == HttpError(404, "Instrument not found")
    ensures r.Success? ==> r.value.items == Reversed(execute(PriceBarsQueryOf(token, interval, start, end, limit)))
    ensures r.Success? ==> r.value.count == |r.value.items|
    ensures r.Success? ==>
      r.value.instrumentToken == token && r.value.interval == interval && r.value.start == start && r.value.end == end
  {
    if !instrumentFound {
      return Failure(HttpError(404, "Instrument not found"));
    }
    var q := BuildPriceBarsQuery(token, interval, start, end, limit);
    var rows := execute(q);
    var items := new T[|rows|](i requires 0 <= i < |rows| => rows[i]);
    assert items[..] == rows;
    ReverseInPlace(items);
    r := Success(PriceBarsResponse(token, interval, start, end, items.Length, items[..]));
  }

  // ---------------------------------------------------------------- /training/run

  datatype WalkForwardMetric = WalkForwardMetric(
    fold: nat, trainStart: string, trainEnd: string, testStart: string, testEnd: string,
    rmse: real, mae: real, mape: Option<real>)

  datatype TrainingModelResult = TrainingModelResult(
    modelName: string, metricsOverall: Overall, walkForward: seq<WalkForwardMetric>)

  datatype TrainingRunResponse = TrainingRunResponse(
    instrumentToken: int, interval: string, forecastHorizon: int, models: seq<TrainingModelResult>)

  /** A fold's `mape` as a Python value: None, or a float that may be NaN. */
  function Received(m: Option<real>): Option<Float> {
    if m.None? then None else Some(Finite(m.value))
  }

  /** The intended mapping of a fold's `mape`: NaN becomes None, anything else is kept. */
  function ApiMape(m: Option<Float>): (r: Option<real>)
    ensures r.None? <==> m.None? || m.value.NaN?
    ensures r.Some? ==> m == Some(Finite(r.value))
  {
    match m
    case None => None
    case Some(NaN) => None
    case Some(Finite(v)) => Some(v)
  }

  function MetricOf(f: SerializedFold): WalkForwardMetric {
    WalkForwardMetric(f.fold, f.trainStart, f.trainEnd, f.testStart, f.testEnd, f.rmse, f.mae, ApiMape(Received(f.mape)))
  }

  function ModelResultOf(entry: (string, ModelResult)): TrainingModelResult {
    TrainingModelResult(entry.0, entry.1.metricsOverall,
      seq(|entry.1.walkForward|, i requires 0 <= i < |entry.1.walkForward| => MetricOf(entry.1.walkForward[i])))
  }

  /**
   * `run_training`, as intended: a job that fails (a `ValueError`) becomes HTTP 400 with its
   * message; otherwise one response model per stored result, in order.
   */
  function RunTraining(instrumentToken: int, interval: string, forecastHorizon: int,
                       outcome: Result<JobResult, string>): Result<TrainingRunResponse, HttpError> {
    match outcome
    case Failure(msg) => Failure(HttpError(400, msg))
    case Success(job) =>
      Success(TrainingRunResponse(instrumentToken, interval, forecastHorizon,
        seq(|job.results|, i requires 0 <= i < |job.results| => ModelResultOf(job.results[i]))))
  }

  /** Whether a response fold carries the job's fold: every field of it but the fold count. */
  predicate SameFold(m: WalkForwardMetric, f: SerializedFold) {
    && m.fold == f.fold
    && m.trainStart == f.trainStart && m.trainEnd == f.trainEnd
    && m.testStart == f.testStart && m.testEnd == f.testEnd
    && m.rmse == f.rmse && m.mae == f.mae && m.mape == f.mape
  }

  /**
   * The response echoes the request's token, interval and horizon and carries every model and
   * fold of the run unchanged, including each fold's mape (the job has already turned NaN into
   * None); a failed job gives 400.
   */
  lemma RunTrainingSpec(instrumentToken: int, interval: string, forecastHorizon: int, outcome: Result<JobResult, string>)
    ensures outcome.Failure? ==> RunTraining(instrumentToken, interval, forecastHorizon, outcome) == Failure(HttpError(400, outcome.error))
    ensures outcome.Success? ==>
      var r := RunTraining(instrumentToken, interval, forecastHorizon, outcome);
      var results := outcome.value.results;
      && r.Success?
      && r.value.instrumentToken == instrumentToken && r.value.interval == interval
      && r.value.forecastHorizon == forecastHorizon
      && |r.value.models| == |results|
      && forall i :: 0 <= i < |results| ==>
           && r.value.models[i].modelName == results[i].0
           && r.value.models[i].metricsOverall == results[i].1.metricsOverall
           && |r.value.models[i].walkForward| == |results[i].1.walkForward|
           && forall k :: 0 <= k < |results[i].1.walkForward| ==>
                SameFold(r.value.models[i].walkForward[k], results[i].1.walkForward[k])
  {
    if outcome.Success? {
      var results := outcome.value.results;
      var models := RunTraining(instrumentToken, interval, forecastHorizon, outcome).value.models;
      forall i, k | 0 <= i < |results| && 0 <= k < |results[i].1.walkForward|
        ensures SameFold(models[i].walkForward[k], results[i].1.walkForward[k])
      {
        var f := results[i].1.walkForward[k];
        assert models[i].walkForward[k] == MetricOf(f);
        match f.mape
        case None =>
        case Some(v) => assert Received(f.mape) == Some(Finite(v));
      }
    }
  }

  /** A NaN mape reaches the response as None. */
  lemma ApiMapeNaN()
    ensures ApiMape(Some(NaN)) == None && forall v :: ApiMape(Some(Finite(v))) == Some(v)
  {
  }

  /** Whether some fold of the run has a defined mape (a Python float). */
  predicate SomeFloatMape(job: JobResult) {
    exists i, k :: 0 <= i < |job.results| && 0 <= k < |job.results[i].1.walkForward|
      && job.results[i].1.walkForward[k].mape.Some?
  }

  const NameErrorDetail: string := "name 'np' is not defined"

  /**
   * `run_training` as written: the NaN test calls `np.isnan`, but the module never imports
   * `np`, so the first fold whose mape is a float raises NameError, served as HTTP 500.
   */
  function RunTrainingAsWritten(instrumentToken: int, interval: string, forecastHorizon: int,
                                outcome: Result<JobResult, string>): Result<TrainingRunResponse, HttpError> {
    if outcome.Success? && SomeFloatMape(outcome.value) then Failure(HttpError(500, NameErrorDetail))
    else RunTraining(instrumentToken, interval, forecastHorizon, outcome)
  }

  /** Any run with a defined fold mape fails as written, while the intended handler answers it. */
  lemma RunTrainingAsWrittenFails(instrumentToken: int, interval: string, forecastHorizon: int, job: JobResult)
    requires SomeFloatMape(job)
    ensures RunTrainingAsWritten(instrumentToken, interval, forecastHorizon, Success(job)) == Failure(HttpError(500, NameErrorDetail))
    ensures RunTraining(instrumentToken, interval, forecastHorizon, Success(job)).Success?
  {
  }
}
