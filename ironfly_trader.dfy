/**
 * The simulated BankNifty iron-fly trader: strike rounding, wing sizing, contract and
 * expiry selection, the pre-trade guards, and the simulated order placement that writes
 * one ENTRY line to the event log.
 *
 * Clock readings, broker responses and the LLM reply are parameters. Times of day are
 * seconds since midnight in the market time zone; UTC instants are integers in any fixed
 * unit; calendar dates are `Date` values.
 */
module IronFlyTrading {
  import opened Wrappers
  import opened Text
  import opened Stats

  // ---------------------------------------------------------------- configuration

  /** A blackout window; a bound is `None` when the key is missing or not an ISO date-time. */
  datatype BlackoutWindow = BlackoutWindow(start: Option<int>, end: Option<int>)

  /** The settings of the trading configuration module that the trader reads. */
  datatype Config = Config(
    exchange: string,
    lotSizeFallback: int,
    useSigmaWings: bool,
    minWingDistance: int, maxWingDistance: int, wingDistanceDefault: int,
    requiredMarginPerSet: real, maxSets: int, marginBufferMultiplier: real,
    marketOpenMinute: int, marketCloseMinute: int, blockNewEntriesLastMinutes: int,
    allowAfterHoursSimulation: bool,
    eventBlackouts: seq<BlackoutWindow>,
    llmEnabled: bool, llmConfidenceThreshold: real, llmNoopOnError: bool)

  /** `SIGMA_MULTIPLIER`: the wing is 0.8 ATR before clamping. */
  const SigmaMultiplier: real := 0.8

  /** The shipped configuration (09:25 open, 15:00 close, wings 700–1200, LLM off). */
  const DefaultConfig := Config(
    "NFO-OPT", 15,
    true, 700, 1200, 500,
    250000.0, 1, 1.2,
    9 * 60 + 25, 15 * 60, 30,
    true,
    [],
    false, 0.62, true)

  // ---------------------------------------------------------------- rounding helpers

  /** `max(minimum, min(maximum, value))` */
  function Clamp(value: real, minimum: real, maximum: real): (r: real)
    ensures minimum <= maximum ==> minimum <= r <= maximum
    ensures minimum <= value <= maximum ==> r == value
    ensures minimum > maximum ==> r == minimum
  {
    var upper := if maximum <= value then maximum else value;
    if minimum >= upper then minimum else upper
  }

  /** Python's `round(x)`: to the nearest integer, halves to the even neighbour. */
  function RoundHalfEven(x: real): (n: int)
    ensures -0.5 <= n as real - x <= 0.5
    ensures x - x.Floor as real != 0.5 ==> -0.5 < n as real - x < 0.5
    ensures x - x.Floor as real == 0.5 ==> n % 2 == 0
  {
    var f := x.Floor;
    var d := x - f as real;
    if d < 0.5 then f
    else if d > 0.5 then f + 1
    else if f % 2 == 0 then f
    else f + 1
  }

  /** Rounding keeps a value between two integer bounds between them. */
  lemma RoundBetween(x: real, lo: int, hi: int)
    requires lo as real <= x <= hi as real
    ensures lo <= RoundHalfEven(x) <= hi
  {
  }

  /** `int(round(x / 100) * 100)`: the nearest multiple of 100, halves to an even hundred. */
  function Hundreds(x: real): int {
    RoundHalfEven(x / 100.0) * 100
  }

  function Dist(strike: int, value: real): real {
    var d := strike as real - value;
    if d < 0.0 then -d else d
  }

  /**
   * A strike at the least distance from `value`. Among equally near strikes this picks the
   * first in list order; that tie choice is the model's own, since the source takes the
   * first of an unstable `argsort`.
   */
  function NearestStrike(value: real, strikes: seq<int>): (s: int)
    requires |strikes| > 0
    ensures s in strikes
    ensures forall t :: t in strikes ==> Dist(s, value) <= Dist(t, value)
  {
    if |strikes| == 1 then strikes[0]
    else
      var rest := NearestStrike(value, strikes[1..]);
      assert forall t :: t in strikes ==> t == strikes[0] || t in strikes[1..];
      if Dist(strikes[0], value) <= Dist(rest, value) then strikes[0] else rest
  }

  /**
   * `round_to_nearest_strike`: a listed strike that no listed strike is strictly closer
   * to, or, without strikes, the multiple of 100 nearest to the value.
   */
  function RoundToNearestStrike(value: real, strikes: seq<int>): (r: int)
    ensures |strikes| > 0 ==> r in strikes && forall t :: t in strikes ==> Dist(r, value) <= Dist(t, value)
    ensures |strikes| == 0 ==> r % 100 == 0 && Dist(r, value) <= 50.0
  {
    if |strikes| == 0 then
      HundredsNear(value);
      Hundreds(value)
    else NearestStrike(value, strikes)
  }

  // ---------------------------------------------------------------- wing distance

  /** A daily candle from the historical-data call. */
  datatype Candle = Candle(high: real, low: real, close: real)

  /** The true range of candle j against the previous close. */
  function CandleTrueRange(cs: seq<Candle>, j: int): (tr: real)
    requires 1 <= j < |cs|
    ensures tr >= 0.0
  {
    var h, l, pc := cs[j].high, cs[j].low, cs[j - 1].close;
    Max3(h - l, Abs(h - pc), Abs(l - pc))
  }

  /** Sum of the true ranges of candles lo .. hi - 1. */
  function TrueRangeSum(cs: seq<Candle>, lo: int, hi: int): (s: real)
    requires 1 <= lo <= hi <= |cs|
    ensures s >= 0.0
    decreases hi - lo
  {
    if lo == hi then 0.0 else CandleTrueRange(cs, hi - 1) + TrueRangeSum(cs, lo, hi - 1)
  }

  /** The 14-candle ATR at the last candle (the rolling mean has no gap once 15 candles exist). */
  function Atr14(cs: seq<Candle>): (atr: real)
    requires |cs| >= 15
    ensures atr >= 0.0
  {
    TrueRangeSum(cs, |cs| - 14, |cs|) / 14.0
  }

  /**
   * `compute_wing_distance`: `candles` is `None` when the historical-data call fails.
   * The spot-price argument of the source is unused and is not a parameter here.
   */
  function WingDistance(cfg: Config, candles: Option<seq<Candle>>): int {
    if !cfg.useSigmaWings then cfg.wingDistanceDefault
    else if candles.None? || |candles.value| < 15 then cfg.wingDistanceDefault
    else
      var sigmaDistance := Atr14(candles.value) * SigmaMultiplier;
      var clamped := Clamp(sigmaDistance, cfg.minWingDistance as real, cfg.maxWingDistance as real);
      Hundreds(clamped)
  }

  /**
   * Without sigma wings or without 15 candles the default is used. Otherwise the
   * distance is the multiple of 100 nearest to 0.8 × the 14-candle ATR clamped to the
   * wing bounds (within 50 of it), within 50 of the bounds, and inside them when they are
   * multiples of 100 (700 and 1200 as shipped).
   */
  lemma WingDistanceSpec(cfg: Config, candles: Option<seq<Candle>>)
    requires cfg.minWingDistance <= cfg.maxWingDistance
    ensures !cfg.useSigmaWings || candles.None? || |candles.value| < 15 ==>
      WingDistance(cfg, candles) == cfg.wingDistanceDefault
    ensures cfg.useSigmaWings && candles.Some? && |candles.value| >= 15 ==>
      WingDistance(cfg, candles) % 100 == 0
      && Dist(WingDistance(cfg, candles),
              Clamp(Atr14(candles.value) * SigmaMultiplier, cfg.minWingDistance as real, cfg.maxWingDistance as real)) <= 50.0
      && cfg.minWingDistance - 50 <= WingDistance(cfg, candles) <= cfg.maxWingDistance + 50
      && (cfg.minWingDistance % 100 == 0 && cfg.maxWingDistance % 100 == 0 ==>
            cfg.minWingDistance <= WingDistance(cfg, candles) <= cfg.maxWingDistance)
  {
    if cfg.useSigmaWings && candles.Some? && |candles.value| >= 15 {
      var lo, hi := cfg.minWingDistance, cfg.maxWingDistance;
      var sigma := Atr14(candles.value) * SigmaMultiplier;
      var clamped := Clamp(sigma, lo as real, hi as real);
      assert WingDistance(cfg, candles) == Hundreds(clamped);
      RoundedHundreds(clamped, lo, hi);
      HundredsNear(clamped);
    }
  }

  /** Rounding a value in [lo, hi] to hundreds stays within 50 of the bounds, and inside whole-hundred bounds. */
  lemma RoundedHundreds(x: real, lo: int, hi: int)
    requires lo as real <= x <= hi as real
    ensures var w := Hundreds(x);
      && w % 100 == 0
      && lo - 50 <= w <= hi + 50
      && (lo % 100 == 0 && hi % 100 == 0 ==> lo <= w <= hi)
  {
    var q := x / 100.0;
    assert x == q * 100.0;
    if lo % 100 == 0 && hi % 100 == 0 {
      assert (lo / 100) as real <= q <= (hi / 100) as real;
      RoundBetween(q, lo / 100, hi / 100);
    }
  }

  lemma HundredsNear(x: real)
    ensures Hundreds(x) % 100 == 0 && Dist(Hundreds(x), x) <= 50.0
  {
    var q := x / 100.0;
    assert x == q * 100.0;
  }

  // ---------------------------------------------------------------- contracts and expiry

  /** A calendar date (as produced by `pd.to_datetime` on the dump's expiry column). */
  datatype Date = Date(year: int, month: int, day: int)

  predicate DateLe(a: Date, b: Date) {
    a.year < b.year || (a.year == b.year && (a.month < b.month || (a.month == b.month && a.day <= b.day)))
  }

  /** The month as one ordered key (`to_period('M')`). */
  function MonthKey(d: Date): int { d.year * 12 + d.month }

  /** A row of the broker's instrument dump. */
  datatype Instrument = Instrument(
    instrumentToken: int, tradingsymbol: string, name: string, segment: string,
    instrumentType: string, strike: Option<int>, expiry: Option<Date>, lotSize: Option<int>)

  /** The BankNifty option rows (`name == 'BANKNIFTY'` and the configured segment). */
  function BankNiftyOptions(instruments: seq<Instrument>, cfg: Config): (opts: seq<Instrument>)
    ensures forall o :: o in opts <==> o in instruments && o.name == "BANKNIFTY" && o.segment == cfg.exchange
  {
    if |instruments| == 0 then []
    else
      var rest := BankNiftyOptions(instruments[1..], cfg);
      var i := instruments[0];
      assert forall o :: o in instruments <==> o == i || o in instruments[1..];
      if i.name == "BANKNIFTY" && i.segment == cfg.exchange then [i] + rest else rest
  }

  /** The option expiries on or after `today`, in dump order. */
  function FutureExpiries(opts: seq<Instrument>, today: Date): (es: seq<Date>)
    ensures forall e :: e in es <==> exists o :: o in opts && o.expiry == Some(e) && DateLe(today, e)
  {
    if |opts| == 0 then []
    else
      var rest := FutureExpiries(opts[1..], today);
      var o := opts[0];
      assert forall x :: x in opts <==> x == o || x in opts[1..];
      if o.expiry.Some? && DateLe(today, o.expiry.value) then [o.expiry.value] + rest else rest
  }

  /** The earliest month key among the dates. */
  function MinMonth(es: seq<Date>): (m: int)
    requires |es| > 0
    ensures exists e :: e in es && MonthKey(e) == m
    ensures forall e :: e in es ==> m <= MonthKey(e)
  {
    if |es| == 1 then MonthKey(es[0])
    else
      var rest := MinMonth(es[1..]);
      assert forall e :: e in es <==> e == es[0] || e in es[1..];
      if MonthKey(es[0]) <= rest then MonthKey(es[0]) else rest
  }

  /** The latest date of month `m` among the dates, if any (`groupby(...).max()`). */
  function MaxInMonth(es: seq<Date>, m: int): (r: Option<Date>)
    ensures r.None? <==> forall e :: e in es ==> MonthKey(e) != m
    ensures r.Some? ==> r.value in es && MonthKey(r.value) == m
    ensures r.Some? ==> forall e :: e in es && MonthKey(e) == m ==> DateLe(e, r.value)
  {
    if |es| == 0 then None
    else
      var rest := MaxInMonth(es[1..], m);
      var e := es[0];
      assert forall x :: x in es <==> x == e || x in es[1..];
      if MonthKey(e) != m then rest
      else if rest.None? || DateLe(rest.value, e) then Some(e)
      else rest
  }

  /** The dates in a month after `m`. */
  function LaterMonths(es: seq<Date>, m: int): (r: seq<Date>)
    ensures forall e :: e in r <==> e in es && MonthKey(e) > m
  {
    if |es| == 0 then []
    else
      var rest := LaterMonths(es[1..], m);
      assert forall x :: x in es <==> x == es[0] || x in es[1..];
      if MonthKey(es[0]) > m then [es[0]] + rest else rest
  }

  /** The first (earliest) monthly expiry: the last expiry of the earliest month. */
  function FirstMonthly(es: seq<Date>): Option<Date> {
    if |es| == 0 then None else MaxInMonth(es, MinMonth(es))
  }

  /**
   * The expiry `find_iron_fly_contracts` targets: the first monthly expiry, or the next
   * one when the first is today and the local time is past 15:30; `None` when there is
   * none to take.
   */
  function TargetExpiry(opts: seq<Instrument>, today: Date, pastClose: bool): Option<Date> {
    var es := FutureExpiries(opts, today);
    match FirstMonthly(es)
    case None => None
    case Some(first) =>
      if first == today && pastClose then FirstMonthly(LaterMonths(es, MonthKey(first)))
      else Some(first)
  }

  /** A monthly expiry is the last expiry of its month among the future expiries. */
  predicate IsMonthly(es: seq<Date>, d: Date) {
    d in es && forall e :: e in es && MonthKey(e) == MonthKey(d) ==> DateLe(e, d)
  }

  /** The first monthly expiry is monthly and no other expiry is in an earlier month. */
  lemma FirstMonthlySpec(es: seq<Date>)
    ensures FirstMonthly(es).None? <==> |es| == 0
    ensures FirstMonthly(es).Some? ==>
      IsMonthly(es, FirstMonthly(es).value)
      && forall e :: e in es ==> MonthKey(FirstMonthly(es).value) <= MonthKey(e)
  {
    if |es| > 0 {
      var m := MinMonth(es);
      var e :| e in es && MonthKey(e) == m;
    }
  }

  /**
   * The targeted expiry is a monthly expiry on or after today, in the earliest month
   * that has one, or (past 15:30 on an expiry day) in the earliest later month; the
   * selection fails exactly when no such expiry exists.
   */
  lemma TargetExpirySpec(opts: seq<Instrument>, today: Date, pastClose: bool)
    ensures var es := FutureExpiries(opts, today);
      match TargetExpiry(opts, today, pastClose)
      case None =>
        |es| == 0 || (pastClose && FirstMonthly(es) == Some(today)
                      && forall e :: e in es ==> MonthKey(e) == MonthKey(today))
      case Some(t) =>
        IsMonthly(es, t) && DateLe(today, t) && !(pastClose && t == today)
        && (forall e :: e in es && MonthKey(e) < MonthKey(t) ==> e == today && pastClose)
  {
    var es := FutureExpiries(opts, today);
    FirstMonthlySpec(es);
    if |es| > 0 {
      var first := FirstMonthly(es).value;
      if first == today && pastClose {
        var later := LaterMonths(es, MonthKey(first));
        FirstMonthlySpec(later);
        if |later| > 0 {
          var t := FirstMonthly(later).value;
          assert t in es;
          forall e | e in es && MonthKey(e) == MonthKey(t) ensures DateLe(e, t) {
            assert e in later;
          }
          forall e | e in es && MonthKey(e) < MonthKey(t) ensures e == today && pastClose {
            assert e !in later;
            assert MonthKey(e) == MonthKey(first);
            assert DateLe(e, first) && DateLe(today, e);
          }
        } else {
          forall e | e in es ensures MonthKey(e) == MonthKey(today) {
            assert e !in later;
          }
        }
      }
    }
  }

  /** The four legs of an iron fly, as trading symbols. */
  datatype Legs = Legs(shortCall: string, shortPut: string, longCall: string, longPut: string)

  /** The plan `find_iron_fly_contracts` returns and stores. */
  datatype Plan = Plan(legs: Legs, atmStrike: int, wingDistance: int, expiry: Date, lotSize: int)

  /** `.iloc[0]` of the options at `expiry` with the given strike and type. */
  function FirstSymbol(opts: seq<Instrument>, expiry: Date, strike: int, kind: string): (r: Option<string>)
    ensures r.Some? ==> exists o :: o in opts && o.expiry == Some(expiry) && o.strike == Some(strike)
                                  && o.instrumentType == kind && o.tradingsymbol == r.value
    ensures r.None? ==> forall o :: o in opts ==>
      !(o.expiry == Some(expiry) && o.strike == Some(strike) && o.instrumentType == kind)
  {
    if |opts| == 0 then None
    else
      var o := opts[0];
      assert forall x :: x in opts <==> x == o || x in opts[1..];
      if o.expiry == Some(expiry) && o.strike == Some(strike) && o.instrumentType == kind
      then Some(o.tradingsymbol)
      else FirstSymbol(opts[1..], expiry, strike, kind)
  }

  /** The plan for a given ATM strike and wing distance, or `None` (no expiry, a leg missing). */
  function ContractsFor(instruments: seq<Instrument>, cfg: Config, atmStrike: int, wingDistance: int,
                        lotSize: int, today: Date, pastClose: bool): Option<Plan>
  {
    var opts := BankNiftyOptions(instruments, cfg);
    match TargetExpiry(opts, today, pastClose)
    case None => None
    case Some(expiry) =>
      match LegsAt(opts, expiry, atmStrike, wingDistance)
      case None => None
      case Some(legs) => Some(Plan(legs, atmStrike, wingDistance, expiry, lotSize))
  }

  /** The four legs at `expiry`, or `None` when one of them is not listed. */
  function LegsAt(opts: seq<Instrument>, expiry: Date, atmStrike: int, wingDistance: int): Option<Legs> {
    var sc := FirstSymbol(opts, expiry, atmStrike, "CE");
    var sp := FirstSymbol(opts, expiry, atmStrike, "PE");
    var lc := FirstSymbol(opts, expiry, atmStrike + wingDistance, "CE");
    var lp := FirstSymbol(opts, expiry, atmStrike - wingDistance, "PE");
    if sc.None? || sp.None? || lc.None? || lp.None? then None
    else Some(Legs(sc.value, sp.value, lc.value, lp.value))
  }

  /** The option of kind `kind` at `strike` and `expiry` exists and has this symbol. */
  predicate ListedLeg(instruments: seq<Instrument>, cfg: Config, symbol: string, expiry: Date, strike: int, kind: string) {
    exists o :: o in instruments && o.name == "BANKNIFTY" && o.segment == cfg.exchange
      && o.expiry == Some(expiry) && o.strike == Some(strike) && o.instrumentType == kind
      && o.tradingsymbol == symbol
  }

  /**
   * A found plan sells the call and the put at the ATM strike and buys the call at
   * ATM + wing and the put at ATM − wing, all BankNifty options of the targeted expiry.
   */
  lemma ContractsSpec(instruments: seq<Instrument>, cfg: Config, atm: int, wing: int, lot: int, today: Date, pastClose: bool)
    requires ContractsFor(instruments, cfg, atm, wing, lot, today, pastClose).Some?
    ensures var p := ContractsFor(instruments, cfg, atm, wing, lot, today, pastClose).value;
      && Some(p.expiry) == TargetExpiry(BankNiftyOptions(instruments, cfg), today, pastClose)
      && p.atmStrike == atm && p.wingDistance == wing && p.lotSize == lot
      && ListedLeg(instruments, cfg, p.legs.shortCall, p.expiry, atm, "CE")
      && ListedLeg(instruments, cfg, p.legs.shortPut, p.expiry, atm, "PE")
      && ListedLeg(instruments, cfg, p.legs.longCall, p.expiry, atm + wing, "CE")
      && ListedLeg(instruments, cfg, p.legs.longPut, p.expiry, atm - wing, "PE")
  {
    var opts := BankNiftyOptions(instruments, cfg);
    var expiry := TargetExpiry(opts, today, pastClose).value;
    LegsAtListed(instruments, cfg, expiry, atm, wing);
  }

  /** Some BankNifty option of this expiry, strike and type is listed. */
  predicate Offered(instruments: seq<Instrument>, cfg: Config, expiry: Date, strike: int, kind: string) {
    exists o :: o in instruments && o.name == "BANKNIFTY" && o.segment == cfg.exchange
      && o.expiry == Some(expiry) && o.strike == Some(strike) && o.instrumentType == kind
  }

  /**
   * A plan is found exactly when a target expiry exists and all four legs (ATM call and
   * put, call at ATM + wing, put at ATM − wing) are offered at it.
   */
  lemma ContractsFoundIff(instruments: seq<Instrument>, cfg: Config, atm: int, wing: int, lot: int, today: Date, pastClose: bool)
    ensures var target := TargetExpiry(BankNiftyOptions(instruments, cfg), today, pastClose);
      ContractsFor(instruments, cfg, atm, wing, lot, today, pastClose).Some?
      <==> (target.Some?
        && Offered(instruments, cfg, target.value, atm, "CE") && Offered(instruments, cfg, target.value, atm, "PE")
        && Offered(instruments, cfg, target.value, atm + wing, "CE") && Offered(instruments, cfg, target.value, atm - wing, "PE"))
  {
    var opts := BankNiftyOptions(instruments, cfg);
    var target := TargetExpiry(opts, today, pastClose);
    if target.Some? {
      var e := target.value;
      assert ContractsFor(instruments, cfg, atm, wing, lot, today, pastClose).Some? <==> LegsAt(opts, e, atm, wing).Some?;
      OfferedIff(instruments, cfg, e, atm, "CE");
      OfferedIff(instruments, cfg, e, atm, "PE");
      OfferedIff(instruments, cfg, e, atm + wing, "CE");
      OfferedIff(instruments, cfg, e, atm - wing, "PE");
    }
  }

  /** A leg is offered exactly when `.iloc[0]` finds a row for it. */
  lemma OfferedIff(instruments: seq<Instrument>, cfg: Config, expiry: Date, strike: int, kind: string)
    ensures Offered(instruments, cfg, expiry, strike, kind)
        <==> FirstSymbol(BankNiftyOptions(instruments, cfg), expiry, strike, kind).Some?
  {
    var opts := BankNiftyOptions(instruments, cfg);
    if Offered(instruments, cfg, expiry, strike, kind) {
      var o :| o in instruments && o.name == "BANKNIFTY" && o.segment == cfg.exchange
        && o.expiry == Some(expiry) && o.strike == Some(strike) && o.instrumentType == kind;
      assert o in opts;
    }
  }

  lemma LegsAtListed(instruments: seq<Instrument>, cfg: Config, expiry: Date, atm: int, wing: int)
    requires LegsAt(BankNiftyOptions(instruments, cfg), expiry, atm, wing).Some?
    ensures var l := LegsAt(BankNiftyOptions(instruments, cfg), expiry, atm, wing).value;
      && ListedLeg(instruments, cfg, l.shortCall, expiry, atm, "CE")
      && ListedLeg(instruments, cfg, l.shortPut, expiry, atm, "PE")
      && ListedLeg(instruments, cfg, l.longCall, expiry, atm + wing, "CE")
      && ListedLeg(instruments, cfg, l.longPut, expiry, atm - wing, "PE")
  {
  }

  /** The strikes offered for BankNifty options (`dropna`; order and duplicates only affect ties). */
  function OptionStrikes(opts: seq<Instrument>): (ss: seq<int>)
    ensures forall s :: s in ss <==> exists o :: o in opts && o.strike == Some(s)
  {
    if |opts| == 0 then []
    else
      var rest := OptionStrikes(opts[1..]);
      assert forall x :: x in opts <==> x == opts[0] || x in opts[1..];
      if opts[0].strike.Some? then [opts[0].strike.value] + rest else rest
  }

  /** `get_atm_strike`: `spot` is `None` when the quote call fails. */
  function AtmStrike(instruments: seq<Instrument>, cfg: Config, spot: Option<real>): Option<int> {
    if spot.None? then None
    else Some(RoundToNearestStrike(spot.value, OptionStrikes(BankNiftyOptions(instruments, cfg))))
  }

  /** A BankNifty option of the configured segment lists strike `v`. */
  predicate ListedStrike(instruments: seq<Instrument>, cfg: Config, v: int) {
    exists o :: o in instruments && o.name == "BANKNIFTY" && o.segment == cfg.exchange && o.strike == Some(v)
  }

  /**
   * The ATM strike is known exactly when the spot price is. It is then a listed BankNifty
   * strike that no listed strike is strictly closer to the spot than, or, when no strike
   * is listed, the multiple of 100 nearest to the spot.
   */
  lemma AtmStrikeSpec(instruments: seq<Instrument>, cfg: Config, spot: Option<real>)
    ensures AtmStrike(instruments, cfg, spot).Some? <==> spot.Some?
    ensures spot.Some? && (exists v :: ListedStrike(instruments, cfg, v)) ==>
      var atm := AtmStrike(instruments, cfg, spot).value;
      && ListedStrike(instruments, cfg, atm)
      && forall v :: ListedStrike(instruments, cfg, v) ==> Dist(atm, spot.value) <= Dist(v, spot.value)
    ensures spot.Some? && (forall v :: !ListedStrike(instruments, cfg, v)) ==>
      var atm := AtmStrike(instruments, cfg, spot).value;
      atm % 100 == 0 && Dist(atm, spot.value) <= 50.0
  {
    if spot.Some? {
      var opts := BankNiftyOptions(instruments, cfg);
      var ss := OptionStrikes(opts);
      forall v ensures v in ss <==> ListedStrike(instruments, cfg, v) {
        if v in ss {
          var o :| o in opts && o.strike == Some(v);
        }
        if ListedStrike(instruments, cfg, v) {
          var o :| o in instruments && o.name == "BANKNIFTY" && o.segment == cfg.exchange && o.strike == Some(v);
          assert o in opts;
        }
      }
      if exists v :: ListedStrike(instruments, cfg, v) {
        var v :| ListedStrike(instruments, cfg, v);
        assert v in ss;
      }
    }
  }

  /** What `load_instruments` finds: the index token and the lot size, or `None` (the process exits). */
  datatype Loaded = Loaded(indexToken: int, lotSize: int)

  predicate IsIndexRow(i: Instrument) { i.name == "NIFTY BANK" && i.segment == "INDICES" }

  /** `nifty_bank_series.iloc[0]['instrument_token']`: the token of the first index row. */
  function FirstIndex(instruments: seq<Instrument>): (r: Option<int>)
    ensures r.Some? ==> exists k :: (0 <= k < |instruments| && IsIndexRow(instruments[k])
      && instruments[k].instrumentToken == r.value && forall j :: 0 <= j < k ==> !IsIndexRow(instruments[j]))
    ensures r.None? ==> forall i :: i in instruments ==> !IsIndexRow(i)
  {
    if |instruments| == 0 then None
    else
      var i := instruments[0];
      assert forall x :: x in instruments <==> x == i || x in instruments[1..];
      if IsIndexRow(i) then Some(i.instrumentToken)
      else
        var r := FirstIndex(instruments[1..]);
        assert r.Some? ==> exists k :: (0 <= k < |instruments| && IsIndexRow(instruments[k])
          && instruments[k].instrumentToken == r.value && forall j :: 0 <= j < k ==> !IsIndexRow(instruments[j])) by {
          if r.Some? {
            var k :| 0 <= k < |instruments| - 1 && IsIndexRow(instruments[1..][k])
              && instruments[1..][k].instrumentToken == r.value && forall j :: 0 <= j < k ==> !IsIndexRow(instruments[1..][j]);
            assert instruments[k + 1] == instruments[1..][k];
            assert forall j :: 1 <= j < k + 1 ==> instruments[j] == instruments[1..][j - 1];
          }
        }
        r
  }

  /** The first present lot size in row order (`dropna().unique()[0]`). */
  function FirstLotSize(opts: seq<Instrument>): (r: Option<int>)
    ensures r.Some? ==> exists k :: (0 <= k < |opts| && opts[k].lotSize == r
      && forall j :: 0 <= j < k ==> opts[j].lotSize.None?)
    ensures r.None? ==> forall o :: o in opts ==> o.lotSize.None?
  {
    if |opts| == 0 then None
    else
      assert forall x :: x in opts <==> x == opts[0] || x in opts[1..];
      if opts[0].lotSize.Some? then opts[0].lotSize
      else
        var r := FirstLotSize(opts[1..]);
        assert r.Some? ==> exists k :: (0 <= k < |opts| && opts[k].lotSize == r
          && forall j :: 0 <= j < k ==> opts[j].lotSize.None?) by {
          if r.Some? {
            var k :| 0 <= k < |opts| - 1 && opts[1..][k].lotSize == r && forall j :: 0 <= j < k ==> opts[1..][j].lotSize.None?;
            assert opts[k + 1] == opts[1..][k];
            assert forall j :: 1 <= j < k + 1 ==> opts[j] == opts[1..][j - 1];
          }
        }
        r
  }

  /**
   * `load_instruments`: fails without the NIFTY BANK index row or without BankNifty
   * options; the index token is that of the first index row, the lot size the first
   * listed one among the BankNifty options, or the configured fallback.
   */
  function LoadInstruments(instruments: seq<Instrument>, cfg: Config): (r: Option<Loaded>)
    ensures r.None? <==> FirstIndex(instruments).None? || |BankNiftyOptions(instruments, cfg)| == 0
    ensures r.Some? ==> Some(r.value.indexToken) == FirstIndex(instruments)
    ensures r.Some? && FirstLotSize(BankNiftyOptions(instruments, cfg)).Some? ==>
      Some(r.value.lotSize) == FirstLotSize(BankNiftyOptions(instruments, cfg))
    ensures r.Some? ==>
      (r.value.lotSize == cfg.lotSizeFallback
         <== forall o :: o in instruments && o.name == "BANKNIFTY" && o.segment == cfg.exchange ==> o.lotSize.None?)
  {
    var index := FirstIndex(instruments);
    var opts := BankNiftyOptions(instruments, cfg);
    if index.None? || |opts| == 0 then None
    else
      var lot := FirstLotSize(opts);
      Some(Loaded(index.value, if lot.Some? then lot.value else cfg.lotSizeFallback))
  }

  // ---------------------------------------------------------------- guards

  function OpenSecond(cfg: Config): real { (cfg.marketOpenMinute * 60) as real }

  function CutoffSecond(cfg: Config): real {
    ((cfg.marketCloseMinute - cfg.blockNewEntriesLastMinutes) * 60) as real
  }

  /** `is_trading_window_open`, at `now` seconds after local midnight. */
  function IsTradingWindowOpen(cfg: Config, now: real): (open: bool)
    ensures cfg.allowAfterHoursSimulation ==> open
    ensures !cfg.allowAfterHoursSimulation ==> (open <==> OpenSecond(cfg) <= now <= CutoffSecond(cfg))
  {
    if cfg.allowAfterHoursSimulation then true
    else if now < OpenSecond(cfg) then false
    else if now > CutoffSecond(cfg) then false
    else true
  }

  /** As shipped, entries would be blocked from 14:30 on and before 09:25 without the simulation switch. */
  lemma ShippedWindow(now: real)
    ensures IsTradingWindowOpen(DefaultConfig, now)
    ensures IsTradingWindowOpen(DefaultConfig.(allowAfterHoursSimulation := false), now)
      <==> 33900.0 <= now <= 52200.0
  {
  }

  predicate Covers(w: BlackoutWindow, now: int) {
    w.start.Some? && w.end.Some? && w.start.value <= now <= w.end.value
  }

  /** `in_event_blackout`: the loop over the configured windows, at UTC instant `now`. */
  method InEventBlackout(windows: seq<BlackoutWindow>, now: int) returns (active: bool)
    ensures active <==> exists i :: 0 <= i < |windows| && Covers(windows[i], now)
  {
    if |windows| == 0 {
      return false;
    }
    var k := 0;
    while k < |windows|
      invariant 0 <= k <= |windows|
      invariant forall i :: 0 <= i < k ==> !Covers(windows[i], now)
    {
      var window := windows[k];
      if window.start.Some? && window.end.Some? {
        if window.start.value <= now <= window.end.value {
          return true;
        }
      }
      k := k + 1;
    }
    return false;
  }

  function RequiredMargin(cfg: Config): real {
    cfg.requiredMarginPerSet * cfg.maxSets as real * cfg.marginBufferMultiplier
  }

  /** `check_margin_buffer`: `available` is `None` when the margin call raises (entry blocked). */
  function MarginOk(cfg: Config, available: Option<real>): (ok: bool)
    ensures ok <==> available.Some? && available.value >= RequiredMargin(cfg)
  {
    match available
    case None => false
    case Some(a) => !(a < RequiredMargin(cfg))
  }

  /** The outcome of the LLM gate's external call. */
  datatype LlmReply =
    | ClientMissing             // the openai package is not installed
    | ApiKeyMissing             // OPENAI_API_KEY unset or empty
    | CallFailed                // the request or the JSON decoding raised
    | Decision(enter: bool, confidence: Option<real>)

  /** The gate's verdict. */
  function LlmApproves(cfg: Config, reply: LlmReply): bool {
    if !cfg.llmEnabled then true
    else match reply
      case ClientMissing => false
      case ApiKeyMissing => false
      case CallFailed => cfg.llmNoopOnError
      case Decision(enter, confidence) =>
        if enter && confidence.Some? && confidence.value < cfg.llmConfidenceThreshold then false
        else enter
  }

  /** The recorded confidence after the gate ran. */
  function ConfidenceAfter(cfg: Config, reply: LlmReply, before: Option<real>): Option<real> {
    if !cfg.llmEnabled then None
    else if reply.Decision? then reply.confidence
    else before
  }

  /**
   * The gate lets every entry through when disabled; a decision lets it through only
   * when it says enter and its confidence, if given, reaches the threshold.
   */
  lemma LlmGateSpec(cfg: Config, reply: LlmReply)
    ensures !cfg.llmEnabled ==> LlmApproves(cfg, reply)
    ensures cfg.llmEnabled && reply.Decision? ==>
      (LlmApproves(cfg, reply) <==>
         (reply.enter && (reply.confidence.None? || reply.confidence.value >= cfg.llmConfidenceThreshold)))
    ensures cfg.llmEnabled && (reply.ClientMissing? || reply.ApiKeyMissing?) ==> !LlmApproves(cfg, reply)
  {
  }

  // ---------------------------------------------------------------- event log line

  /** `position_id`: the prefix and the local time as `%Y%m%d_%H%M%S`. */
  function PositionId(stamp: string): string { "BNF_IFLY_" + stamp }

  /** The ENTRY line `log_entry_event` writes: the details JSON is quoted, `pnl_realized` is 0. */
  function EntryLine(isoNow: string, positionId: string, detailsJson: string, orderIds: seq<string>): string {
    isoNow + "," + positionId + "," + "ENTRY," + "\"" + detailsJson + "\"," + "0," + Join(",", orderIds)
  }

  /** The fake id of a simulated order, from a millisecond clock reading. */
  function SimOrderId(millis: nat): string { "SIM_" + NatToString(millis) }

  /** The ids of the four simulated orders, from successive clock readings. */
  function SimOrderIds(millis: nat -> nat): (ids: seq<string>)
    ensures |ids| == 4 && forall k :: 0 <= k < 4 ==> ids[k] == SimOrderId(millis(k))
  {
    seq(4, k requires 0 <= k < 4 => SimOrderId(millis(k)))
  }

  datatype Side = Buy | Sell

  datatype OrderSpec = OrderSpec(tradingsymbol: string, side: Side)

  /** The four orders of `place_iron_fly_orders`, in submission order. */
  function OrdersFor(legs: Legs): (os: seq<OrderSpec>)
    ensures |os| == 4
    ensures forall k :: 0 <= k < 4 ==> (os[k].side == Sell <==> k < 2)
    ensures os[0].tradingsymbol == legs.shortCall && os[1].tradingsymbol == legs.shortPut
    ensures os[2].tradingsymbol == legs.longCall && os[3].tradingsymbol == legs.longPut
  {
    [OrderSpec(legs.shortCall, Sell), OrderSpec(legs.shortPut, Sell),
     OrderSpec(legs.longCall, Buy), OrderSpec(legs.longPut, Buy)]
  }

  /**
   * For a found plan, the two sell orders are on the ATM call and put and the two buy
   * orders on the call at ATM + wing and the put at ATM − wing, all of the plan's expiry.
   */
  lemma OrdersSellAtmBuyWings(instruments: seq<Instrument>, cfg: Config, atm: int, wing: int, lot: int,
                              today: Date, pastClose: bool)
    requires ContractsFor(instruments, cfg, atm, wing, lot, today, pastClose).Some?
    ensures var p := ContractsFor(instruments, cfg, atm, wing, lot, today, pastClose).value;
      var os := OrdersFor(p.legs);
      && os[0].side == Sell && ListedLeg(instruments, cfg, os[0].tradingsymbol, p.expiry, atm, "CE")
      && os[1].side == Sell && ListedLeg(instruments, cfg, os[1].tradingsymbol, p.expiry, atm, "PE")
      && os[2].side == Buy && ListedLeg(instruments, cfg, os[2].tradingsymbol, p.expiry, atm + wing, "CE")
      && os[3].side == Buy && ListedLeg(instruments, cfg, os[3].tradingsymbol, p.expiry, atm - wing, "PE")
  {
    ContractsSpec(instruments, cfg, atm, wing, lot, today, pastClose);
  }

  /** The reason written into the details. */
  function EntryReason(cfg: Config): string {
    if cfg.llmEnabled then "LLM Signal Favorable" else "Simulated Entry"
  }

  /** The details dict of the ENTRY event (credit and profit are the literal "N/A"). */
  datatype EntryDetails = EntryDetails(
    reason: string, atmStrike: int, wingDistance: int, lotSize: int, expiry: Date,
    llmConfidence: Option<real>, strikes: Legs, initialCredit: string, maxProfit: string)

  function DetailsFor(cfg: Config, plan: Plan, confidence: Option<real>): EntryDetails {
    EntryDetails(EntryReason(cfg), plan.atmStrike, plan.wingDistance, plan.lotSize, plan.expiry,
                 confidence, plan.legs, "N/A", "N/A")
  }

  /** The clock and broker readings one entry attempt sees. */
  datatype Readings = Readings(
    localSeconds: real, utcNow: int, marginAvailable: Option<real>, spot: Option<real>,
    llm: LlmReply, isoNow: string, stamp: string)

  // ---------------------------------------------------------------- the trader

  class IronFlyTrader {
    const cfg: Config
    const instruments: seq<Instrument>
    const indexToken: int
    var lotSize: int
    var positionId: Option<string>
    var currentPlan: Option<Plan>
    var lastStateLogTime: Option<int>
    var lastLlmConfidence: Option<real>
    /** The lines handed to the event logger, oldest first. */
    var eventLog: seq<string>

    /** The trader after `load_instruments` succeeded. */
    constructor (cfg: Config, instruments: seq<Instrument>)
      requires LoadInstruments(instruments, cfg).Some?
      ensures this.cfg == cfg && this.instruments == instruments
      ensures indexToken == LoadInstruments(instruments, cfg).value.indexToken
      ensures lotSize == LoadInstruments(instruments, cfg).value.lotSize
      ensures positionId.None? && currentPlan.None? && lastStateLogTime.None? && lastLlmConfidence.None?
      ensures eventLog == []
    {
      var loaded := LoadInstruments(instruments, cfg).value;
      this.cfg := cfg;
      this.instruments := instruments;
      indexToken := loaded.indexToken;
      lotSize := loaded.lotSize;
      positionId := None;
      currentPlan := None;
      lastStateLogTime := None;
      lastLlmConfidence := None;
      eventLog := [];
    }

    /** `find_iron_fly_contracts`: a found plan is also stored as the current plan. */
    method FindIronFlyContracts(atmStrike: int, wingDistance: int, today: Date, pastClose: bool)
      returns (plan: Option<Plan>)
      modifies this
      ensures plan == ContractsFor(instruments, cfg, atmStrike, wingDistance, old(lotSize), today, pastClose)
      ensures currentPlan == (if plan.Some? then plan else old(currentPlan))
      ensures (lotSize, positionId, eventLog, lastStateLogTime, lastLlmConfidence)
           == old((lotSize, positionId, eventLog, lastStateLogTime, lastLlmConfidence))
    {
      plan := ContractsFor(instruments, cfg, atmStrike, wingDistance, lotSize, today, pastClose);
      currentPlan := if plan.Some? then plan else currentPlan;
    }

    /** `should_enter_via_llm`: records the reply's confidence and returns the verdict. */
    method ShouldEnterViaLlm(reply: LlmReply) returns (ok: bool)
      modifies this
      ensures ok == LlmApproves(cfg, reply)
      ensures lastLlmConfidence == ConfidenceAfter(cfg, reply, old(lastLlmConfidence))
      ensures lotSize == old(lotSize) && positionId == old(positionId) && currentPlan == old(currentPlan)
      ensures eventLog == old(eventLog) && lastStateLogTime == old(lastStateLogTime)
    {
      if !cfg.llmEnabled {
        lastLlmConfidence := None;
        return true;
      }
      match reply
      case ClientMissing => return false;
      case ApiKeyMissing => return false;
      case CallFailed => return cfg.llmNoopOnError;
      case Decision(enter, confidence) =>
        lastLlmConfidence := confidence;
        if enter && lastLlmConfidence.Some? && lastLlmConfidence.value < cfg.llmConfidenceThreshold {
          return false;
        }
        return enter;
    }

    /**
     * `log_entry_event`: appends the ENTRY line, takes the new position id and clears the
     * time of the last state snapshot.
     */
    method LogEntryEvent(orderIds: seq<string>, detailsJson: string, isoNow: string, stamp: string)
      modifies this
      ensures eventLog == old(eventLog) + [EntryLine(isoNow, PositionId(stamp), detailsJson, orderIds)]
      ensures positionId == Some(PositionId(stamp)) && lastStateLogTime.None?
      ensures lotSize == old(lotSize) && currentPlan == old(currentPlan) && lastLlmConfidence == old(lastLlmConfidence)
    {
      var id := PositionId(stamp);
      eventLog := eventLog + [EntryLine(isoNow, id, detailsJson, orderIds)];
      positionId := Some(id);
      lastStateLogTime := None;
    }

    /**
     * `place_iron_fly_orders`: one simulated order per leg, sells first, each with an id
     * from the k-th millisecond clock reading, then the ENTRY line. `dumps` is the JSON
     * encoder of the details.
     */
    method PlaceIronFlyOrders(plan: Plan, millis: nat -> nat, dumps: EntryDetails -> string,
                              isoNow: string, stamp: string)
      returns (orderIds: seq<string>)
      modifies this
      ensures |orderIds| == |OrdersFor(plan.legs)| == 4
      ensures forall k :: 0 <= k < 4 ==> orderIds[k] == SimOrderId(millis(k))
      ensures eventLog == old(eventLog) + [EntryLine(isoNow, PositionId(stamp),
                dumps(DetailsFor(cfg, plan, old(lastLlmConfidence))), orderIds)]
      ensures positionId == Some(PositionId(stamp)) && lastStateLogTime.None?
      ensures lotSize == old(lotSize) && currentPlan == old(currentPlan) && lastLlmConfidence == old(lastLlmConfidence)
    {
      var orders := OrdersFor(plan.legs);
      orderIds := [];
      var k := 0;
      while k < |orders|
        invariant 0 <= k <= |orders|
        invariant |orderIds| == k && forall i :: 0 <= i < k ==> orderIds[i] == SimOrderId(millis(i))
      {
        orderIds := orderIds + [SimOrderId(millis(k))];
        k := k + 1;
      }
      LogEntryEvent(orderIds, dumps(DetailsFor(cfg, plan, lastLlmConfidence)), isoNow, stamp);
    }

    /**
     * `evaluate_and_execute_entry`: the guards in order — trading window, event
     * blackout, margin, spot price, LLM gate — and, when all pass, the simulated orders.
     */
    method EvaluateAndExecuteEntry(plan: Plan, r: Readings, millis: nat -> nat, dumps: EntryDetails -> string)
      returns (entered: bool)
      modifies this
      ensures entered <==>
        IsTradingWindowOpen(cfg, r.localSeconds)
        && !(exists i :: 0 <= i < |cfg.eventBlackouts| && Covers(cfg.eventBlackouts[i], r.utcNow))
        && MarginOk(cfg, r.marginAvailable) && r.spot.Some? && LlmApproves(cfg, r.llm)
      ensures !entered ==> eventLog == old(eventLog) && positionId == old(positionId)
                           && lastStateLogTime == old(lastStateLogTime)
      ensures entered ==>
        && eventLog == old(eventLog) + [EntryLine(r.isoNow, PositionId(r.stamp),
             dumps(DetailsFor(cfg, plan, ConfidenceAfter(cfg, r.llm, old(lastLlmConfidence)))), SimOrderIds(millis))]
        && positionId == Some(PositionId(r.stamp)) && lastStateLogTime.None?
      ensures lastLlmConfidence ==
        if IsTradingWindowOpen(cfg, r.localSeconds)
           && !(exists i :: 0 <= i < |cfg.eventBlackouts| && Covers(cfg.eventBlackouts[i], r.utcNow))
           && MarginOk(cfg, r.marginAvailable) && r.spot.Some?
        then ConfidenceAfter(cfg, r.llm, old(lastLlmConfidence))
        else old(lastLlmConfidence)
      ensures lotSize == old(lotSize) && currentPlan == old(currentPlan)
    {
      if !IsTradingWindowOpen(cfg, r.localSeconds) {
        return false;
      }
      var blackout := InEventBlackout(cfg.eventBlackouts, r.utcNow);
      if blackout {
        return false;
      }
      if !MarginOk(cfg, r.marginAvailable) {
        return false;
      }
      var spot := r.spot;
      if spot.None? {
        return false;
      }
      var gate := ShouldEnterViaLlm(r.llm);
      if !gate {
        return false;
      }
      var orderIds := PlaceIronFlyOrders(plan, millis, dumps, r.isoNow, r.stamp);
      assert orderIds == SimOrderIds(millis);
      entered := true;
    }
  }
}
