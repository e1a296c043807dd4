/**
 * `quick_kite_test.py`: the quick checks (shared with `kite_api_test.py`, see
 * `KiteChecks`), the minimal authenticated endpoint checks and `main`.
 */
module QuickKiteTest {
  import opened Wrappers
  import opened Text
  import opened KiteChecks

  /** The steps `main` takes, in order. */
  datatype Stage = QuickSuite | ProceedDespiteFailures | AuthenticatedTests

  /**
   * `main`: the quick suite always runs; `--full` alone decides whether the
   * authenticated checks follow, a failed quick suite only adds a warning.
   */
  function Main(full: bool, quickOk: bool): (st: seq<Stage>)
    ensures |st| >= 1 && st[0] == QuickSuite
    ensures AuthenticatedTests in st <==> full
    ensures ProceedDespiteFailures in st <==> full && !quickOk
  {
    if !full then [QuickSuite]
    else if !quickOk then [QuickSuite, ProceedDespiteFailures, AuthenticatedTests]
    else [QuickSuite, AuthenticatedTests]
  }

  const QuoteKey: string := "NSE:RELIANCE"

  /**
   * `run_minimal_authenticated_tests`. `tokenLine` and `typedSecret` are the lines typed at
   * the prompts, `envSecret` is `KITE_API_SECRET`, `session` what `generate_session`
   * returned (or the exception it raised); `profileOk` and `marginsOk` say the calls
   * returned, `quote` holds the keys of the quote reply, `None` when the call raised.
   */
  function MinimalAuthenticatedTests(tokenLine: string, envSecret: Option<string>, typedSecret: string,
                                     session: Result<map<string, string>, string>,
                                     profileOk: bool, marginsOk: bool, quote: Option<set<string>>): (ok: bool)
    ensures ok <==> Strip(tokenLine) != [] && ApiSecret(envSecret, typedSecret) != []
                    && session.Success? && "access_token" in session.value
                    && profileOk && marginsOk && quote.Some?
  {
    if Strip(tokenLine) == [] then false
    else if ApiSecret(envSecret, typedSecret) == [] then false
    else if session.Failure? || "access_token" !in session.value then false
    else if !profileOk || !marginsOk || quote.None? then false
    else
      var quoteOk := QuoteKey in quote.value;
      quoteOk || true
  }
}
