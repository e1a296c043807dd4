/**
 * The pre-authentication checks both Kite test scripts run (`kite_api_test.py` and
 * `quick_kite_test.py` carry identical copies): the API-key format, the client
 * construction, the login URL and the redirect URL. Everything that talks to the
 * broker or the network arrives here as its outcome.
 */
module KiteChecks {
  import opened Wrappers
  import opened Text

  /** Why `quick_test_api_key_format` accepts or rejects a key. */
  datatype KeyVerdict = BadLength | BadCharacters | KeyLooksValid

  /** The key's length is checked first, its characters second. */
  function CheckKeyFormat(key: string): (v: KeyVerdict)
    ensures v == BadLength <==> |key| != 16 && |key| != 32
    ensures v == BadCharacters <==> (|key| == 16 || |key| == 32) && !IsAlnum(key)
    ensures v == KeyLooksValid <==> (|key| == 16 || |key| == 32) && forall i :: 0 <= i < |key| ==> IsAlpha(key[i]) || IsDigit(key[i])
  {
    if |key| != 16 && |key| != 32 then BadLength
    else if !IsAlnum(key) then BadCharacters
    else KeyLooksValid
  }

  /** `quick_test_api_key_format()` on the configured key. */
  predicate KeyFormatOk(key: string) {
    CheckKeyFormat(key) == KeyLooksValid
  }

  /** `s in url` for strings: `s` occurs somewhere in `url` (the empty string always does). */
  predicate Contains(url: string, s: string) {
    exists i :: 0 <= i <= |url| - |s| && Occurs(url, s, i)
  }

  const KiteHost: string := "kite.zerodha.com"

  /**
   * `quick_test_login_url`: `url` is what `login_url()` returned, `None` when it raised;
   * the URL must name the Kite host and carry the API key.
   */
  predicate LoginUrlOk(url: Option<string>, key: string) {
    url.Some? && Contains(url.value, KiteHost) && Contains(url.value, key)
  }

  /** `quick_test_redirect_reachability`: `status` is the HTTP status, `None` on a timeout or another error. */
  predicate RedirectOk(status: Option<int>) {
    status == Some(200)
  }

  /**
   * The `results` list of `run_quick_suite`: every check runs (the list is built before
   * it is inspected), each paired with its summary name.
   */
  function QuickResults(key: string, initOk: bool, url: Option<string>, status: Option<int>): (rs: seq<(string, bool)>)
    ensures |rs| == 4
    ensures (forall i :: 0 <= i < |rs| ==> rs[i].1)
        <==> KeyFormatOk(key) && initOk && LoginUrlOk(url, key) && RedirectOk(status)
  {
    var rs := [("API Key Format", KeyFormatOk(key)), ("KiteConnect Init", initOk),
               ("Login URL Generation", LoginUrlOk(url, key)), ("Redirect URL Access", RedirectOk(status))];
    assert rs[0].1 && rs[1].1 && rs[2].1 && rs[3].1 ==> forall i :: 0 <= i < |rs| ==> rs[i].1;
    rs
  }

  /** The summary loop of `run_quick_suite`: one failure clears `all_passed`. */
  method SummarizeQuickSuite(results: seq<(string, bool)>) returns (allPassed: bool)
    ensures allPassed <==> forall i :: 0 <= i < |results| ==> results[i].1
  {
    allPassed := true;
    var k := 0;
    while k < |results|
      invariant 0 <= k <= |results|
      invariant allPassed <==> forall i :: 0 <= i < k ==> results[i].1
    {
      if !results[k].1 {
        allPassed := false;
      }
      k := k + 1;
    }
  }

  /** `run_quick_suite()`: true exactly when all four checks pass. */
  method RunQuickSuite(key: string, initOk: bool, url: Option<string>, status: Option<int>) returns (allPassed: bool)
    ensures allPassed <==> KeyFormatOk(key) && initOk && LoginUrlOk(url, key) && RedirectOk(status)
  {
    var results := QuickResults(key, initOk, url, status);
    allPassed := SummarizeQuickSuite(results);
  }

  /**
   * `os.getenv("KITE_API_SECRET") or input(...).strip()`: an unset or empty variable
   * falls back to the typed line, stripped; the variable's value is taken as it is.
   */
  function ApiSecret(env: Option<string>, typed: string): string {
    if env.Some? && env.value != [] then env.value else Strip(typed)
  }
}
