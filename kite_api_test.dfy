/**
 * `kite_api_test.py`: the quick checks, the authentication flow of `KiteAPITester`, its
 * interactive shell and the flag dispatch of `main`. Broker calls and console input
 * arrive as their outcomes; what is printed is not modelled.
 */
module KiteApiTest {
  import opened Wrappers
  import opened Text
  import opened KiteChecks

  // ---------------------------------------------------------------- interactive shell

  /** One read of `input()`: a line, or Ctrl-C. The end of the sequence is the end of input. */
  datatype Input = Line(text: string) | Interrupt

  /** The broker calls the shell can issue. */
  datatype Call = ProfileCall | MarginsCall | HoldingsCall | PositionsCall | OrdersCall
                | QuoteCall(symbol: string) | InstrumentsCall

  datatype Command = Quit | Help | Issue(call: Call) | Unknown

  /** What one command leaves behind: the help text or a broker call. */
  datatype Effect = ShowHelp | Request(call: Call)

  const QuotePrefix: string := "quote "

  const ExchangePrefix: string := "NSE:"

  /** Upper-casing turns no character into a colon and keeps every colon. */
  lemma UpperColon(arg: string)
    ensures ':' in Upper(arg) <==> ':' in arg
  {
    var up := Upper(arg);
    forall i | 0 <= i < |arg| ensures up[i] == ':' <==> arg[i] == ':' {
    }
  }

  /**
   * The symbol of `quote X`: upper-cased, with the `NSE:` exchange prefix added when it
   * names no exchange.
   */
  function QuoteSymbol(arg: string): (s: string)
    ensures ':' in arg ==> s == Upper(arg)
    ensures ':' !in arg ==> s == ExchangePrefix + Upper(arg)
  {
    var symbol := Upper(arg);
    UpperColon(arg);
    if ':' !in symbol then ExchangePrefix + symbol else symbol
  }

  /** The command a line stands for, after stripping and lower-casing it. */
  function ParseCommand(line: string): Command {
    CommandOf(Lower(Strip(line)))
  }

  /** The branch of the shell's `if` chain a stripped, lower-cased line takes. */
  function CommandOf(cmd: string): Command {
    if cmd == "quit" || cmd == "exit" then Quit
    else if cmd == "help" then Help
    else if cmd == "profile" then Issue(ProfileCall)
    else if cmd == "margins" then Issue(MarginsCall)
    else if cmd == "holdings" then Issue(HoldingsCall)
    else if cmd == "positions" then Issue(PositionsCall)
    else if cmd == "orders" then Issue(OrdersCall)
    else if StartsWith(cmd, QuotePrefix) then Issue(QuoteCall(QuoteSymbol(cmd[|QuotePrefix|..])))
    else if cmd == "instruments" then Issue(InstrumentsCall)
    else Unknown
  }

  /** A line that starts with `quote ` asks for a quote of the rest, whatever the rest is. */
  lemma QuoteCommand(cmd: string)
    requires StartsWith(cmd, QuotePrefix)
    ensures CommandOf(cmd) == Issue(QuoteCall(QuoteSymbol(cmd[|QuotePrefix|..])))
  {
    assert cmd[0] == QuotePrefix[0] == 'q';
    assert cmd[1] == QuotePrefix[1] == 'u' && cmd[2] == QuotePrefix[2] == 'o';
  }

  lemma LowerConcat(a: string, b: string)
    ensures Lower(a + b) == Lower(a) + Lower(b)
  {
    var l, r := Lower(a + b), Lower(a) + Lower(b);
    forall i | 0 <= i < |a + b| ensures l[i] == r[i] {
      if i < |a| {
        assert (a + b)[i] == a[i];
      } else {
        assert (a + b)[i] == b[i - |a|];
      }
    }
  }

  lemma LowerQuotePrefix()
    ensures Lower(QuotePrefix) == QuotePrefix
  {
    var l := Lower(QuotePrefix);
    forall i | 0 <= i < |QuotePrefix| ensures l[i] == QuotePrefix[i] {
    }
  }

  lemma UpperLower(x: string)
    ensures Upper(Lower(x)) == Upper(x)
  {
    var a, b := Upper(Lower(x)), Upper(x);
    forall i | 0 <= i < |x| ensures a[i] == b[i] {
    }
  }

  lemma LowerColon(x: string)
    ensures ':' in Lower(x) <==> ':' in x
  {
    var l := Lower(x);
    forall i | 0 <= i < |x| ensures l[i] == ':' <==> x[i] == ':' {
    }
  }

  /**
   * `quote X`, typed in any case and with X not ending in a blank, asks for X upper-cased,
   * prefixed with `NSE:` exactly when X names no exchange.
   */
  lemma QuoteLine(x: string)
    requires x != [] && !IsSpace(x[|x| - 1])
    ensures ParseCommand(QuotePrefix + x)
         == Issue(QuoteCall(if ':' in x then Upper(x) else ExchangePrefix + Upper(x)))
  {
    NormalizedQuoteLine(x);
    var cmd := QuotePrefix + Lower(x);
    assert cmd[..|QuotePrefix|] == QuotePrefix && cmd[|QuotePrefix|..] == Lower(x);
    QuoteCommand(cmd);
    QuoteSymbolLower(x);
  }

  lemma NormalizedQuoteLine(x: string)
    requires x != [] && !IsSpace(x[|x| - 1])
    ensures Lower(Strip(QuotePrefix + x)) == QuotePrefix + Lower(x)
  {
    var line := QuotePrefix + x;
    assert line[0] == 'q' && line[|line| - 1] == x[|x| - 1];
    StripIdentity(line);
    LowerConcat(QuotePrefix, x);
    LowerQuotePrefix();
  }

  lemma QuoteSymbolLower(x: string)
    ensures QuoteSymbol(Lower(x)) == if ':' in x then Upper(x) else ExchangePrefix + Upper(x)
  {
    UpperLower(x);
    LowerColon(x);
  }

  /** The command one read stands for; Ctrl-C leaves the loop as `quit` does. */
  function Read(i: Input): Command {
    match i
    case Line(t) => ParseCommand(t)
    case Interrupt => Quit
  }

  /** The commands of a run of reads, one per read. */
  function Commands(inputs: seq<Input>): (cmds: seq<Command>)
    ensures |cmds| == |inputs|
  {
    if inputs == [] then [] else [Read(inputs[0])] + Commands(inputs[1..])
  }

  lemma {:induction false} CommandAt(inputs: seq<Input>, k: nat)
    requires k < |inputs|
    ensures Commands(inputs)[k] == Read(inputs[k])
  {
    if k > 0 {
      CommandAt(inputs[1..], k - 1);
    }
  }

  /**
   * The shell's effects for the commands still to be read. Reaching the end of input
   * ends the session as `quit` does (see `SessionAsWritten` for the loop as written).
   */
  function Session(cmds: seq<Command>): (effects: seq<Effect>)
    ensures |effects| <= |cmds|
  {
    if cmds == [] || cmds[0] == Quit then [] else EffectOf(cmds[0]) + Session(cmds[1..])
  }

  /** What a command other than `quit` leaves behind. */
  function EffectOf(c: Command): (e: seq<Effect>)
    ensures |e| <= 1
  {
    match c
    case Help => [ShowHelp]
    case Issue(call) => [Request(call)]
    case _ => []
  }

  /** The session from the k-th command on: stop at `quit`, otherwise its effect and the rest. */
  lemma SessionStep(cmds: seq<Command>, k: nat)
    requires k < |cmds|
    ensures Session(cmds[k..]) == if cmds[k] == Quit then [] else EffectOf(cmds[k]) + Session(cmds[k + 1..])
  {
    assert cmds[k..][0] == cmds[k] && cmds[k..][1..] == cmds[k + 1..];
  }

  /** A command the shell does not know leaves the session as if it had not been typed. */
  lemma Associative(a: seq<Effect>, b: seq<Effect>, c: seq<Effect>)
    ensures a + (b + c) == (a + b) + c
  {
  }

  lemma SessionCons(c: Command, rest: seq<Command>)
    ensures Session([c] + rest) == if c == Quit then [] else EffectOf(c) + Session(rest)
  {
    assert ([c] + rest)[0] == c && ([c] + rest)[1..] == rest;
  }

  /** A command the shell does not know leaves the session as if it had not been typed. */
  lemma {:induction false} UnknownIgnored(before: seq<Command>, after: seq<Command>)
    ensures Session(before + [Unknown] + after) == Session(before + after)
  {
    if before == [] {
      assert before + [Unknown] + after == [Unknown] + after && before + after == after;
      SessionCons(Unknown, after);
    } else {
      var b0, b1 := before[0], before[1..];
      assert before + [Unknown] + after == [b0] + (b1 + [Unknown] + after);
      assert before + after == [b0] + (b1 + after);
      SessionCons(b0, b1 + [Unknown] + after);
      SessionCons(b0, b1 + after);
      UnknownIgnored(b1, after);
    }
  }

  /** `quit`, `exit` and Ctrl-C end the session: nothing typed after them has an effect. */
  lemma {:induction false} QuitEndsSession(before: seq<Command>, after: seq<Command>)
    ensures Session(before + [Quit] + after) == Session(before)
  {
    if before == [] {
      assert before + [Quit] + after == [Quit] + after;
      SessionCons(Quit, after);
    } else {
      var b0, b1 := before[0], before[1..];
      assert before + [Quit] + after == [b0] + (b1 + [Quit] + after);
      assert before == [b0] + b1;
      SessionCons(b0, b1 + [Quit] + after);
      SessionCons(b0, b1);
      QuitEndsSession(b1, after);
    }
  }

  lemma {:induction false} CommandsConcat(a: seq<Input>, b: seq<Input>)
    ensures Commands(a + b) == Commands(a) + Commands(b)
  {
    if a == [] {
      assert a + b == b;
    } else {
      assert a + b == [a[0]] + (a[1..] + b);
      CommandsConcat(a[1..], b);
    }
  }

  /** A typed line the shell does not know changes nothing. */
  lemma UnknownLineIgnored(before: seq<Input>, t: string, after: seq<Input>)
    requires ParseCommand(t) == Unknown
    ensures Session(Commands(before + [Line(t)] + after)) == Session(Commands(before + after))
  {
    CommandsConcat(before + [Line(t)], after);
    CommandsConcat(before, [Line(t)]);
    CommandsConcat(before, after);
    assert Commands([Line(t)]) == [Unknown];
    UnknownIgnored(Commands(before), Commands(after));
  }

  /** Nothing read after `quit`, `exit` or Ctrl-C has an effect. */
  lemma EndingInput(before: seq<Input>, i: Input, after: seq<Input>)
    requires Read(i) == Quit
    ensures Session(Commands(before + [i] + after)) == Session(Commands(before))
  {
    CommandsConcat(before + [i], after);
    CommandsConcat(before, [i]);
    assert Commands([i]) == [Quit];
    QuitEndsSession(Commands(before), Commands(after));
  }

  /**
   * The loop as written: `input()` at the end of input raises `EOFError`, which the
   * `except Exception` arm reports before reading again, so `fuel` bounds the number of
   * iterations; `None` means the loop had not ended within them.
   */
  function SessionAsWritten(cmds: seq<Command>, k: nat, fuel: nat): Option<seq<Effect>>
    decreases fuel
  {
    if fuel == 0 then None
    else if k >= |cmds| then SessionAsWritten(cmds, k, fuel - 1)
    else if cmds[k] == Quit then Some([])
    else match SessionAsWritten(cmds, k + 1, fuel - 1)
      case None => None
      case Some(rest) => Some(EffectOf(cmds[k]) + rest)
  }

  /** As written, a session whose input ends without `quit`, `exit` or Ctrl-C never ends. */
  lemma {:induction false} SpinsAtEndOfInput(cmds: seq<Command>, k: nat, fuel: nat)
    requires forall j :: k <= j < |cmds| ==> cmds[j] != Quit
    ensures SessionAsWritten(cmds, k, fuel) == None
    decreases fuel
  {
    if fuel > 0 {
      if k >= |cmds| {
        SpinsAtEndOfInput(cmds, k, fuel - 1);
      } else {
        SpinsAtEndOfInput(cmds, k + 1, fuel - 1);
      }
    }
  }

  /** Until the input runs out, the loop as written does what `Session` says. */
  lemma {:induction false} AsWrittenAgrees(cmds: seq<Command>, k: nat, j: nat, fuel: nat)
    requires k <= j < |cmds| && cmds[j] == Quit && fuel > j - k
    ensures SessionAsWritten(cmds, k, fuel) == Some(Session(cmds[k..]))
    decreases j - k
  {
    SessionStep(cmds, k);
    if cmds[k] != Quit {
      AsWrittenAgrees(cmds, k + 1, j, fuel - 1);
    }
  }

  // ---------------------------------------------------------------- authentication

  /** The shared `KiteConnect` client: the access token later calls are signed with. */
  class KiteClient {
    var accessToken: Option<string>

    constructor()
      ensures accessToken.None?
    {
      accessToken := None;
    }
  }

  const AccessTokenKey: string := "access_token"
  const UserIdKey: string := "user_id"

  class KiteApiTester {
    var accessToken: Option<string>
    var userId: Option<string>

    constructor()
      ensures accessToken.None? && userId.None?
    {
      accessToken := None;
      userId := None;
    }

    /**
     * `step2_get_access_token`: `session` is what `generate_session` returned, or the
     * exception it raised. The token is stored before the user id is looked up, so a reply
     * without a user id still leaves the new token behind.
     */
    method Step2GetAccessToken(kite: KiteClient, session: Result<map<string, string>, string>) returns (ok: bool)
      modifies this, kite
      ensures ok <==> session.Success? && AccessTokenKey in session.value && UserIdKey in session.value
      ensures ok ==> accessToken == Some(session.value[AccessTokenKey]) && userId == Some(session.value[UserIdKey])
                     && kite.accessToken == accessToken
      ensures !ok ==> userId == old(userId) && kite.accessToken == old(kite.accessToken)
      ensures !ok ==> accessToken == if session.Success? && AccessTokenKey in session.value
                                     then Some(session.value[AccessTokenKey]) else old(accessToken)
    {
      if session.Failure? || AccessTokenKey !in session.value {
        return false;
      }
      var data := session.value;
      accessToken := Some(data[AccessTokenKey]);
      if UserIdKey !in data {
        return false;
      }
      userId := Some(data[UserIdKey]);
      kite.accessToken := accessToken;
      return true;
    }

    /** One `input(...).strip().lower()` of the shell and the branch it selects. */
    method NextCommand(inputs: seq<Input>, k: nat) returns (cmd: Command)
      requires k < |inputs|
      ensures cmd == Commands(inputs)[k]
    {
      cmd := Read(inputs[k]);
      CommandAt(inputs, k);
    }

    /** `interactive_mode`: reads commands until `quit`, `exit`, Ctrl-C or the end of input. */
    method InteractiveMode(inputs: seq<Input>) returns (effects: seq<Effect>)
      ensures effects == Session(Commands(inputs))
    {
      ghost var cmds := Commands(inputs);
      effects := [];
      var k := 0;
      var quit := false;
      while k < |inputs| && !quit
        invariant 0 <= k <= |inputs|
        invariant !quit ==> effects + Session(cmds[k..]) == Session(cmds)
        invariant quit ==> effects == Session(cmds)
        decreases |inputs| - k, if quit then 0 else 1
      {
        var cmd := NextCommand(inputs, k);
        SessionStep(cmds, k);
        if cmd == Quit {
          assert effects + [] == effects;
          quit := true;
        } else {
          Associative(effects, EffectOf(cmd), Session(cmds[k + 1..]));
          effects := effects + EffectOf(cmd);
          k := k + 1;
        }
      }
      if !quit {
        assert cmds[k..] == [] && effects + [] == effects;
      }
    }
  }

  // ---------------------------------------------------------------- main

  datatype Flags = Flags(quick: bool, full: bool, interactive: bool)

  /** Where `main` stops. */
  datatype MainEnd = Aborted | QuickOnly | MissingToken | MissingSecret | Exchanged(ok: bool, shell: bool)

  /** Whether `main` ran the quick suite, and where it stopped. */
  datatype MainRun = MainRun(quickSuite: bool, end: MainEnd)

  /**
   * `main`: `quickOk` is `run_quick_suite()`, `tokenLine`, `typedSecret` and `choiceLine`
   * are the lines typed at the three prompts, `envSecret` is `KITE_API_SECRET` and
   * `exchangeOk` is what `step2_get_access_token` returned.
   */
  function Main(flags: Flags, quickOk: bool, tokenLine: string, envSecret: Option<string>,
                typedSecret: string, exchangeOk: bool, choiceLine: string): (r: MainRun)
    ensures r.quickSuite <==> flags.quick
    ensures r.end.Aborted? || r.end.QuickOnly? <==> flags.quick && !flags.full
    ensures flags.quick && !flags.full ==> (r.end.QuickOnly? <==> quickOk)
    ensures r.end.Exchanged? <==> (flags.full || !flags.quick) && Strip(tokenLine) != []
                                  && ApiSecret(envSecret, typedSecret) != []
    ensures r.end.Exchanged? ==> r.end.ok == exchangeOk
    ensures r.end.Exchanged? ==> (r.end.shell <==> exchangeOk && (flags.interactive || Lower(Strip(choiceLine)) == "y"))
  {
    if flags.quick && !quickOk && !flags.full then MainRun(true, Aborted)
    else if flags.quick && !flags.full then MainRun(true, QuickOnly)
    else if Strip(tokenLine) == [] then MainRun(flags.quick, MissingToken)
    else if ApiSecret(envSecret, typedSecret) == [] then MainRun(flags.quick, MissingSecret)
    else
      var shell := exchangeOk && (flags.interactive || Lower(Strip(choiceLine)) == "y");
      MainRun(flags.quick, Exchanged(exchangeOk, shell))
  }

  /** The closing "Nothing executed" notice: the token exchange failed and `--quick` was not given. */
  predicate NothingExecuted(flags: Flags, r: MainRun) {
    r.end.Exchanged? && !r.end.ok && !flags.quick
  }

  /**
   * `main` prints the notice iff `--quick` was not given, both a request token and a
   * secret were supplied, and the token exchange then failed.
   */
  lemma NothingExecutedIff(flags: Flags, quickOk: bool, tokenLine: string, envSecret: Option<string>,
                           typedSecret: string, exchangeOk: bool, choiceLine: string)
    ensures NothingExecuted(flags, Main(flags, quickOk, tokenLine, envSecret, typedSecret, exchangeOk, choiceLine))
        <==> !flags.quick && Strip(tokenLine) != [] && ApiSecret(envSecret, typedSecret) != [] && !exchangeOk
  {
  }
}
