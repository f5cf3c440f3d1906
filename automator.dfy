/**
 * The bet-placement state machine `BettingAutomator`.
 *
 * The headless browser is not modelled; it is an environment `Env` that the
 * automator calls into: the page's current URL, which CSS markers are present,
 * the classes of the `.bet-result` element, and which calls throw. The class
 * keeps the source's own fields (`browser`, `isLoggedIn` and the four settings)
 * plus `calls`, the ordered log of every call it made into the browser wrapper.
 *
 * Each operation is specified by a function from the old `Session` (the fields)
 * to an `Effect`: the new session, the calls issued, and the resolved value or
 * the error it rejects with. The class methods are proved equal to these
 * functions, and the properties of the automator are lemmas about them.
 */
module Automator {
  import opened Wrappers
  import opened Text
  import opened Lists

  const DefaultBetUrl := "https://esportiva.bet.br/games/evolution/futebol-studio-ao-vivo"
  /** The URL fragment that tells `placeBet` the browser is already on the betting page. */
  const BettingPageMarker := "futebol-studio-ao-vivo"

  const GameContainer := ".game-container"
  const UserAccount := ".user-account"
  const LoginButton := ".login-button"
  const LoginForm := ".login-form"
  const UsernameInput := ".username-input"
  const PasswordInput := ".password-input"
  const SubmitButton := ".submit-button"
  const HomeBetButton := ".home-bet-button"
  const AwayBetButton := ".away-bet-button"
  const DrawBetButton := ".draw-bet-button"
  const BetForm := ".bet-form"
  const BetAmountInput := ".bet-amount-input"
  const ConfirmBetButton := ".confirm-bet-button"
  const BetConfirmation := ".bet-confirmation"
  const BetResultMarker := ".bet-result"
  const WinClass := "win"

  /** The settings `initialize` may overwrite. */
  datatype Config = Config(betUrl: string, username: string, password: string, delayBetweenBets: int)

  const DefaultConfig := Config(DefaultBetUrl, "", "", 5)

  /** The options object of `initialize`; `None` is an omitted property. */
  datatype InitOptions = InitOptions(
    betUrl: Option<string>,
    username: Option<string>,
    password: Option<string>,
    delayBetweenBets: Option<int>)

  /** The options object of `placeBet`; the three Martingale settings are accepted but never read. */
  datatype BetOptions = BetOptions(
    betType: string,
    amount: int,
    useMartingale: Option<bool>,
    martingaleLevel: Option<int>,
    martingaleMultiplier: Option<real>)

  /**
   * The `browser` field. `Unready` is a wrapper object whose launch threw: the
   * source assigns the field before awaiting the launch, so the field is then
   * non-null while the wrapper has no page, and every page call throws.
   */
  datatype BrowserState = NoBrowser | Unready | Ready

  /** A call into the browser wrapper. */
  datatype Call =
    | Launch
    | Goto(url: string)
    | WaitFor(selector: string, timeoutMs: int)
    | Click(selector: string)
    | TypeInto(selector: string, text: string)
    | ClearAndType(selector: string, text: string)
    | QueryPresent(selector: string)
    | QueryHasClass(selector: string, className: string)
    | ReadUrl
    | CloseBrowser

  /** The page as the automator sees it during one operation. */
  datatype Env = Env(url: string, present: set<string>, resultClasses: set<string>, failing: set<Call>)

  datatype Error =
    | BrowserNotInitialized
    | MissingCredentials
    | UnknownBetType(betType: string)
    | CallFailed(call: Call)

  datatype BetResult = Pending | Win | Loss

  /** The automator's fields. */
  datatype Session = Session(browser: BrowserState, loggedIn: bool, config: Config)

  /** What one operation does: the new fields, the calls it issued in order, and its outcome. */
  datatype Effect<T> = Effect(after: Session, calls: seq<Call>, result: Result<T, Error>)

  // ---------------------------------------------------------------- the browser

  /** A page call throws when the wrapper has no page, or when the environment makes it fail. */
  predicate Fails(env: Env, b: BrowserState, c: Call) {
    b == Unready || c in env.failing
  }

  predicate AllSucceed(cs: seq<Call>, env: Env, b: BrowserState) {
    forall i :: 0 <= i < |cs| ==> !Fails(env, b, cs[i])
  }

  /**
   * The calls issued when `cs` are awaited one after another: all of them when
   * none throws, otherwise those up to and including the first that throws.
   */
  function Issued(cs: seq<Call>, env: Env, b: BrowserState): (r: seq<Call>)
    ensures |r| <= |cs| && r == cs[..|r|]
    ensures AllSucceed(cs, env, b) ==> r == cs
    ensures !AllSucceed(cs, env, b) ==>
      r != [] && Fails(env, b, r[|r| - 1]) && forall j :: 0 <= j < |r| - 1 ==> !Fails(env, b, r[j])
  {
    if cs == [] then []
    else if Fails(env, b, cs[0]) then [cs[0]]
    else [cs[0]] + Issued(cs[1..], env, b)
  }

  /** Awaits `cs` in order; the first call that throws rejects the whole sequence. */
  function Await(s: Session, cs: seq<Call>, env: Env): (e: Effect<bool>)
    ensures e.after == s
    ensures e.result.Ok? <==> AllSucceed(cs, env, s.browser)
    ensures e.result.Ok? ==> e.result.value && e.calls == cs
  {
    var issued := Issued(cs, env, s.browser);
    Effect(s, issued, if AllSucceed(cs, env, s.browser) then Ok(true) else Err(CallFailed(issued[|issued| - 1])))
  }

  /** The sequence stops at its first failing call, which is the error it rejects with. */
  lemma AwaitStopsAtFirstFailure(s: Session, cs: seq<Call>, env: Env, k: int)
    requires 0 <= k < |cs| && Fails(env, s.browser, cs[k])
    requires forall j :: 0 <= j < k ==> !Fails(env, s.browser, cs[j])
    ensures Await(s, cs, env) == Effect(s, cs[..k + 1], Err(CallFailed(cs[k])))
  {
    var r := Issued(cs, env, s.browser);
    assert !AllSucceed(cs, env, s.browser);
    assert |r| - 1 == k;
  }

  /**
   * How a rejection propagates out of a chain of awaits: a resolved operation
   * had every call succeed; one that rejects with `CallFailed` stopped at the
   * call that threw, after calls that all succeeded; any other error was thrown
   * by the automator itself while every call so far had succeeded.
   */
  predicate FirstFailurePropagates<T>(e: Effect<T>, env: Env, b: BrowserState) {
    if e.result.Err? && e.result.error.CallFailed? then
      e.calls != [] && e.result.error.call == e.calls[|e.calls| - 1]
      && Fails(env, b, e.calls[|e.calls| - 1]) && AllSucceed(e.calls[..|e.calls| - 1], env, b)
    else AllSucceed(e.calls, env, b)
  }

  // ---------------------------------------------------------------- initialize

  /** JavaScript truthiness of an optional string option. */
  predicate GivenText(o: Option<string>)
    ensures GivenText(o) <==> o != None && o != Some("")
  {
    o.Some? && o.value != ""
  }

  /** JavaScript truthiness of an optional number option. */
  predicate GivenNumber(o: Option<int>)
    ensures GivenNumber(o) <==> o != None && o != Some(0)
  {
    o.Some? && o.value != 0
  }

  /** `initialize` overwrites a setting exactly when its option is present and truthy. */
  function MergeOptions(c: Config, o: InitOptions): (r: Config)
    ensures r.betUrl == if GivenText(o.betUrl) then o.betUrl.value else c.betUrl
    ensures r.username == if GivenText(o.username) then o.username.value else c.username
    ensures r.password == if GivenText(o.password) then o.password.value else c.password
    ensures r.delayBetweenBets == if GivenNumber(o.delayBetweenBets) then o.delayBetweenBets.value else c.delayBetweenBets
  {
    Config(
      if GivenText(o.betUrl) then o.betUrl.value else c.betUrl,
      if GivenText(o.username) then o.username.value else c.username,
      if GivenText(o.password) then o.password.value else c.password,
      if GivenNumber(o.delayBetweenBets) then o.delayBetweenBets.value else c.delayBetweenBets)
  }

  /** The settings are merged first; then a new wrapper is stored and launched. */
  function InitializeSpec(s: Session, o: InitOptions, env: Env): (e: Effect<bool>)
    ensures e.calls == [Launch] && e.after.loggedIn == s.loggedIn
    ensures e.after.config == MergeOptions(s.config, o)
    ensures e.result.Ok? <==> e.after.browser == Ready
  {
    var cfg := MergeOptions(s.config, o);
    if Launch in env.failing then Effect(Session(Unready, s.loggedIn, cfg), [Launch], Err(CallFailed(Launch)))
    else Effect(Session(Ready, s.loggedIn, cfg), [Launch], Ok(true))
  }

  // ---------------------------------------------------------------- navigate

  function NavigateCalls(c: Config): seq<Call> {
    [Goto(c.betUrl), WaitFor(GameContainer, 30000)]
  }

  /** Goes to the bet URL, then waits for the game container; it resolves only when both succeed. */
  function NavigateSpec(s: Session, env: Env): (e: Effect<bool>)
    ensures e.after == s
    ensures s.browser == NoBrowser ==> e.calls == [] && e.result == Err(BrowserNotInitialized)
    ensures e.result.Ok? <==> s.browser != NoBrowser && AllSucceed(NavigateCalls(s.config), env, s.browser)
    ensures e.result.Ok? ==> e.calls == NavigateCalls(s.config)
  {
    if s.browser == NoBrowser then Effect(s, [], Err(BrowserNotInitialized))
    else Await(s, NavigateCalls(s.config), env)
  }

  // ---------------------------------------------------------------- login

  function LoginFormCalls(c: Config): seq<Call> {
    [ Click(LoginButton), WaitFor(LoginForm, 10000),
      TypeInto(UsernameInput, c.username), TypeInto(PasswordInput, c.password),
      Click(SubmitButton), WaitFor(UserAccount, 15000) ]
  }

  /** Every failure, whatever its cause, leaves the automator logged out. */
  function LoginSpec(s: Session, env: Env): (e: Effect<bool>)
    ensures e.after.browser == s.browser && e.after.config == s.config
    ensures e.after.loggedIn <==> e.result.Ok?
    ensures e.result.Ok? ==> e.result.value
    ensures e.calls != [] ==> s.browser != NoBrowser && s.config.username != "" && s.config.password != ""
    ensures e.result.Ok? <==>
      s.browser != NoBrowser && s.config.username != "" && s.config.password != ""
      && !Fails(env, s.browser, QueryPresent(UserAccount))
      && (UserAccount in env.present || AllSucceed(LoginFormCalls(s.config), env, s.browser))
  {
    var out := s.(loggedIn := false);
    if s.browser == NoBrowser then Effect(out, [], Err(BrowserNotInitialized))
    else if s.config.username == "" || s.config.password == "" then Effect(out, [], Err(MissingCredentials))
    else if Fails(env, s.browser, QueryPresent(UserAccount)) then
      Effect(out, [QueryPresent(UserAccount)], Err(CallFailed(QueryPresent(UserAccount))))
    else if UserAccount in env.present then
      Effect(s.(loggedIn := true), [QueryPresent(UserAccount)], Ok(true))
    else
      var form := Await(s, LoginFormCalls(s.config), env);
      Effect(s.(loggedIn := form.result.Ok?), [QueryPresent(UserAccount)] + form.calls, form.result)
  }

  // ---------------------------------------------------------------- placeBet

  /** The `switch` on the lower-cased bet type: exactly three controls, no default. */
  function BetSelector(betType: string): (r: Option<string>)
    ensures r.Some? <==> ToLower(betType) in ["casa", "fora", "empate"]
    ensures r.Some? ==> r.value in [HomeBetButton, AwayBetButton, DrawBetButton]
  {
    var t := ToLower(betType);
    if t == "casa" then Some(HomeBetButton)
    else if t == "fora" then Some(AwayBetButton)
    else if t == "empate" then Some(DrawBetButton)
    else None
  }

  /** The five steps of a bet: select the outcome, wait for the form, enter the amount, confirm, wait for the confirmation. */
  function BetCalls(selector: string, amount: int): seq<Call> {
    [ Click(selector), WaitFor(BetForm, 5000), ClearAndType(BetAmountInput, Decimal(amount)),
      Click(ConfirmBetButton), WaitFor(BetConfirmation, 10000) ]
  }

  /** The calls `cs` made before `e`'s, in front of them. */
  function After<T>(cs: seq<Call>, e: Effect<T>): (r: Effect<T>)
    ensures r.after == e.after && r.result == e.result && r.calls == cs + e.calls
  {
    Effect(e.after, cs + e.calls, e.result)
  }

  /** The login step of `placeBet`: skipped when already logged in. */
  function LoginPhase(s: Session, env: Env): (e: Effect<bool>)
    ensures e.after.browser == s.browser && e.after.config == s.config
    ensures e.result.Ok? ==> e.after.loggedIn
  {
    if s.loggedIn then Effect(s, [], Ok(true)) else LoginSpec(s, env)
  }

  /** The navigation step of `placeBet`: skipped when the page is already the betting page. */
  function NavPhase(s: Session, env: Env): (e: Effect<bool>)
    ensures e.after == s
    ensures Contains(env.url, BettingPageMarker) ==> e.calls == []
    ensures e.result.Ok? <==>
      Contains(env.url, BettingPageMarker)
      || (s.browser != NoBrowser && AllSucceed(NavigateCalls(s.config), env, s.browser))
  {
    if Contains(env.url, BettingPageMarker) then Effect(s, [], Ok(true)) else NavigateSpec(s, env)
  }

  /** Maps the bet type to its control and runs the five bet steps. */
  function BetPhase(s: Session, o: BetOptions, env: Env): (e: Effect<bool>)
    ensures e.after == s
    ensures BetSelector(o.betType).None? ==> e.calls == [] && e.result == Err(UnknownBetType(o.betType))
    ensures e.result.Ok? <==>
      BetSelector(o.betType).Some? && AllSucceed(BetCalls(BetSelector(o.betType).value, o.amount), env, s.browser)
    ensures e.result.Ok? ==> e.calls == BetCalls(BetSelector(o.betType).value, o.amount)
  {
    match BetSelector(o.betType)
    case None => Effect(s, [], Err(UnknownBetType(o.betType)))
    case Some(selector) => Await(s, BetCalls(selector, o.amount), env)
  }

  /** Reads the page's URL and navigates when it is not the betting page's. */
  function ReachPhase(s: Session, env: Env): (e: Effect<bool>)
    ensures e.after == s
    ensures e.calls != [] && e.calls[0] == ReadUrl
    ensures e.result.Ok? <==> !Fails(env, s.browser, ReadUrl) && NavPhase(s, env).result.Ok?
  {
    if Fails(env, s.browser, ReadUrl) then Effect(s, [ReadUrl], Err(CallFailed(ReadUrl)))
    else After([ReadUrl], NavPhase(s, env))
  }

  /** Everything `placeBet` does once logged in: reach the betting page, then bet. */
  function OnPagePhase(s: Session, o: BetOptions, env: Env): (e: Effect<bool>)
    ensures e.after == s
    ensures e.result.Ok? <==> ReachPhase(s, env).result.Ok? && BetPhase(s, o, env).result.Ok?
    ensures ReachPhase(s, env).result.Err? ==> e == ReachPhase(s, env)
  {
    var reach := ReachPhase(s, env);
    if reach.result.Err? then reach else After(reach.calls, BetPhase(s, o, env))
  }

  /**
   * Logs in when not logged in, reads the URL, navigates when the URL is not the
   * betting page's, maps the bet type, then runs the five bet steps.
   */
  function PlaceBetSpec(s: Session, o: BetOptions, env: Env): (e: Effect<bool>)
    ensures e.after.browser == s.browser && e.after.config == s.config
    ensures e.result.Ok? ==> e.result.value && e.after.loggedIn
  {
    if s.browser == NoBrowser then Effect(s, [], Err(BrowserNotInitialized))
    else
      var login := LoginPhase(s, env);
      if login.result.Err? then login
      else After(login.calls, OnPagePhase(login.after, o, env))
  }

  // ---------------------------------------------------------------- checkBetResult

  function CheckResultSpec(s: Session, env: Env): (e: Effect<BetResult>)
    ensures e.after == s
    ensures e.result.Ok? ==> |e.calls| > 0 && e.calls[0] == QueryPresent(BetResultMarker)
  {
    if s.browser == NoBrowser then Effect(s, [], Err(BrowserNotInitialized))
    else if Fails(env, s.browser, QueryPresent(BetResultMarker)) then
      Effect(s, [QueryPresent(BetResultMarker)], Err(CallFailed(QueryPresent(BetResultMarker))))
    else if BetResultMarker !in env.present then Effect(s, [QueryPresent(BetResultMarker)], Ok(Pending))
    else
      var probe := QueryHasClass(BetResultMarker, WinClass);
      var cs := [QueryPresent(BetResultMarker), probe];
      if Fails(env, s.browser, probe) then Effect(s, cs, Err(CallFailed(probe)))
      else Effect(s, cs, Ok(if WinClass in env.resultClasses then Win else Loss))
  }

  // ---------------------------------------------------------------- close

  /** Closing needs no page, so an `Unready` wrapper is closed too. */
  function CloseSpec(s: Session, env: Env): (e: Effect<()>)
    ensures e.after.config == s.config
    ensures e.result.Ok? <==> e.after.browser == NoBrowser
    ensures e.after.browser == NoBrowser ==> !e.after.loggedIn || s.browser == NoBrowser
  {
    if s.browser == NoBrowser then Effect(s, [], Ok(()))
    else if CloseBrowser in env.failing then Effect(s, [CloseBrowser], Err(CallFailed(CloseBrowser)))
    else Effect(Session(NoBrowser, false, s.config), [CloseBrowser], Ok(()))
  }

  // ---------------------------------------------------------------- properties

  /** Every call issued by `Await` is one of the calls it was given. */
  lemma {:induction false} IssuedFromGiven(s: Session, cs: seq<Call>, env: Env, c: Call)
    requires c in Await(s, cs, env).calls
    ensures c in cs
  {
    var r := Issued(cs, env, s.browser);
    var i :| 0 <= i < |r| && r[i] == c;
    assert r[i] == cs[..|r|][i] == cs[i];
  }

  /** With no wrapper, every page operation rejects at once, calls nothing and changes nothing but the login flag. */
  lemma NoBrowserRejectsEverything(s: Session, o: BetOptions, env: Env)
    requires s.browser == NoBrowser
    ensures NavigateSpec(s, env) == Effect(s, [], Err(BrowserNotInitialized))
    ensures LoginSpec(s, env) == Effect(s.(loggedIn := false), [], Err(BrowserNotInitialized))
    ensures PlaceBetSpec(s, o, env) == Effect(s, [], Err(BrowserNotInitialized))
    ensures CheckResultSpec(s, env) == Effect(s, [], Err(BrowserNotInitialized))
    ensures CloseSpec(s, env) == Effect(s, [], Ok(()))
  {
  }

  /**
   * A launch that throws leaves a wrapper without a page behind: the field is
   * set, so no operation reports a missing browser, yet each one rejects at its
   * first page call.
   */
  lemma {:induction false} FailedLaunchLeavesUnusableWrapper(s: Session, o: InitOptions, bet: BetOptions, env: Env)
    requires Launch in env.failing
    ensures var i := InitializeSpec(s, o, env);
      i.after.browser == Unready && i.result == Err(CallFailed(Launch))
    ensures var u := InitializeSpec(s, o, env).after;
      NavigateSpec(u, env) == Effect(u, [Goto(u.config.betUrl)], Err(CallFailed(Goto(u.config.betUrl))))
      && CheckResultSpec(u, env)
         == Effect(u, [QueryPresent(BetResultMarker)], Err(CallFailed(QueryPresent(BetResultMarker))))
    ensures var u := InitializeSpec(s, o, env).after;
      var first := if s.loggedIn then ReadUrl else QueryPresent(UserAccount);
      PlaceBetSpec(u, bet, env) ==
        if s.loggedIn || (u.config.username != "" && u.config.password != "")
        then Effect(u, [first], Err(CallFailed(first)))
        else Effect(u, [], Err(MissingCredentials))
  {
    var u := InitializeSpec(s, o, env).after;
    AwaitStopsAtFirstFailure(u, NavigateCalls(u.config), env, 0);
    if !u.loggedIn {
      if u.config.username != "" && u.config.password != "" {
        assert LoginSpec(u, env).result == Err(CallFailed(QueryPresent(UserAccount)));
      }
    } else {
      assert PlaceBetSpec(u, bet, env).result == Err(CallFailed(ReadUrl));
    }
  }

  /** Without both credentials `login` rejects before touching the page. */
  lemma LoginNeedsCredentials(s: Session, env: Env)
    requires s.browser != NoBrowser && (s.config.username == "" || s.config.password == "")
    ensures LoginSpec(s, env) == Effect(s.(loggedIn := false), [], Err(MissingCredentials))
  {
  }

  /**
   * `login` succeeds exactly when the account marker is already present, or when
   * the whole form sequence, which types the stored credentials, succeeds.
   */
  lemma {:induction false} LoginSucceedsIff(s: Session, env: Env)
    requires s.browser != NoBrowser && s.config.username != "" && s.config.password != ""
    requires !Fails(env, s.browser, QueryPresent(UserAccount))
    ensures LoginSpec(s, env).result.Ok? <==>
      UserAccount in env.present || AllSucceed(LoginFormCalls(s.config), env, s.browser)
    ensures LoginSpec(s, env).result.Ok? && UserAccount !in env.present ==>
      LoginSpec(s, env).calls == [QueryPresent(UserAccount)] + LoginFormCalls(s.config)
      && TypeInto(UsernameInput, s.config.username) in LoginSpec(s, env).calls
      && TypeInto(PasswordInput, s.config.password) in LoginSpec(s, env).calls
  {
    if LoginSpec(s, env).result.Ok? && UserAccount !in env.present {
      var cs := LoginSpec(s, env).calls;
      assert cs[3] == TypeInto(UsernameInput, s.config.username);
      assert cs[4] == TypeInto(PasswordInput, s.config.password);
    }
  }

  /** When the account marker is already on the page, `login` only probes for it: no click and no typing. */
  lemma LoginShortCircuits(s: Session, env: Env)
    requires s.browser != NoBrowser && s.config.username != "" && s.config.password != ""
    requires !Fails(env, s.browser, QueryPresent(UserAccount)) && UserAccount in env.present
    ensures LoginSpec(s, env) == Effect(s.(loggedIn := true), [QueryPresent(UserAccount)], Ok(true))
  {
  }

  /** The bet type is matched without regard to ASCII letter case. */
  lemma {:induction false} BetSelectorIgnoresCase(betType: string)
    ensures BetSelector(ToLower(betType)) == BetSelector(betType)
  {
    ToLowerIdempotent(betType);
  }

  /** The three bet types the source recognises, in any case, and nothing else. */
  lemma BetSelectorChoices(betType: string)
    ensures BetSelector(betType) == Some(HomeBetButton) <==> ToLower(betType) == "casa"
    ensures BetSelector(betType) == Some(AwayBetButton) <==> ToLower(betType) == "fora"
    ensures BetSelector(betType) == Some(DrawBetButton) <==> ToLower(betType) == "empate"
  {
  }

  /** The Martingale options are accepted but have no effect on what `placeBet` does. */
  lemma PlaceBetIgnoresMartingale(s: Session, o: BetOptions, env: Env,
                                  useMartingale: Option<bool>, level: Option<int>, multiplier: Option<real>)
    ensures PlaceBetSpec(s, o.(useMartingale := useMartingale, martingaleLevel := level,
                               martingaleMultiplier := multiplier), env)
         == PlaceBetSpec(s, o, env)
  {
  }

  /**
   * A successful `placeBet` ends with the five bet steps on the control of its
   * bet type, with the amount as its decimal text, and leaves the automator logged in.
   */
  lemma {:induction false} PlaceBetEndsWithTheBet(s: Session, o: BetOptions, env: Env)
    requires PlaceBetSpec(s, o, env).result.Ok?
    ensures BetSelector(o.betType).Some?
    ensures var e := PlaceBetSpec(s, o, env);
      var tail := BetCalls(BetSelector(o.betType).value, o.amount);
      |e.calls| >= |tail| + 1 && e.calls[|e.calls| - |tail|..] == tail
      && e.after.loggedIn && e.after.browser == s.browser
  {
    var login := LoginPhase(s, env);
    var reach := ReachPhase(login.after, env);
    assert reach.result.Ok?;
    assert ReadUrl in reach.calls;
  }

  /** The calls of the login step come from the account probe and the login form. */
  lemma LoginPhaseCallsFrom(s: Session, env: Env)
    ensures forall c :: c in LoginPhase(s, env).calls ==>
      c == QueryPresent(UserAccount) || c in LoginFormCalls(s.config)
  {
    forall c | c in LoginPhase(s, env).calls && c != QueryPresent(UserAccount)
      ensures c in LoginFormCalls(s.config)
    {
      IssuedFromGiven(s, LoginFormCalls(s.config), env, c);
    }
  }

  /** The calls of the reach step are the URL read and the navigation calls. */
  lemma ReachPhaseCallsFrom(s: Session, env: Env)
    ensures forall c :: c in ReachPhase(s, env).calls ==> c == ReadUrl || c in NavigateCalls(s.config)
  {
    forall c | c in ReachPhase(s, env).calls && c != ReadUrl
      ensures c in NavigateCalls(s.config)
    {
      IssuedFromGiven(s, NavigateCalls(s.config), env, c);
    }
  }

  /** The bet step calls only its five bet steps, and nothing when the bet type is unknown. */
  lemma BetPhaseCallsFrom(s: Session, o: BetOptions, env: Env)
    ensures forall c :: c in BetPhase(s, o, env).calls ==>
      BetSelector(o.betType).Some? && c in BetCalls(BetSelector(o.betType).value, o.amount)
  {
    forall c | c in BetPhase(s, o, env).calls
      ensures BetSelector(o.betType).Some? && c in BetCalls(BetSelector(o.betType).value, o.amount)
    {
      IssuedFromGiven(s, BetCalls(BetSelector(o.betType).value, o.amount), env, c);
    }
  }

  /** Every call of `placeBet` belongs to one of its three steps. */
  lemma PlaceBetCallsFrom(s: Session, o: BetOptions, env: Env, c: Call)
    requires c in PlaceBetSpec(s, o, env).calls
    ensures var login := LoginPhase(s, env);
      c in login.calls || c in ReachPhase(login.after, env).calls || c in BetPhase(login.after, o, env).calls
  {
  }

  /** A call that only places bets: a click on a bet control, or entering an amount. */
  predicate TouchesBet(c: Call) {
    c.ClearAndType? || (c.Click? && c.selector in [HomeBetButton, AwayBetButton, DrawBetButton, ConfirmBetButton])
  }

  /** The login step touches no bet control. */
  lemma LoginPhaseTouchesNoBet(s: Session, env: Env)
    ensures forall c :: c in LoginPhase(s, env).calls ==> !TouchesBet(c)
  {
    LoginPhaseCallsFrom(s, env);
  }

  /** Reaching the betting page touches no bet control. */
  lemma ReachPhaseTouchesNoBet(s: Session, env: Env)
    ensures forall c :: c in ReachPhase(s, env).calls ==> !TouchesBet(c)
  {
    ReachPhaseCallsFrom(s, env);
  }

  /** With an unknown bet type, no single call of `placeBet` touches a bet control. */
  lemma UnknownBetTypeCallIsHarmless(s: Session, o: BetOptions, env: Env, c: Call)
    requires BetSelector(o.betType).None?
    requires c in PlaceBetSpec(s, o, env).calls
    ensures !TouchesBet(c)
  {
    var login := LoginPhase(s, env);
    PlaceBetCallsFrom(s, o, env, c);
    LoginPhaseTouchesNoBet(s, env);
    ReachPhaseTouchesNoBet(login.after, env);
    assert BetPhase(login.after, o, env).calls == [];
  }

  /**
   * A bet type that is not recognised rejects before any bet control is
   * touched: no bet button is clicked and no amount is entered.
   */
  lemma {:induction false} UnknownBetTypePlacesNothing(s: Session, o: BetOptions, env: Env)
    requires BetSelector(o.betType).None?
    ensures PlaceBetSpec(s, o, env).result.Err?
    ensures forall c :: c in PlaceBetSpec(s, o, env).calls ==> !TouchesBet(c)
  {
    forall c | c in PlaceBetSpec(s, o, env).calls
      ensures !TouchesBet(c)
    {
      UnknownBetTypeCallIsHarmless(s, o, env, c);
    }
  }

  /** `placeBet` logs in only when the automator is logged out. */
  lemma PlaceBetLogsInOnlyWhenLoggedOut(s: Session, o: BetOptions, env: Env)
    requires s.browser != NoBrowser
    ensures s.loggedIn ==> PlaceBetSpec(s, o, env).calls[0] == ReadUrl
    ensures !s.loggedIn && s.config.username != "" && s.config.password != "" ==>
      PlaceBetSpec(s, o, env).calls[0] == QueryPresent(UserAccount)
  {
  }

  /** `placeBet` navigates only when the page's URL does not contain the betting-page marker. */
  lemma {:induction false} PlaceBetNavigatesOnlyOffPage(s: Session, o: BetOptions, env: Env)
    requires s.browser != NoBrowser
    requires LoginPhase(s, env).result.Ok? && !Fails(env, s.browser, ReadUrl)
    ensures Goto(s.config.betUrl) in PlaceBetSpec(s, o, env).calls <==> !Contains(env.url, BettingPageMarker)
  {
    var login := LoginPhase(s, env);
    var reach := ReachPhase(login.after, env);
    if Contains(env.url, BettingPageMarker) {
      LoginPhaseCallsFrom(s, env);
      BetPhaseCallsFrom(login.after, o, env);
      assert reach.calls == [ReadUrl];
      if Goto(s.config.betUrl) in PlaceBetSpec(s, o, env).calls {
        PlaceBetCallsFrom(s, o, env, Goto(s.config.betUrl));
        assert false;
      }
    } else {
      assert reach.calls[1] == Goto(s.config.betUrl);
      assert reach.calls[1] in PlaceBetSpec(s, o, env).calls;
    }
  }

  /**
   * `placeBet` resolves exactly when every step resolves: the login step, the
   * URL read, the navigation unless the page is already the betting page, the
   * bet-type mapping and all five bet steps.
   */
  lemma PlaceBetSucceedsIff(s: Session, o: BetOptions, env: Env)
    requires s.browser != NoBrowser
    ensures PlaceBetSpec(s, o, env).result.Ok? <==>
      LoginPhase(s, env).result.Ok?
      && !Fails(env, s.browser, ReadUrl)
      && (Contains(env.url, BettingPageMarker) || AllSucceed(NavigateCalls(s.config), env, s.browser))
      && BetSelector(o.betType).Some?
      && AllSucceed(BetCalls(BetSelector(o.betType).value, o.amount), env, s.browser)
  {
  }

  /** A sequence of awaits rejects with its first failing call. */
  lemma AwaitPropagates(s: Session, cs: seq<Call>, env: Env)
    ensures FirstFailurePropagates(Await(s, cs, env), env, s.browser)
  {
    var e := Await(s, cs, env);
    if e.result.Err? {
      assert e.calls[..|e.calls| - 1] == cs[..|e.calls| - 1];
    }
  }

  /** Calls that all succeeded, put in front of an operation, keep the way it rejects. */
  lemma {:induction false} AfterPropagates<T>(cs: seq<Call>, e: Effect<T>, env: Env, b: BrowserState)
    requires AllSucceed(cs, env, b) && FirstFailurePropagates(e, env, b)
    ensures FirstFailurePropagates(After(cs, e), env, b)
  {
    var r := After(cs, e);
    if e.result.Err? && e.result.error.CallFailed? {
      assert r.calls[..|r.calls| - 1] == cs + e.calls[..|e.calls| - 1];
      assert r.calls[|r.calls| - 1] == e.calls[|e.calls| - 1];
    }
  }

  lemma {:induction false} LoginPropagates(s: Session, env: Env)
    ensures FirstFailurePropagates(LoginSpec(s, env), env, s.browser)
  {
    if s.browser != NoBrowser && s.config.username != "" && s.config.password != ""
      && !Fails(env, s.browser, QueryPresent(UserAccount)) && UserAccount !in env.present
    {
      AwaitPropagates(s, LoginFormCalls(s.config), env);
      AfterPropagates([QueryPresent(UserAccount)], Await(s, LoginFormCalls(s.config), env), env, s.browser);
    }
  }

  lemma {:induction false} ReachPropagates(s: Session, env: Env)
    ensures FirstFailurePropagates(ReachPhase(s, env), env, s.browser)
  {
    if !Fails(env, s.browser, ReadUrl) {
      if !Contains(env.url, BettingPageMarker) && s.browser != NoBrowser {
        AwaitPropagates(s, NavigateCalls(s.config), env);
      }
      AfterPropagates([ReadUrl], NavPhase(s, env), env, s.browser);
    }
  }

  lemma {:induction false} OnPagePropagates(s: Session, o: BetOptions, env: Env)
    ensures FirstFailurePropagates(OnPagePhase(s, o, env), env, s.browser)
  {
    var reach := ReachPhase(s, env);
    ReachPropagates(s, env);
    if reach.result.Ok? {
      if BetSelector(o.betType).Some? {
        AwaitPropagates(s, BetCalls(BetSelector(o.betType).value, o.amount), env);
      }
      AfterPropagates(reach.calls, BetPhase(s, o, env), env, s.browser);
    }
  }

  /**
   * `placeBet` rejects with what its first failure threw: the call that failed,
   * after calls that all succeeded, or the automator's own error for a missing
   * browser, missing credentials or an unknown bet type, with no call failing.
   */
  lemma {:induction false} PlaceBetRejectsWithFirstFailure(s: Session, o: BetOptions, env: Env)
    ensures FirstFailurePropagates(PlaceBetSpec(s, o, env), env, s.browser)
    ensures var r := PlaceBetSpec(s, o, env).result;
      r.Err? && !r.error.CallFailed? ==>
        r.error == BrowserNotInitialized || r.error == MissingCredentials || r.error == UnknownBetType(o.betType)
  {
    if s.browser != NoBrowser {
      var login := LoginPhase(s, env);
      if !s.loggedIn {
        LoginPropagates(s, env);
      }
      if login.result.Ok? {
        OnPagePropagates(login.after, o, env);
        AfterPropagates(login.calls, OnPagePhase(login.after, o, env), env, s.browser);
      }
    }
  }

  /** `checkBetResult` reports pending without a result element, else win exactly when it has the `win` class. */
  lemma CheckResultClassifies(s: Session, env: Env)
    requires s.browser == Ready
    requires QueryPresent(BetResultMarker) !in env.failing && QueryHasClass(BetResultMarker, WinClass) !in env.failing
    ensures CheckResultSpec(s, env).result == Ok(Pending) <==> BetResultMarker !in env.present
    ensures CheckResultSpec(s, env).result == Ok(Win) <==> BetResultMarker in env.present && WinClass in env.resultClasses
    ensures CheckResultSpec(s, env).result == Ok(Loss) <==> BetResultMarker in env.present && WinClass !in env.resultClasses
  {
  }

  /** Closing twice is closing once: the second `close` finds no wrapper and does nothing. */
  lemma CloseIdempotent(s: Session, env: Env)
    requires CloseSpec(s, env).result.Ok?
    ensures var t := CloseSpec(s, env).after;
      CloseSpec(t, env) == Effect(t, [], Ok(()))
  {
  }

  /** Empty strings and zero are falsy options: they keep the current settings. */
  lemma FalsyOptionsKeepSettings(c: Config)
    ensures MergeOptions(c, InitOptions(Some(""), Some(""), Some(""), Some(0))) == c
    ensures MergeOptions(c, InitOptions(None, None, None, None)) == c
  {
  }

  /** `initialize` does not touch the login flag, so a logged-in automator stays logged in with its new wrapper. */
  lemma InitializeKeepsLoginFlag(s: Session, o: InitOptions, env: Env)
    ensures InitializeSpec(s, o, env).after.loggedIn == s.loggedIn
    ensures Launch !in env.failing ==> InitializeSpec(s, o, env).after.browser == Ready
  {
  }

  // ---------------------------------------------------------------- the class



  class BettingAutomator {
    var browser: BrowserState
    var isLoggedIn: bool
    var betUrl: string
    var username: string
    var password: string
    var delayBetweenBets: int
    /** Every call made into the browser wrapper, oldest first. */
    var calls: seq<Call>

    function Snapshot(): Session
      reads this`browser, this`isLoggedIn, this`betUrl, this`username, this`password, this`delayBetweenBets
    {
      Session(browser, isLoggedIn, Config(betUrl, username, password, delayBetweenBets))
    }

    constructor ()
      ensures Snapshot() == Session(NoBrowser, false, DefaultConfig) && calls == []
    {
      browser := NoBrowser;
      isLoggedIn := false;
      betUrl := DefaultBetUrl;
      username := "";
      password := "";
      delayBetweenBets := 5;
      calls := [];
    }

    /** One awaited page call. */
    method Perform(c: Call, env: Env) returns (ok: bool)
      modifies this`calls
      ensures calls == old(calls) + [c]
      ensures ok == !Fails(env, browser, c)
    {
      calls := calls + [c];
      ok := browser != Unready && c !in env.failing;
    }

    method Initialize(o: InitOptions, env: Env) returns (r: Result<bool, Error>)
      modifies this
      ensures var e := InitializeSpec(old(Snapshot()), o, env);
        Snapshot() == e.after && calls == old(calls) + e.calls && r == e.result
    {
      ghost var merged := MergeOptions(Snapshot().config, o);
      if GivenText(o.betUrl) { betUrl := o.betUrl.value; }
      if GivenText(o.username) { username := o.username.value; }
      if GivenText(o.password) { password := o.password.value; }
      if GivenNumber(o.delayBetweenBets) { delayBetweenBets := o.delayBetweenBets.value; }
      assert Snapshot().config == merged;
      browser := Unready;
      calls := calls + [Launch];
      if Launch in env.failing {
        return Err(CallFailed(Launch));
      }
      browser := Ready;
      return Ok(true);
    }

    /**
     * Awaits the calls of a fixed step sequence one after another; the first
     * call that throws ends the sequence and is the error it rejects with.
     */
    method AwaitEach(cs: seq<Call>, env: Env) returns (r: Result<bool, Error>)
      modifies this`calls
      ensures var e := Await(Snapshot(), cs, env);
        calls == old(calls) + e.calls && r == e.result
      decreases |cs|
    {
      if cs == [] {
        return Ok(true);
      }
      var ok := Perform(cs[0], env);
      if !ok {
        return Err(CallFailed(cs[0]));
      }
      r := AwaitEach(cs[1..], env);
    }

    method NavigateToBettingSite(env: Env) returns (r: Result<bool, Error>)
      modifies this`calls
      ensures var e := NavigateSpec(old(Snapshot()), env);
        calls == old(calls) + e.calls && r == e.result
    {
      if browser == NoBrowser {
        return Err(BrowserNotInitialized);
      }
      r := AwaitEach([Goto(betUrl), WaitFor(GameContainer, 30000)], env);
    }

    method Login(env: Env) returns (r: Result<bool, Error>)
      modifies this`calls, this`isLoggedIn
      ensures var e := LoginSpec(old(Snapshot()), env);
        Snapshot() == e.after && calls == old(calls) + e.calls && r == e.result
    {
      if browser == NoBrowser {
        isLoggedIn := false;
        return Err(BrowserNotInitialized);
      }
      if username == "" || password == "" {
        isLoggedIn := false;
        return Err(MissingCredentials);
      }
      var ok := Perform(QueryPresent(UserAccount), env);
      if !ok {
        isLoggedIn := false;
        return Err(CallFailed(QueryPresent(UserAccount)));
      }
      if UserAccount in env.present {
        isLoggedIn := true;
        return Ok(true);
      }
      r := AwaitEach([ Click(LoginButton), WaitFor(LoginForm, 10000),
                       TypeInto(UsernameInput, username), TypeInto(PasswordInput, password),
                       Click(SubmitButton), WaitFor(UserAccount, 15000) ], env);
      isLoggedIn := r.Ok?;
    }

    method PlaceBet(o: BetOptions, env: Env) returns (r: Result<bool, Error>)
      modifies this`calls, this`isLoggedIn
      ensures var e := PlaceBetSpec(old(Snapshot()), o, env);
        Snapshot() == e.after && calls == old(calls) + e.calls && r == e.result
    {
      if browser == NoBrowser {
        return Err(BrowserNotInitialized);
      }
      ghost var login := LoginPhase(Snapshot(), env);
      r := LogInIfNeeded(env);
      if r.Err? { return; }
      ghost var rest := OnPagePhase(Snapshot(), o, env);
      r := BetOnPage(o, env);
      AppendAssoc(old(calls), login.calls, rest.calls);
    }

    /** The login step of `placeBet`. */
    method LogInIfNeeded(env: Env) returns (r: Result<bool, Error>)
      modifies this`calls, this`isLoggedIn
      ensures var e := LoginPhase(old(Snapshot()), env);
        Snapshot() == e.after && calls == old(calls) + e.calls && r == e.result
    {
      r := Ok(true);
      if !isLoggedIn {
        r := Login(env);
      }
    }

    /** The part of `placeBet` after the login step. */
    method BetOnPage(o: BetOptions, env: Env) returns (r: Result<bool, Error>)
      modifies this`calls
      ensures var e := OnPagePhase(old(Snapshot()), o, env);
        calls == old(calls) + e.calls && r == e.result
    {
      ghost var reach := ReachPhase(Snapshot(), env);
      r := ReachBettingPage(env);
      if r.Err? { return; }
      r := BetOnControl(o, env);
      AppendAssoc(old(calls), reach.calls, BetPhase(Snapshot(), o, env).calls);
    }

    /** Reads the URL and navigates when it is not the betting page's. */
    method ReachBettingPage(env: Env) returns (r: Result<bool, Error>)
      modifies this`calls
      ensures var e := ReachPhase(old(Snapshot()), env);
        calls == old(calls) + e.calls && r == e.result
    {
      var ok := Perform(ReadUrl, env);
      if !ok { return Err(CallFailed(ReadUrl)); }
      r := Ok(true);
      if !Contains(env.url, BettingPageMarker) {
        r := NavigateToBettingSite(env);
      }
    }

    /** Maps the bet type to its control and runs the five bet steps. */
    method BetOnControl(o: BetOptions, env: Env) returns (r: Result<bool, Error>)
      modifies this`calls
      ensures var e := BetPhase(old(Snapshot()), o, env);
        calls == old(calls) + e.calls && r == e.result
    {
      var selector := BetSelector(o.betType);
      if selector.None? {
        return Err(UnknownBetType(o.betType));
      }
      r := AwaitEach([ Click(selector.value), WaitFor(BetForm, 5000),
                       ClearAndType(BetAmountInput, Decimal(o.amount)),
                       Click(ConfirmBetButton), WaitFor(BetConfirmation, 10000) ], env);
    }

    method CheckBetResult(env: Env) returns (r: Result<BetResult, Error>)
      modifies this`calls
      ensures var e := CheckResultSpec(old(Snapshot()), env);
        calls == old(calls) + e.calls && r == e.result
    {
      if browser == NoBrowser {
        return Err(BrowserNotInitialized);
      }
      var ok := Perform(QueryPresent(BetResultMarker), env);
      if !ok { return Err(CallFailed(QueryPresent(BetResultMarker))); }
      if BetResultMarker !in env.present {
        return Ok(Pending);
      }
      ok := Perform(QueryHasClass(BetResultMarker, WinClass), env);
      if !ok { return Err(CallFailed(QueryHasClass(BetResultMarker, WinClass))); }
      return Ok(if WinClass in env.resultClasses then Win else Loss);
    }

    method Close(env: Env) returns (r: Result<(), Error>)
      modifies this
      ensures var e := CloseSpec(old(Snapshot()), env);
        Snapshot() == e.after && calls == old(calls) + e.calls && r == e.result
    {
      if browser != NoBrowser {
        calls := calls + [CloseBrowser];
        if CloseBrowser in env.failing {
          return Err(CallFailed(CloseBrowser));
        }
        browser := NoBrowser;
        isLoggedIn := false;
      }
      return Ok(());
    }
  }
}
