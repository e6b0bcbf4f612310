/**
 * The requests the client sends and, as pure functions over a `Wire`, what each
 * of its network operations does: steps 1-7 of the login (up to the SMS being
 * sent), steps 8-13 (MFA code to tokens), the refresh grant and the price query.
 * The methods of `Api.Client` are proved equal to these functions, and the lemmas
 * here characterise them as request traces.
 */
module AuthProtocol {
  import opened Common
  import opened Const
  import opened Endpoints
  import opened Transport
  import opened Scrape
  import opened Pkce

  /** The intermediate state kept between the two halves of the login. */
  datatype AuthFlowState = AuthFlowState(
    session: Session,
    authorizeState: string,
    loginState: string,
    smsChallengeState: string,
    codeVerifier: string)

  // ---------------------------------------------------------------------
  // Token responses, refresh and prices
  // ---------------------------------------------------------------------

  /** `token_result["…"]` on a decoded token response: anything but an object holding a
      string under that key raises outside the client's taxonomy. */
  function TokenField(doc: Json, key: string): (r: Result<string>)
    ensures r.Err? ==> r.error == TokenLookupError
    ensures r.Ok? <==> doc.JObj? && key in doc.fields && doc.fields[key].JStr?
    ensures r.Ok? ==> doc.fields[key] == JStr(r.value)
  {
    if doc.JObj? && key in doc.fields && doc.fields[key].JStr? then Ok(doc.fields[key].s) else Err(TokenLookupError)
  }

  /** The access and refresh tokens of a token response, read in that order. */
  function TokenPair(doc: Json): (r: Result<(string, string)>)
    ensures r.Ok? <==> TokenField(doc, "access_token").Ok? && TokenField(doc, "refresh_token").Ok?
    ensures r.Ok? ==> r.value == (TokenField(doc, "access_token").value, TokenField(doc, "refresh_token").value)
    ensures r.Err? ==> r.error == TokenLookupError
  {
    var access :- TokenField(doc, "access_token");
    var refresh :- TokenField(doc, "refresh_token");
    Ok((access, refresh))
  }

  /** The result of a refresh, with the client's two token fields afterwards. */
  datatype RefreshStep = RefreshStep(wire: Wire, result: Result<(string, string)>,
                                     accessToken: Option<string>, refreshToken: Option<string>)

  /** Python's truthiness of an optional string: None and "" are false. */
  predicate Truthy(t: Option<string>) {
    t.Some? && t.value != ""
  }

  /** `async_refresh_token` on the client's session, from its current token fields. The
      access token field is written before the refresh token is read from the response. */
  function Refresh(w: Wire, open: bool, s: Session, clientId: string,
                   accessToken: Option<string>, refreshToken: Option<string>): (r: RefreshStep)
    ensures !Truthy(refreshToken) ==> r == RefreshStep(w, Err(AuthError), accessToken, refreshToken)
    ensures Truthy(refreshToken) ==> r.wire == Deliver(w, open, Request(s, RefreshGrant(clientId, refreshToken.value))).0
    ensures r.result.Ok? ==> r.accessToken == Some(r.result.value.0) && r.refreshToken == Some(r.result.value.1)
    ensures r.result.Err? ==> r.refreshToken == refreshToken
    ensures r.result.Err? && r.result.error != TokenLookupError ==> r.accessToken == accessToken
  {
    if !Truthy(refreshToken) then RefreshStep(w, Err(AuthError), accessToken, refreshToken)
    else
      var x := FetchJson(w, open, Request(s, RefreshGrant(clientId, refreshToken.value)));
      if x.result.Err? then RefreshStep(x.wire, Err(x.result.error), accessToken, refreshToken)
      else
        match TokenField(x.result.value, "access_token")
        case Err(e) => RefreshStep(x.wire, Err(e), accessToken, refreshToken)
        case Ok(access) =>
          match TokenField(x.result.value, "refresh_token")
          case Err(e) => RefreshStep(x.wire, Err(e), Some(access), refreshToken)
          case Ok(refresh) => RefreshStep(x.wire, Ok((access, refresh)), Some(access), Some(refresh))
  }

  /** `async_get_prices`: the decoded price document. */
  function Prices(w: Wire, open: bool, s: Session, customerNumber: string, accessToken: Option<string>): Step<Json> {
    FetchJson(w, open, Request(s, PriceQuery(customerNumber, accessToken)))
  }

  // ---------------------------------------------------------------------
  // The two login phases as request traces
  // ---------------------------------------------------------------------

  /** The wire after the requests reqs were sent, one outcome consumed per request. */
  function Advance(w: Wire, reqs: seq<Request>): Wire {
    Wire(w.script, w.next + |reqs|, w.sent + reqs)
  }

  /** Sending xs and then x is sending xs + [x]. */
  lemma AdvanceSnoc(w: Wire, xs: seq<Request>, x: Request)
    ensures Advance(Advance(w, xs), [x]) == Advance(w, xs + [x])
  {
    assert (w.sent + xs) + [x] == w.sent + (xs + [x]);
  }

  /** The token that `key` extracts from the i-th outcome ahead ("" when there is none). */
  function Tok(w: Wire, i: nat, key: string): string {
    ExtractFromBody(TextOf(Ahead(w, i)), key).GetOr("")
  }

  /** Why a step of the login fails on outcome o, if it does: `_api_wrapper`'s exception,
      or, for a step that scrapes a token, the given error when the body holds none. */
  function Verdict(o: Outcome, raiseOnError: bool, scrape: Option<(string, ApiError)>): Option<ApiError> {
    match Classify(o, raiseOnError, false)
    case Err(e) => Some(e)
    case Ok(_) =>
      if scrape.Some? && ExtractFromBody(TextOf(o), scrape.value.0).None? then Some(scrape.value.1) else None
  }

  /** Why the token exchange fails on outcome o, if it does. */
  function TokenVerdict(o: Outcome): Option<ApiError> {
    match Classify(o, true, true)
    case Err(e) => Some(e)
    case Ok(_) => if TokenPair(o.json.doc).Ok? then None else Some(TokenLookupError)
  }

  /** The two halves of the login: steps 1-7 and steps 8-13. */
  datatype Phase = Phase1 | Phase2

  function StepCount(ph: Phase): nat {
    if ph == Phase1 then 7 else 6
  }

  /** How a step reads its response: a page fetched as text, with or without
      `raise_on_error` and with the pattern it scrapes and the error raised when the
      pattern is absent; or the token response, decoded as JSON. */
  datatype Mode = Page(raiseOnError: bool, scrape: Option<(string, ApiError)>) | TokenJson

  /** The step table. Phase 1: steps 1, 5 and 6 scrape a state and raise AuthError
      without one. Phase 2: step 8 does not check the status and raises MfaError without
      a state, step 9 raises AuthError without a state and step 12 without a code, and
      step 13 reads the token response. */
  function StepMode(ph: Phase, i: nat): Mode
    requires i < StepCount(ph)
  {
    match ph
    case Phase1 => Page(true, if i == 0 || i == 4 || i == 5 then Some((StateKey, AuthError)) else None)
    case Phase2 =>
      if i == 0 then Page(false, Some((StateKey, MfaError)))
      else if i == 1 then Page(true, Some((StateKey, AuthError)))
      else if i == 4 then Page(true, Some((CodeKey, AuthError)))
      else if i == 5 then TokenJson
      else Page(true, None)
  }

  /** How step i of a phase (counted from 0) fares on the i-th outcome ahead of w. */
  function StepVerdict(ph: Phase, w: Wire, i: nat): Option<ApiError>
    requires i < StepCount(ph)
  {
    match StepMode(ph, i)
    case Page(raiseOnError, scrape) => Verdict(Ahead(w, i), raiseOnError, scrape)
    case TokenJson => TokenVerdict(Ahead(w, i))
  }

  /** How many steps of a phase run from step i on: every step up to the first failing
      one, or all of them. */
  function StepsRun(ph: Phase, w: Wire, i: nat): (n: nat)
    requires i < StepCount(ph)
    decreases StepCount(ph) - i
    ensures i < n <= StepCount(ph)
  {
    if StepVerdict(ph, w, i).Some? || i == StepCount(ph) - 1 then i + 1 else StepsRun(ph, w, i + 1)
  }

  /** The steps before the last one run all passed; the phase stops early only on a failing
      step; and it completes with every step passed exactly when no step fails. */
  lemma {:induction false} StepsRunSpec(ph: Phase, w: Wire, i: nat)
    requires i < StepCount(ph)
    decreases StepCount(ph) - i
    ensures var n := StepsRun(ph, w, i);
      && (forall j | i <= j < n - 1 :: StepVerdict(ph, w, j).None?)
      && (n < StepCount(ph) ==> StepVerdict(ph, w, n - 1).Some?)
      && ((n == StepCount(ph) && StepVerdict(ph, w, n - 1).None?) <==>
          forall j | i <= j < StepCount(ph) :: StepVerdict(ph, w, j).None?)
  {
    if StepVerdict(ph, w, i).None? && i < StepCount(ph) - 1 {
      StepsRunSpec(ph, w, i + 1);
    }
  }

  /** Once steps 0 to k-1 have passed, step k decides whether the phase stops there or
      goes on to step k+1. */
  lemma StepsRunAt(ph: Phase, w: Wire, k: nat)
    requires k < StepCount(ph) && StepsRun(ph, w, 0) == StepsRun(ph, w, k)
    ensures StepVerdict(ph, w, k).Some? ==> StepsRun(ph, w, 0) == k + 1
    ensures StepVerdict(ph, w, k).None? && k + 1 < StepCount(ph) ==> StepsRun(ph, w, 0) == StepsRun(ph, w, k + 1)
    ensures StepVerdict(ph, w, k).None? && k + 1 == StepCount(ph) ==> StepsRun(ph, w, 0) == k + 1
  {
  }

  /** The result of a phase that ran n steps: the last step's error, or the value. */
  function PhaseResult<T>(ph: Phase, w: Wire, n: nat, value: T): Result<T>
    requires 0 < n <= StepCount(ph)
  {
    if StepVerdict(ph, w, n - 1).Some? then Err(StepVerdict(ph, w, n - 1).value) else Ok(value)
  }

  /** What the requests of a phase are built from: for steps 1-7 the session, the
      credentials, the PKCE values and the three scraped states; for steps 8-13 the flow
      state, the MFA code and the two values scraped along the way. */
  datatype Plan =
    | Plan1(s: Session, clientId: string, username: string, password: string, pk: Pkce,
            authorizeState: string, loginState: string, smsState: string)
    | Plan2(clientId: string, flow: AuthFlowState, mfaCode: string, passkeyState: string, authCode: string)
  {
    function Kind(): Phase {
      if Plan1? then Phase1 else Phase2
    }
  }

  /** The request of step i of a phase (counted from 0). In steps 1-7 the identifier and
      password pages carry the authorize state, the resume carries the login state and the
      challenge page the SMS challenge state; in steps 8-13 both resumes carry the login
      state, the passkey pages the passkey state, and the exchange the code and verifier. */
  function StepRequest(plan: Plan, i: nat): Request
    requires i < StepCount(plan.Kind())
  {
    match plan
    case Plan1(s, clientId, username, password, pk, a, l, m) =>
      Request(s,
        if i == 0 then Authorize(clientId, pk)
        else if i == 1 then LoadPage(IdentifierPage, a)
        else if i == 2 then SubmitIdentifier(a, username)
        else if i == 3 then LoadPage(PasswordPage, a)
        else if i == 4 then SubmitPassword(a, username, password)
        else if i == 5 then Resume(l)
        else LoadPage(SmsChallengePage, m))
    case Plan2(clientId, flow, mfaCode, p, c) =>
      Request(flow.session,
        if i == 0 then SubmitMfaCode(flow.smsChallengeState, mfaCode)
        else if i == 1 then Resume(flow.loginState)
        else if i == 2 then LoadPage(PasskeyPage, p)
        else if i == 3 then AbortPasskey(p)
        else if i == 4 then Resume(flow.loginState)
        else ExchangeCode(clientId, c, flow.codeVerifier))
  }

  /** The requests of the first n steps, in order. */
  function Trace(plan: Plan, n: nat): (r: seq<Request>)
    requires n <= StepCount(plan.Kind())
    ensures |r| == n
  {
    if n == 0 then [] else Trace(plan, n - 1) + [StepRequest(plan, n - 1)]
  }

  /** The tokens a token response carries ("" for both when it does not hold them). */
  function TokensOf(o: Outcome): (string, string) {
    if o.Reply? && o.json.Parsed? && TokenPair(o.json.doc).Ok? then TokenPair(o.json.doc).value else ("", "")
  }

  /** The plan of steps 1-7 on wire w: the states are what steps 1, 5 and 6 scrape. */
  function Phase1Plan(w: Wire, s: Session, clientId: string, username: string, password: string, pk: Pkce): Plan {
    Plan1(s, clientId, username, password, pk, Tok(w, 0, StateKey), Tok(w, 4, StateKey), Tok(w, 5, StateKey))
  }

  /** The plan of steps 8-13 on wire w: the passkey state from step 9, the code from step 12. */
  function Phase2Plan(w: Wire, clientId: string, flow: AuthFlowState, mfaCode: string): Plan {
    Plan2(clientId, flow, mfaCode, Tok(w, 1, StateKey), Tok(w, 4, CodeKey))
  }

  /** Steps 1-7 took the wire from w to w' with result r: they sent the requests of the
      steps that ran, in order, and r is the error of the step that stopped them or the
      flow state carrying the scraped states and the verifier. */
  predicate Phase1Done(w: Wire, w': Wire, r: Result<AuthFlowState>,
                       s: Session, clientId: string, username: string, password: string, pk: Pkce) {
    var plan := Phase1Plan(w, s, clientId, username, password, pk);
    var n := StepsRun(Phase1, w, 0);
    && w' == Advance(w, Trace(plan, n))
    && r == PhaseResult(Phase1, w, n, AuthFlowState(s, plan.authorizeState, plan.loginState, plan.smsState, pk.codeVerifier))
  }

  /** Steps 1-7 stop at step k with error e once step k fails after steps 0 to k-1 passed. */
  lemma Phase1Stopped(w: Wire, s: Session, clientId: string, username: string, password: string, pk: Pkce,
                      k: nat, e: ApiError)
    requires k < 7 && StepsRun(Phase1, w, 0) == k + 1 && StepVerdict(Phase1, w, k) == Some(e)
    ensures Phase1Done(w, Advance(w, Trace(Phase1Plan(w, s, clientId, username, password, pk), k + 1)), Err(e),
                       s, clientId, username, password, pk)
  {
  }

  /** Steps 8-13 took the wire from w to w' with result r. On a closed session the first
      request raises before it is sent; otherwise as for `Phase1Done`, with the token pair. */
  predicate Phase2Done(w: Wire, w': Wire, r: Result<(string, string)>,
                       open: bool, clientId: string, flow: AuthFlowState, mfaCode: string) {
    if !open then w' == w && r == Err(ClientError)
    else
      var n := StepsRun(Phase2, w, 0);
      && w' == Advance(w, Trace(Phase2Plan(w, clientId, flow, mfaCode), n))
      && r == PhaseResult(Phase2, w, n, TokensOf(Ahead(w, 5)))
  }

  /** Steps 8-13 stop at step k with error e once step k fails after steps 0 to k-1 passed. */
  lemma Phase2Stopped(w: Wire, clientId: string, flow: AuthFlowState, mfaCode: string, k: nat, e: ApiError)
    requires k < 6 && StepsRun(Phase2, w, 0) == k + 1 && StepVerdict(Phase2, w, k) == Some(e)
    ensures Phase2Done(w, Advance(w, Trace(Phase2Plan(w, clientId, flow, mfaCode), k + 1)), Err(e),
                       true, clientId, flow, mfaCode)
  {
  }

  /** Every request of phase 1 goes on the auth session to the login host. */
  lemma Phase1Routing(plan: Plan)
    requires plan.Plan1?
    ensures forall i | 0 <= i < 7 :: StepRequest(plan, i).via == plan.s && HostOf(StepRequest(plan, i).call) == AuthHost
  {
  }

  /** The password is sent once, in step 5's form. */
  lemma Phase1PasswordOnce(plan: Plan)
    requires plan.Plan1?
    ensures forall i | 0 <= i < 7 :: (Password in Form(StepRequest(plan, i).call) <==> i == 4)
    ensures Form(StepRequest(plan, 4).call)[Password] == plan.password
  {
  }

  /** The PKCE verifier is not sent before the token exchange: step 1 sends only its
      S256 challenge. */
  lemma Phase1VerifierWithheld(plan: Plan)
    requires plan.Plan1?
    ensures forall i | 0 <= i < 7 :: CodeVerifier !in Form(StepRequest(plan, i).call) && CodeVerifier !in Params(StepRequest(plan, i).call)
    ensures Params(StepRequest(plan, 0).call)[CodeChallenge] == plan.pk.codeChallenge
    ensures Params(StepRequest(plan, 0).call)[CodeChallengeMethod] == "S256"
  {
  }

  /** Phase 1 threads its states: step 1 carries the PKCE state, steps 2-5 the authorize
      state, step 6 only the login state, step 7 the SMS challenge state. */
  lemma Phase1States(plan: Plan)
    requires plan.Plan1?
    ensures Params(StepRequest(plan, 0).call)[State] == plan.pk.state
    ensures forall i | 1 <= i <= 4 :: Params(StepRequest(plan, i).call)[State] == plan.authorizeState
    ensures Params(StepRequest(plan, 5).call) == map[State := plan.loginState]
    ensures Params(StepRequest(plan, 6).call)[State] == plan.smsState
  {
  }

  /** Every request of phase 2 goes on the flow's session to the login host. */
  lemma Phase2Routing(plan: Plan)
    requires plan.Plan2?
    ensures forall i | 0 <= i < 6 :: StepRequest(plan, i).via == plan.flow.session && HostOf(StepRequest(plan, i).call) == AuthHost
  {
  }

  /** The MFA code is sent only in step 8's form; the token exchange sends the scraped
      code with the flow's verifier; the other steps carry no code. */
  lemma Phase2Secrets(plan: Plan)
    requires plan.Plan2?
    ensures forall i | 0 <= i < 6 :: (Code in Form(StepRequest(plan, i).call) <==> i == 0 || i == 5)
    ensures Form(StepRequest(plan, 0).call)[Code] == plan.mfaCode
    ensures Form(StepRequest(plan, 5).call)[Code] == plan.authCode
    ensures Form(StepRequest(plan, 5).call)[CodeVerifier] == plan.flow.codeVerifier
  {
  }

  /** Phase 2 threads its states: step 8 carries the SMS challenge state, both resumes
      (steps 9 and 12) the login state, and the passkey steps the scraped passkey state. */
  lemma Phase2States(plan: Plan)
    requires plan.Plan2?
    ensures Params(StepRequest(plan, 0).call)[State] == plan.flow.smsChallengeState
    ensures StepRequest(plan, 4) == StepRequest(plan, 1)
    ensures Params(StepRequest(plan, 1).call) == map[State := plan.flow.loginState]
    ensures Params(StepRequest(plan, 2).call)[State] == plan.passkeyState
    ensures Params(StepRequest(plan, 3).call)[State] == plan.passkeyState
  {
  }

  // ---------------------------------------------------------------------
  // What the phases, the refresh and the price query amount to
  // ---------------------------------------------------------------------

  /** Steps 1-7 succeed exactly when no step fails, and then sent all seven requests and
      return the three scraped states with the verifier; otherwise the error is that of
      the first failing step, after whose request nothing more was sent. */
  lemma Phase1Outcome(w: Wire, w': Wire, r: Result<AuthFlowState>,
                      s: Session, clientId: string, username: string, password: string, pk: Pkce)
    requires Phase1Done(w, w', r, s, clientId, username, password, pk)
    ensures var plan := Phase1Plan(w, s, clientId, username, password, pk);
      && (r.Ok? <==> forall j | 0 <= j < 7 :: StepVerdict(Phase1, w, j).None?)
      && (r.Ok? ==> w'.sent == w.sent + Trace(plan, 7)
                    && r.value == AuthFlowState(s, Tok(w, 0, StateKey), Tok(w, 4, StateKey), Tok(w, 5, StateKey), pk.codeVerifier))
      && (r.Err? ==> exists k | 0 <= k < 7 ::
            && w'.sent == w.sent + Trace(plan, k + 1)
            && StepVerdict(Phase1, w, k) == Some(r.error)
            && forall j | 0 <= j < k :: StepVerdict(Phase1, w, j).None?)
  {
    StepsRunSpec(Phase1, w, 0);
    var n := StepsRun(Phase1, w, 0);
    if r.Err? {
      assert StepVerdict(Phase1, w, n - 1) == Some(r.error);
    }
  }

  /** Only step 8 raises the MFA error: the later steps raise the wrapper's errors, the
      authentication error of a missing state or code, or a failed token lookup. */
  lemma MfaErrorOnlyFromCodeSubmission(w: Wire, j: nat)
    requires 0 < j < 6
    ensures StepVerdict(Phase2, w, j) != Some(MfaError)
  {
    if j == 5 {
      ClassifySpec(Ahead(w, j), true, true);
    } else {
      ClassifySpec(Ahead(w, j), true, false);
    }
  }

  /** Steps 8-13 on a closed session fail with the base error and send nothing. On an open
      one they succeed exactly when no step fails, and then sent all six requests and
      return the token response's pair; otherwise the error is that of the first failing
      step, after whose request nothing more was sent. An MFA error means that only the
      code submission was sent, so the same flow state can be reused with another code. */
  lemma Phase2Outcome(w: Wire, w': Wire, r: Result<(string, string)>,
                      open: bool, clientId: string, flow: AuthFlowState, mfaCode: string)
    requires Phase2Done(w, w', r, open, clientId, flow, mfaCode)
    ensures !open ==> r == Err(ClientError) && w' == w
    ensures var plan := Phase2Plan(w, clientId, flow, mfaCode);
      && (open ==> (r.Ok? <==> forall j | 0 <= j < 6 :: StepVerdict(Phase2, w, j).None?))
      && (open && r.Ok? ==> w'.sent == w.sent + Trace(plan, 6) && r.value == TokensOf(Ahead(w, 5)))
      && (open && r.Err? ==> exists k | 0 <= k < 6 ::
            && w'.sent == w.sent + Trace(plan, k + 1)
            && StepVerdict(Phase2, w, k) == Some(r.error)
            && forall j | 0 <= j < k :: StepVerdict(Phase2, w, j).None?)
      && (r == Err(MfaError) ==> open && w'.sent == w.sent + [StepRequest(plan, 0)])
  {
    if open {
      StepsRunSpec(Phase2, w, 0);
      var n := StepsRun(Phase2, w, 0);
      if r.Err? {
        assert StepVerdict(Phase2, w, n - 1) == Some(r.error);
      }
      if r == Err(MfaError) && n > 1 {
        MfaErrorOnlyFromCodeSubmission(w, n - 1);
      }
    }
  }

  /** Step 8 reads its page without checking the status: a reply whose body holds no
      state ends the completion with the MFA error, whatever its status, after the code
      submission alone; a reply that holds one lets the completion go on to step 9. */
  lemma CodeRejectedIsMfaError(w: Wire, w': Wire, r: Result<(string, string)>,
                               clientId: string, flow: AuthFlowState, mfaCode: string)
    requires Phase2Done(w, w', r, true, clientId, flow, mfaCode)
    requires Ahead(w, 0).Reply?
    ensures ExtractFromBody(Ahead(w, 0).text, StateKey).None? ==>
      && r == Err(MfaError)
      && w'.sent == w.sent + [StepRequest(Phase2Plan(w, clientId, flow, mfaCode), 0)]
    ensures ExtractFromBody(Ahead(w, 0).text, StateKey).Some? ==> StepsRun(Phase2, w, 0) > 1
  {
    var o := Ahead(w, 0);
    assert Classify(o, false, false) == Ok(Text(o.text));
    if ExtractFromBody(o.text, StateKey).None? {
      assert StepVerdict(Phase2, w, 0) == Some(MfaError);
      var plan := Phase2Plan(w, clientId, flow, mfaCode);
      assert Trace(plan, 1) == [StepRequest(plan, 0)];
    } else {
      assert StepVerdict(Phase2, w, 0).None?;
    }
  }

  /** A refresh with a refresh token sends one refresh grant on the session given. On an
      open session it succeeds exactly when the token endpoint answers below 400 with
      a JSON object holding both tokens, and it then stores and returns that pair. */
  lemma RefreshOutcome(w: Wire, open: bool, s: Session, clientId: string,
                       accessToken: Option<string>, refreshToken: Option<string>)
    requires Truthy(refreshToken)
    ensures var r := Refresh(w, open, s, clientId, accessToken, refreshToken);
      var o := Ahead(w, 0);
      && (open ==> r.wire.sent == w.sent + [Request(s, RefreshGrant(clientId, refreshToken.value))])
      && (r.result.Ok? <==> open && o.Reply? && o.status < 400 && o.json.Parsed? && TokenPair(o.json.doc).Ok?)
      && (r.result.Ok? ==> r.result.value == TokenPair(o.json.doc).value)
      && (!open ==> r.result == Err(ClientError))
      && (r.accessToken != accessToken ==>
            || r.result.Ok?
            || (&& open && o.Reply? && o.status < 400 && o.json.Parsed?
                && TokenField(o.json.doc, "access_token") == Ok(r.accessToken.value)
                && r.result == Err(TokenLookupError)))
  {
  }

  /** A successful refresh followed by another sends, the second time, the refresh token
      the first one received; an empty one makes the second refresh fail without a request. */
  lemma ConsecutiveRefreshes(w: Wire, open: bool, s: Session, clientId: string,
                             accessToken: Option<string>, refreshToken: Option<string>)
    ensures var x := Refresh(w, open, s, clientId, accessToken, refreshToken);
      var y := Refresh(x.wire, open, s, clientId, x.accessToken, x.refreshToken);
      && (x.result.Ok? && x.result.value.1 != "" ==>
            y.wire == Deliver(x.wire, open, Request(s, RefreshGrant(clientId, x.result.value.1))).0)
      && (x.result.Ok? && x.result.value.1 == "" ==> y.wire == x.wire && y.result == Err(AuthError))
  {
  }

  /** A price query sends one request to the customer's price endpoint with the access
      token as bearer credential; on an open session its result is the decoded document of
      a reply below 400, and otherwise the wrapper's error for the outcome. */
  lemma PricesOutcome(w: Wire, open: bool, s: Session, customerNumber: string, accessToken: Option<string>)
    ensures var x := Prices(w, open, s, customerNumber, accessToken);
      var o := Ahead(w, 0);
      && (open ==> x.wire.sent == w.sent + [Request(s, PriceQuery(customerNumber, accessToken))])
      && (!open ==> x.wire == w && x.result == Err(ClientError))
      && (x.result.Ok? <==> open && o.Reply? && o.status < 400 && o.json.Parsed?)
      && (x.result.Ok? ==> x.result.value == o.json.doc)
      && (open && o.Reply? && (o.status == 401 || o.status == 403) ==> x.result == Err(AuthError))
  {
  }

  /** Steps 1-7 raise only the client's own errors, and never the MFA error: the wrapper's
      authentication, communication and base errors, or the authentication error of a
      missing state. */
  lemma Phase1Errors(w: Wire, w': Wire, r: Result<AuthFlowState>,
                     s: Session, clientId: string, username: string, password: string, pk: Pkce)
    requires Phase1Done(w, w', r, s, clientId, username, password, pk)
    ensures r.Err? ==> r.error in {AuthError, CommError, ClientError}
  {
    var n := StepsRun(Phase1, w, 0);
    ClassifySpec(Ahead(w, n - 1), true, false);
  }
}
