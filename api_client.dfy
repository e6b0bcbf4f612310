/**
 * `EngieBeApiClient`: the object holding the client id and the token pair, whose
 * methods run the login, refresh the tokens and fetch prices over a scripted network.
 */
module Api {
  import opened Common
  import opened Endpoints
  import opened Transport
  import opened Scrape
  import opened Pkce
  import opened AuthProtocol

  class Client {
    const net: Network
    /** The shared Home Assistant session used for refreshes and price queries. */
    const session: Session
    const clientId: string
    var accessToken: Option<string>
    var refreshToken: Option<string>

    constructor (net: Network, session: Session, clientId: string,
                 accessToken: Option<string>, refreshToken: Option<string>)
      ensures this.net == net && this.session == session && this.clientId == clientId
      ensures this.accessToken == accessToken && this.refreshToken == refreshToken
    {
      this.net := net;
      this.session := session;
      this.clientId := clientId;
      this.accessToken := accessToken;
      this.refreshToken := refreshToken;
    }

    /** `_api_wrapper`: send the request and classify what comes back. */
    method ApiWrapper(req: Request, raiseOnError: bool, jsonResponse: bool) returns (r: Result<Payload>)
      modifies net
      ensures var x := Exchange(old(net.State()), req.via.IsOpen(), req, raiseOnError, jsonResponse);
        net.State() == x.wire && r == x.result
    {
      var o := net.Send(req);
      r := Classify(o, raiseOnError, jsonResponse);
    }

    /** One step of the login: `_api_wrapper` on a text page, then, for a step that scrapes
        a token, `_extract_from_body` on the body, raising `scrape`'s error when it finds none.
        The result is the token, or the body when nothing is scraped. The ghost parameters
        place the call as step k of the phase that `plan` describes, started at wire w. */
    method LoginStep(req: Request, raiseOnError: bool, scrape: Option<(string, ApiError)>,
                     ghost w: Wire, ghost plan: Plan, ghost k: nat) returns (r: Result<string>)
      requires k < StepCount(plan.Kind()) && StepMode(plan.Kind(), k) == Page(raiseOnError, scrape)
      requires req == StepRequest(plan, k) && req.via.IsOpen()
      requires net.State() == Advance(w, Trace(plan, k))
      requires StepsRun(plan.Kind(), w, 0) == StepsRun(plan.Kind(), w, k)
      modifies net
      ensures net.State() == Advance(w, Trace(plan, k + 1))
      ensures r.Err? <==> StepVerdict(plan.Kind(), w, k).Some?
      ensures r.Err? ==> r.error == StepVerdict(plan.Kind(), w, k).value
      ensures r.Ok? && scrape.Some? ==> r.value == Tok(w, k, scrape.value.0)
      ensures r.Err? ==> StepsRun(plan.Kind(), w, 0) == k + 1
      ensures r.Ok? && k + 1 < StepCount(plan.Kind()) ==> StepsRun(plan.Kind(), w, 0) == StepsRun(plan.Kind(), w, k + 1)
      ensures r.Ok? && k + 1 == StepCount(plan.Kind()) ==> StepsRun(plan.Kind(), w, 0) == k + 1
    {
      AdvanceSnoc(w, Trace(plan, k), req);
      StepsRunAt(plan.Kind(), w, k);
      ghost var o := Ahead(w, k);
      assert StepVerdict(plan.Kind(), w, k) == Verdict(o, raiseOnError, scrape);
      assert Ahead(net.State(), 0) == o;
      var page := ApiWrapper(req, raiseOnError, false);
      if page.Err? {
        return Err(page.error);
      }
      if scrape.Some? {
        var token := ExtractFromBody(page.value.body, scrape.value.0);
        if token.None? {
          return Err(scrape.value.1);
        }
        return Ok(token.value);
      }
      r := Ok(page.value.body);
    }

    /** `_run_auth_steps_1_to_7` on session s, with the PKCE values drawn from the given
        random bytes and hash function. */
    method RunAuthSteps1To7(s: Session, entropy: Entropy, sha256: seq<byte> -> seq<byte>,
                            username: string, password: string) returns (r: Result<AuthFlowState>)
      requires s.IsOpen()
      modifies net
      ensures Phase1Done(old(net.State()), net.State(), r, s, clientId, username, password, GeneratePkce(entropy, sha256))
    {
      var pk := GeneratePkce(entropy, sha256);
      ghost var w := net.State();
      ghost var plan := Phase1Plan(w, s, clientId, username, password, pk);
      assert Advance(w, []) == w;

      // Step 1: GET /authorize, scraping the authorize state
      var authorizeState := LoginStep(Request(s, Authorize(clientId, pk)), true, Some((StateKey, AuthError)), w, plan, 0);
      if authorizeState.Err? {
        Phase1Stopped(w, s, clientId, username, password, pk, 0, authorizeState.error);
        return Err(authorizeState.error);
      }
      // Step 2: load the login page
      var page := LoginStep(Request(s, LoadPage(IdentifierPage, authorizeState.value)), true, None, w, plan, 1);
      if page.Err? {
        Phase1Stopped(w, s, clientId, username, password, pk, 1, page.error);
        return Err(page.error);
      }
      // Step 3: submit the username
      page := LoginStep(Request(s, SubmitIdentifier(authorizeState.value, username)), true, None, w, plan, 2);
      if page.Err? {
        Phase1Stopped(w, s, clientId, username, password, pk, 2, page.error);
        return Err(page.error);
      }
      // Step 4: load the password page
      page := LoginStep(Request(s, LoadPage(PasswordPage, authorizeState.value)), true, None, w, plan, 3);
      if page.Err? {
        Phase1Stopped(w, s, clientId, username, password, pk, 3, page.error);
        return Err(page.error);
      }
      // Step 5: submit the credentials, scraping the login state
      var loginState := LoginStep(Request(s, SubmitPassword(authorizeState.value, username, password)), true, Some((StateKey, AuthError)), w, plan, 4);
      if loginState.Err? {
        Phase1Stopped(w, s, clientId, username, password, pk, 4, loginState.error);
        return Err(loginState.error);
      }
      // Step 6: resume, which triggers the MFA challenge, scraping the SMS challenge state
      var smsState := LoginStep(Request(s, Resume(loginState.value)), true, Some((StateKey, AuthError)), w, plan, 5);
      if smsState.Err? {
        Phase1Stopped(w, s, clientId, username, password, pk, 5, smsState.error);
        return Err(smsState.error);
      }
      // Step 7: load the SMS challenge page, which sends the SMS
      page := LoginStep(Request(s, LoadPage(SmsChallengePage, smsState.value)), true, None, w, plan, 6);
      if page.Err? {
        Phase1Stopped(w, s, clientId, username, password, pk, 6, page.error);
        return Err(page.error);
      }
      r := Ok(AuthFlowState(s, authorizeState.value, loginState.value, smsState.value, pk.codeVerifier));
    }

    /** Step 13: `_api_wrapper(..., json_response=True)` on the token endpoint, then
        `token_result["access_token"]` and `token_result["refresh_token"]`, in that order. */
    method ExchangeStep(req: Request, ghost w: Wire, ghost plan: Plan, ghost k: nat) returns (r: Result<(string, string)>)
      requires k < StepCount(plan.Kind()) && StepMode(plan.Kind(), k) == TokenJson
      requires req == StepRequest(plan, k) && req.via.IsOpen()
      requires net.State() == Advance(w, Trace(plan, k))
      requires StepsRun(plan.Kind(), w, 0) == StepsRun(plan.Kind(), w, k)
      modifies net
      ensures net.State() == Advance(w, Trace(plan, k + 1))
      ensures StepsRun(plan.Kind(), w, 0) == k + 1
      ensures r == PhaseResult(plan.Kind(), w, k + 1, TokensOf(Ahead(w, k)))
    {
      AdvanceSnoc(w, Trace(plan, k), req);
      StepsRunAt(plan.Kind(), w, k);
      assert Ahead(net.State(), 0) == Ahead(w, k);
      var tokenResult := ApiWrapper(req, true, true);
      if tokenResult.Err? {
        return Err(tokenResult.error);
      }
      var accessToken :- TokenField(tokenResult.value.doc, "access_token");
      var refreshToken :- TokenField(tokenResult.value.doc, "refresh_token");
      r := Ok((accessToken, refreshToken));
    }

    /** `_run_auth_steps_8_to_13` on the flow's session. A closed session makes the first
        `session.request` raise before anything is sent, which `_api_wrapper` reports as
        the base error. */
    method RunAuthSteps8To13(flow: AuthFlowState, mfaCode: string) returns (r: Result<(string, string)>)
      modifies net
      ensures Phase2Done(old(net.State()), net.State(), r, flow.session.IsOpen(), clientId, flow, mfaCode)
    {
      var session := flow.session;
      if !session.IsOpen() {
        return Err(ClientError);
      }
      ghost var w := net.State();
      ghost var plan := Phase2Plan(w, clientId, flow, mfaCode);
      assert Advance(w, []) == w;

      // Step 8: submit the SMS code without raise_on_error; no new state means a wrong code
      var anotherState := LoginStep(Request(session, SubmitMfaCode(flow.smsChallengeState, mfaCode)), false, Some((StateKey, MfaError)), w, plan, 0);
      if anotherState.Err? {
        Phase2Stopped(w, clientId, flow, mfaCode, 0, anotherState.error);
        return Err(anotherState.error);
      }
      // Step 9: resume after the MFA, scraping the passkey enrollment state
      var passkeyState := LoginStep(Request(session, Resume(flow.loginState)), true, Some((StateKey, AuthError)), w, plan, 1);
      if passkeyState.Err? {
        Phase2Stopped(w, clientId, flow, mfaCode, 1, passkeyState.error);
        return Err(passkeyState.error);
      }
      // Step 10: load the passkey enrollment page
      var page := LoginStep(Request(session, LoadPage(PasskeyPage, passkeyState.value)), true, None, w, plan, 2);
      if page.Err? {
        Phase2Stopped(w, clientId, flow, mfaCode, 2, page.error);
        return Err(page.error);
      }
      // Step 11: abort the passkey enrollment
      page := LoginStep(Request(session, AbortPasskey(passkeyState.value)), true, None, w, plan, 3);
      if page.Err? {
        Phase2Stopped(w, clientId, flow, mfaCode, 3, page.error);
        return Err(page.error);
      }
      // Step 12: resume again with the login state, scraping the authorization code
      var authCode := LoginStep(Request(session, Resume(flow.loginState)), true, Some((CodeKey, AuthError)), w, plan, 4);
      if authCode.Err? {
        Phase2Stopped(w, clientId, flow, mfaCode, 4, authCode.error);
        return Err(authCode.error);
      }
      // Step 13: exchange the code and the verifier for the tokens
      r := ExchangeStep(Request(session, ExchangeCode(clientId, authCode.value, flow.codeVerifier)), w, plan, 5);
    }

    /** `async_start_authentication`: steps 1-7 on a new session, which is closed when
        they raise and otherwise handed over in the flow state. The session is returned
        as a ghost value so that the contract can speak of it. */
    method StartAuthentication(entropy: Entropy, sha256: seq<byte> -> seq<byte>, username: string, password: string)
      returns (r: Result<AuthFlowState>, ghost authSession: Session)
      modifies net
      ensures fresh(authSession)
      ensures Phase1Done(old(net.State()), net.State(), r, authSession, clientId, username, password, GeneratePkce(entropy, sha256))
      ensures r.Ok? ==> r.value.session == authSession && authSession.IsOpen()
      ensures r.Err? ==> authSession.closeCount == 1
    {
      var s := new Session();
      authSession := s;
      r := RunAuthSteps1To7(s, entropy, sha256, username, password);
      if r.Err? {
        s.Close();
      }
    }

    /** `async_complete_authentication`: steps 8-13 on the flow's session. An MFA error
        leaves the session open for another code; any other error closes it; success
        closes it and stores the token pair on the client. */
    method CompleteAuthentication(flow: AuthFlowState, mfaCode: string) returns (r: Result<(string, string)>)
      modifies net, flow.session, this
      ensures Phase2Done(old(net.State()), net.State(), r, old(flow.session.IsOpen()), clientId, flow, mfaCode)
      ensures r == Err(MfaError) ==> flow.session.closeCount == old(flow.session.closeCount)
      ensures r != Err(MfaError) ==> flow.session.closeCount == old(flow.session.closeCount) + 1
      ensures r.Err? ==> accessToken == old(accessToken) && refreshToken == old(refreshToken)
      ensures r.Ok? ==> accessToken == Some(r.value.0) && refreshToken == Some(r.value.1)
    {
      r := RunAuthSteps8To13(flow, mfaCode);
      if r == Err(MfaError) {
        return;
      }
      flow.session.Close();
      if r.Ok? {
        accessToken := Some(r.value.0);
        refreshToken := Some(r.value.1);
      }
    }

    /** `async_refresh_token`: the refresh grant on the shared session. */
    method RefreshTokens() returns (r: Result<(string, string)>)
      modifies net, this
      ensures var x := Refresh(old(net.State()), session.IsOpen(), session, clientId, old(accessToken), old(refreshToken));
        net.State() == x.wire && r == x.result && accessToken == x.accessToken && refreshToken == x.refreshToken
    {
      if refreshToken.None? || refreshToken.value == "" {
        return Err(AuthError);
      }
      var result := ApiWrapper(Request(session, RefreshGrant(clientId, refreshToken.value)), true, true);
      if result.Err? {
        return Err(result.error);
      }
      var access :- TokenField(result.value.doc, "access_token");
      accessToken := Some(access);
      var refresh :- TokenField(result.value.doc, "refresh_token");
      refreshToken := Some(refresh);
      r := Ok((access, refresh));
    }

    /** `async_get_prices`: the price query on the shared session with the current access token. */
    method GetPrices(customerNumber: string) returns (r: Result<Json>)
      modifies net
      ensures var x := Prices(old(net.State()), session.IsOpen(), session, customerNumber, accessToken);
        net.State() == x.wire && r == x.result
    {
      var result := ApiWrapper(Request(session, PriceQuery(customerNumber, accessToken)), true, true);
      if result.Err? {
        return Err(result.error);
      }
      r := Ok(result.value.doc);
    }
  }
}
