/**
 * The HTTP calls the API client makes. A call is named by its endpoint and the
 * values it carries; its verb, host, path, query parameters, form body and header
 * set are functions of it, exactly as the client writes them out. Every call goes
 * through `_api_wrapper`, whose `allow_redirects` defaults to False and is never
 * set otherwise, so no call follows redirects.
 */
module Endpoints {
  import opened Common
  import Const
  import opened Pkce

  datatype Method = GET | POST
  datatype Host = AuthHost | ApiHost   // AUTH_BASE_URL, API_BASE_URL

  /** The header sets the client sends: `_BROWSER_HEADERS`, the token endpoint's
      (JSON accepted, form-encoded body, native user agent) and the price API's. */
  datatype Headers = BrowserHeaders | TokenEndpointHeaders | PriceHeaders(authorization: string)

  /** The login pages that are loaded with a GET carrying a state. */
  datatype Page = IdentifierPage | PasswordPage | SmsChallengePage | PasskeyPage

  /** The names of the query and form fields the client sends. */
  datatype Field =
    | State | UiLocales | RedirectUri | ClientId | ResponseType | Nonce | Scope
    | CodeChallenge | CodeChallengeMethod | Audience | AppScheme | CancelRedirect
    | AllowPasskeys | Username | Password | JsAvailable | WebauthnAvailable | IsBrave
    | WebauthnPlatformAvailable | UlpRememberMePresent | UlpRememberMe
    | Code | Action | GrantType | CodeVerifier | RefreshToken | MaxGranularity

  /** Each field as it is spelled on the wire. */
  function FieldName(f: Field): string {
    match f
    case State => "state"
    case UiLocales => "ui_locales"
    case RedirectUri => "redirect_uri"
    case ClientId => "client_id"
    case ResponseType => "response_type"
    case Nonce => "nonce"
    case Scope => "scope"
    case CodeChallenge => "code_challenge"
    case CodeChallengeMethod => "code_challenge_method"
    case Audience => "audience"
    case AppScheme => "app_scheme"
    case CancelRedirect => "cancel_redirect"
    case AllowPasskeys => "allow-passkeys"
    case Username => "username"
    case Password => "password"
    case JsAvailable => "js-available"
    case WebauthnAvailable => "webauthn-available"
    case IsBrave => "is-brave"
    case WebauthnPlatformAvailable => "webauthn-platform-available"
    case UlpRememberMePresent => "ulp-remember-me-present"
    case UlpRememberMe => "ulp-remember-me"
    case Code => "code"
    case Action => "action"
    case GrantType => "grant_type"
    case CodeVerifier => "code_verifier"
    case RefreshToken => "refresh_token"
    case MaxGranularity => "maxGranularity"
  }

  datatype Call =
    | Authorize(clientId: string, pk: Pkce)                        // step 1
    | LoadPage(page: Page, state: string)                          // steps 2, 4, 7 and 10
    | SubmitIdentifier(state: string, username: string)            // step 3
    | SubmitPassword(state: string, username: string, password: string)   // step 5
    | Resume(state: string)                                        // steps 6, 9 and 12
    | SubmitMfaCode(state: string, code: string)                   // step 8
    | AbortPasskey(state: string)                                  // step 11
    | ExchangeCode(clientId: string, code: string, verifier: string)     // step 13
    | RefreshGrant(clientId: string, refreshToken: string)         // async_refresh_token
    | PriceQuery(customerNumber: string, accessToken: Option<string>)    // async_get_prices

  function PagePath(p: Page): string {
    match p
    case IdentifierPage => "/u/login/identifier"
    case PasswordPage => "/u/login/password"
    case SmsChallengePage => "/u/mfa-sms-challenge"
    case PasskeyPage => "/u/passkey-enrollment"
  }

  function Verb(c: Call): Method {
    if c.Authorize? || c.LoadPage? || c.Resume? || c.PriceQuery? then GET else POST
  }

  function HostOf(c: Call): Host {
    if c.PriceQuery? then ApiHost else AuthHost
  }

  function Path(c: Call): string {
    match c
    case Authorize(_, _) => "/authorize"
    case LoadPage(p, _) => PagePath(p)
    case SubmitIdentifier(_, _) => "/u/login/identifier"
    case SubmitPassword(_, _, _) => "/u/login/password"
    case Resume(_) => "/authorize/resume"
    case SubmitMfaCode(_, _) => "/u/mfa-sms-challenge"
    case AbortPasskey(_) => "/u/passkey-enrollment"
    case ExchangeCode(_, _, _) => "/oauth/token"
    case RefreshGrant(_, _) => "/oauth/token"
    case PriceQuery(customer, _) => "/business-agreements/" + customer + "/supplier-energy-prices"
  }

  /** The query of the login pages: the state, and Dutch as the UI locale. */
  function StateParams(state: string): map<Field, string> {
    map[State := state, UiLocales := "nl"]
  }

  /** The query parameters. */
  function Params(c: Call): map<Field, string> {
    match c
    case Authorize(clientId, pk) => map[
      RedirectUri := Const.RedirectUri,
      ClientId := clientId,
      ResponseType := "code",
      UiLocales := "nl",
      State := pk.state,
      Nonce := pk.nonce,
      Scope := Const.OauthScopes,
      CodeChallenge := pk.codeChallenge,
      CodeChallengeMethod := "S256",
      Audience := Const.OauthAudience,
      AppScheme := "be-engie-smart",
      CancelRedirect := "be-engie-smart://cancel-registration-redirect"]
    case LoadPage(_, state) => StateParams(state)
    case SubmitIdentifier(state, _) => StateParams(state)
    case SubmitPassword(state, _, _) => StateParams(state)
    case Resume(state) => map[State := state]
    case SubmitMfaCode(state, _) => StateParams(state)
    case AbortPasskey(state) => StateParams(state)
    case ExchangeCode(_, _, _) => map[]
    case RefreshGrant(_, _) => map[]
    case PriceQuery(_, _) => map[MaxGranularity := "MONTHLY"]
  }

  /** The form-encoded body (`data=`); empty for the calls that send none. */
  function Form(c: Call): map<Field, string> {
    match c
    case SubmitIdentifier(state, username) => map[
      State := state,
      AllowPasskeys := "true",
      Username := username,
      JsAvailable := "true",
      WebauthnAvailable := "true",
      IsBrave := "false",
      WebauthnPlatformAvailable := "true",
      UlpRememberMePresent := "true",
      UlpRememberMe := "on"]
    case SubmitPassword(state, username, password) => map[
      State := state,
      Username := username,
      Password := password,
      JsAvailable := "true",
      WebauthnAvailable := "true",
      IsBrave := "false",
      WebauthnPlatformAvailable := "true"]
    case SubmitMfaCode(state, code) => map[State := state, Code := code]
    case AbortPasskey(state) => map[State := state, Action := "abort-passkey-enrollment"]
    case ExchangeCode(clientId, code, verifier) => map[
      Code := code,
      GrantType := "authorization_code",
      RedirectUri := Const.RedirectUri,
      CodeVerifier := verifier,
      ClientId := clientId]
    case RefreshGrant(clientId, refreshToken) => map[
      RefreshToken := refreshToken,
      Audience := Const.OauthAudience,
      GrantType := "refresh_token",
      Scope := Const.OauthScopes,
      RedirectUri := Const.RedirectUri,
      ClientId := clientId]
    case _ => map[]
  }

  /** `f"Bearer {self.access_token}"`: a missing token is rendered as Python renders None. */
  function BearerHeader(accessToken: Option<string>): string {
    "Bearer " + match accessToken { case Some(t) => t case None => "None" }
  }

  function HeadersOf(c: Call): Headers {
    match c
    case ExchangeCode(_, _, _) => TokenEndpointHeaders
    case RefreshGrant(_, _) => TokenEndpointHeaders
    case PriceQuery(_, accessToken) => PriceHeaders(BearerHeader(accessToken))
    case _ => BrowserHeaders
  }

  /** The login and token calls go to the login host, the price query to the API host;
      the two token grants share the token endpoint and its headers and send no query;
      the price query's path embeds the customer number and it sends the access token
      as a bearer credential; the password travels only in step 5's form. */
  lemma CallShapes(c: Call)
    ensures HostOf(c) == AuthHost <==> !c.PriceQuery?
    ensures c.ExchangeCode? || c.RefreshGrant? ==>
      Path(c) == "/oauth/token" && Verb(c) == POST && Params(c) == map[] && HeadersOf(c) == TokenEndpointHeaders
    ensures c.ExchangeCode? ==> Form(c)[GrantType] == "authorization_code" && Form(c)[CodeVerifier] == c.verifier
    ensures c.RefreshGrant? ==> Form(c)[GrantType] == "refresh_token" && Form(c)[RefreshToken] == c.refreshToken
    ensures c.PriceQuery? ==>
      && StartsWith(Path(c), "/business-agreements/" + c.customerNumber)
      && HeadersOf(c) == PriceHeaders(BearerHeader(c.accessToken))
      && (c.accessToken.Some? ==> BearerHeader(c.accessToken) == "Bearer " + c.accessToken.value)
    ensures Password in Form(c) <==> c.SubmitPassword?
    ensures c.SubmitPassword? ==> Form(c)[Password] == c.password
  {
    if c.PriceQuery? {
      var p := "/business-agreements/" + c.customerNumber;
      assert Path(c) == p + "/supplier-energy-prices";
      assert Path(c)[..|p|] == p;
    }
  }
}
