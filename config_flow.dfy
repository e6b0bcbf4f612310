/**
 * `EngieBeFlowHandler`, the setup wizard: the user step that starts the login and
 * routes to the code entry step, and the shared code entry step that completes the
 * login, maps exceptions to error keys, keeps or clears the pending flow state and
 * builds the new entry's data. Form schemas and selectors are not modelled: a form
 * is its step and its error key.
 */
module ConfigFlow {
  import opened Common
  import opened Const
  import opened Transport
  import opened Pkce
  import opened AuthProtocol
  import opened Api

  /** The steps whose form the wizard can show. */
  datatype StepId = UserStep | MfaSmsStep | MfaEmailStep

  /** What a step returns: a form with its `errors["base"]` (None for no error), a new
      entry, an abort, or an exception the step does not catch. `Escapes(e)` is an error
      of the client that no `except` clause of the step names: the token lookup error,
      which in Python is the KeyError of a token response lacking a token or the
      TypeError of one that is not a dictionary (a JSON `null`). `CallTypeError` is the
      TypeError Python raises for a call with a keyword the callee does not declare. */
  datatype FlowResult =
    | ShowForm(step: StepId, error: Option<string>)
    | CreateEntry(title: string, data: map<string, string>)
    | Abort(reason: string)
    | Escapes(uncaught: ApiError)
    | CallTypeError

  /** The user step's input. The schema makes every field required; the client id and the
      MFA method are still read with `.get`, so they may be absent. */
  datatype UserInput = UserInput(username: string, password: string, customerNumber: string,
                                 clientId: Option<string>, mfaMethod: Option<string>)

  /** `user_input.get(CONF_CLIENT_ID, DEFAULT_CLIENT_ID)` */
  function ClientIdOf(u: UserInput): string {
    u.clientId.GetOr(DefaultClientId)
  }

  /** The user step's error key for a failed start. */
  function UserErrorKey(e: ApiError): (key: string)
    requires IsClientError(e)
    ensures key in {"auth", "connection", "unknown"}
    ensures key == "auth" <==> e == AuthError
    ensures key == "connection" <==> e == CommError
  {
    if e == AuthError then "auth" else if e == CommError then "connection" else "unknown"
  }

  /** The code step's error key: the MFA error is caught first, then as in the user step. */
  function MfaErrorKey(e: ApiError): (key: string)
    requires IsClientError(e)
    ensures key == "invalid_mfa_code" <==> e == MfaError
    ensures e != MfaError ==> key == UserErrorKey(e)
  {
    if e == MfaError then "invalid_mfa_code" else UserErrorKey(e)
  }

  /** Where the user step goes once the login was started: the code entry step of the
      chosen method, SMS unless "email" was chosen, showing its form without error. */
  function MfaStepOf(u: UserInput): StepId {
    if u.mfaMethod.GetOr(MfaMethodSms) == MfaMethodEmail then MfaEmailStep else MfaSmsStep
  }

  /** The user step's result once it has called the start of the login. */
  function UserStepResult(started: Result<AuthFlowState>, u: UserInput): FlowResult
    requires started.Err? ==> IsClientError(started.error)
  {
    if started.Err? then ShowForm(UserStep, Some(UserErrorKey(started.error)))
    else ShowForm(MfaStepOf(u), None)
  }

  /** The new entry's data: the credentials and customer number of the user step, the
      client id (defaulted) and the token pair. */
  function EntryData(u: UserInput, accessToken: string, refreshToken: string): map<string, string> {
    map[ConfUsername := u.username, ConfPassword := u.password, ConfCustomerNumber := u.customerNumber,
        ConfClientId := ClientIdOf(u), ConfAccessToken := accessToken, ConfRefreshToken := refreshToken]
  }

  /** The code step's result once it has called the completion of the login. A token
      lookup failure is not one of the client's errors and escapes the step. */
  function MfaStepResult(completed: Result<(string, string)>, step: StepId, u: UserInput, alreadyConfigured: bool): FlowResult {
    match completed
    case Ok((accessToken, refreshToken)) =>
      if alreadyConfigured then Abort("already_configured")
      else CreateEntry(u.username, EntryData(u, accessToken, refreshToken))
    case Err(e) =>
      if e == TokenLookupError then Escapes(e) else ShowForm(step, Some(MfaErrorKey(e)))
  }

  /** The failed start shows the user form again with the error's key: "auth",
      "connection" or "unknown"; a started login goes to the email code step exactly when
      "email" was chosen, and to the SMS code step otherwise. */
  lemma UserStepResultSpec(started: Result<AuthFlowState>, u: UserInput)
    requires started.Err? ==> IsClientError(started.error)
    ensures var res := UserStepResult(started, u);
      && (started.Err? ==> res == ShowForm(UserStep, Some(UserErrorKey(started.error)))
                           && res.error.value in {"auth", "connection", "unknown"})
      && (started.Ok? ==> res.ShowForm? && res.error.None?
                          && (res.step == MfaEmailStep <==> u.mfaMethod == Some(MfaMethodEmail))
                          && (u.mfaMethod != Some(MfaMethodEmail) ==> res.step == MfaSmsStep))
  {
  }

  /** A completed login creates an entry titled with the username whose data holds
      exactly the six keys, the user's values and the returned pair (unless the account
      is already configured); a failed one re-shows the code form with its error key. */
  lemma MfaStepResultSpec(completed: Result<(string, string)>, step: StepId, u: UserInput, alreadyConfigured: bool)
    ensures var res := MfaStepResult(completed, step, u, alreadyConfigured);
      && (completed.Ok? && !alreadyConfigured ==>
            && res == CreateEntry(u.username, res.data)
            && res.data.Keys == {ConfUsername, ConfPassword, ConfCustomerNumber, ConfClientId, ConfAccessToken, ConfRefreshToken}
            && res.data[ConfUsername] == u.username && res.data[ConfPassword] == u.password
            && res.data[ConfCustomerNumber] == u.customerNumber && res.data[ConfClientId] == ClientIdOf(u)
            && res.data[ConfAccessToken] == completed.value.0 && res.data[ConfRefreshToken] == completed.value.1)
      && (completed.Err? && IsClientError(completed.error) ==>
            res == ShowForm(step, Some(MfaErrorKey(completed.error))))
      && (completed == Err(MfaError) ==> res == ShowForm(step, Some("invalid_mfa_code")))
      && (completed.Ok? && alreadyConfigured ==> res == Abort("already_configured"))
      && (completed == Err(TokenLookupError) ==> res == Escapes(TokenLookupError))
  {
  }

  /** The flow handler: the last user input, the pending login and the client. */
  class FlowHandler {
    /** The shared Home Assistant session and the network behind it. */
    const net: Network
    const haSession: Session
    /** `_user_input`: None while it is still the initial empty dict. */
    var userInput: Option<UserInput>
    var authFlowState: Option<AuthFlowState>
    var client: Client?

    /** A pending login comes with the client that started it and the input it started from. */
    ghost predicate Valid()
      reads this, client
    {
      && (authFlowState.Some? ==> client != null && userInput.Some?)
      && (client != null ==> client.net == net && client.session == haSession)
    }

    constructor (net: Network, haSession: Session)
      ensures this.net == net && this.haSession == haSession
      ensures userInput.None? && authFlowState.None? && client == null
      ensures Valid()
    {
      this.net := net;
      this.haSession := haSession;
      userInput := None;
      authFlowState := None;
      client := null;
    }

    /** `async_step_user`. Without input it shows the form. With input it keeps the input,
        makes a client and starts the login, drawing the PKCE values from entropy and
        sha256; on success it stores the flow state and shows the chosen code form, on an
        error it shows the user form with the error key and leaves the flow state as it
        was. The start's result and its session are returned as ghost values. */
    method StepUser(input: Option<UserInput>, entropy: Entropy, sha256: seq<byte> -> seq<byte>)
      returns (res: FlowResult, ghost started: Result<AuthFlowState>, ghost authSession: Session)
      requires Valid()
      modifies this, net
      ensures Valid()
      ensures input.None? ==> res == ShowForm(UserStep, None) && net.State() == old(net.State())
      ensures input.None? ==> userInput == old(userInput) && authFlowState == old(authFlowState) && client == old(client)
      ensures input.Some? ==>
        && userInput == input && client != null && fresh(client)
        && client.clientId == ClientIdOf(input.value) && client.accessToken.None? && client.refreshToken.None?
        && Phase1Done(old(net.State()), net.State(), started, authSession, client.clientId,
                      input.value.username, input.value.password, GeneratePkce(entropy, sha256))
        && (started.Err? ==> IsClientError(started.error))
        && res == UserStepResult(started, input.value)
        && authFlowState == (if started.Ok? then Some(started.value) else old(authFlowState))
        && (started.Ok? ==> started.value.session == authSession && fresh(authSession) && authSession.IsOpen())
    {
      started := Err(ClientError);
      authSession := haSession;
      if input.Some? {
        userInput := input;
        var c := new Client(net, haSession, ClientIdOf(input.value), None, None);
        client := c;
        ghost var w := net.State();
        var r;
        r, authSession := c.StartAuthentication(entropy, sha256, input.value.username, input.value.password);
        started := r;
        Phase1Errors(w, net.State(), r, authSession, c.clientId, input.value.username, input.value.password, GeneratePkce(entropy, sha256));
        if r.Err? {
          return ShowForm(UserStep, Some(UserErrorKey(r.error))), started, authSession;
        }
        authFlowState := Some(r.value);
        var step := MfaStepOf(input.value);
        ghost var noCode;
        res, noCode := HandleMfaStep(step, None, false);
        return;
      }
      res := ShowForm(UserStep, None);
    }

    /** `_handle_mfa_step`. The login is completed only when a code was entered and a
        login is pending; otherwise the code form is shown without error. A completed
        login clears the pending flow state; every error keeps it, the MFA error with its
        session still open and the others with it closed. Whether the account is already
        configured is a parameter. The completion's result is returned as a ghost value. */
    method HandleMfaStep(step: StepId, code: Option<string>, alreadyConfigured: bool)
      returns (res: FlowResult, ghost completed: Option<Result<(string, string)>>)
      requires Valid()
      modifies this, net, client, if authFlowState.Some? then {authFlowState.value.session} else {}
      ensures Valid()
      ensures userInput == old(userInput) && client == old(client)
      ensures completed.None? <==> code.None? || old(authFlowState).None?
      ensures completed.None? ==>
        && res == ShowForm(step, None) && authFlowState == old(authFlowState) && net.State() == old(net.State())
        && (client != null ==> unchanged(client))
        && (old(authFlowState).Some? ==> unchanged(old(authFlowState).value.session))
      ensures completed.Some? ==>
        && Phase2Done(old(net.State()), net.State(), completed.value, old(authFlowState.value.session.IsOpen()),
                      client.clientId, old(authFlowState).value, code.value)
        && res == MfaStepResult(completed.value, step, userInput.value, alreadyConfigured)
        && authFlowState == (if completed.value.Ok? then None else old(authFlowState))
        && (completed.value == Err(MfaError) ==>
              old(authFlowState).value.session.closeCount == old(authFlowState.value.session.closeCount))
        && (completed.value != Err(MfaError) ==>
              old(authFlowState).value.session.closeCount == old(authFlowState.value.session.closeCount) + 1)
        && (completed.value.Ok? ==>
              client.accessToken == Some(completed.value.value.0) && client.refreshToken == Some(completed.value.value.1))
        && (completed.value.Err? ==>
              client.accessToken == old(client.accessToken) && client.refreshToken == old(client.refreshToken))
    {
      completed := None;
      if code.Some? && authFlowState.Some? {
        var r := client.CompleteAuthentication(authFlowState.value, code.value);
        completed := Some(r);
        match r
        case Err(e) =>
          if e == TokenLookupError {
            return Escapes(e), completed;
          }
          return ShowForm(step, Some(MfaErrorKey(e))), completed;
        case Ok((accessToken, refreshToken)) =>
          authFlowState := None;
          if alreadyConfigured {
            return Abort("already_configured"), completed;
          }
          return CreateEntry(userInput.value.username, EntryData(userInput.value, accessToken, refreshToken)), completed;
      }
      res := ShowForm(step, None);
    }
  }

  /** After a failure other than the MFA error the flow state stays pending although its
      session was closed: entering a code again sends nothing and shows "unknown". */
  lemma StaleFlowResubmission(w: Wire, w': Wire, r: Result<(string, string)>, clientId: string,
                              flow: AuthFlowState, code: string, step: StepId, u: UserInput, alreadyConfigured: bool)
    requires Phase2Done(w, w', r, false, clientId, flow, code)
    ensures w' == w
    ensures MfaStepResult(r, step, u, alreadyConfigured) == ShowForm(step, Some("unknown"))
  {
  }

  // ---------------------------------------------------------------------
  // The calls as written
  // ---------------------------------------------------------------------

  /** Python rejects a call that passes a keyword argument the callee does not declare:
      it raises TypeError before the callee runs. */
  predicate RaisesTypeError(passed: set<string>, declared: set<string>) {
    !(passed <= declared)
  }

  /** The keywords `async_step_user` passes to `async_start_authentication` and the
      parameters that method declares; likewise for the code step and
      `async_complete_authentication`. */
  const StartKeywordsPassed: set<string> := {"username", "password", "mfa_method"}
  const StartParametersDeclared: set<string> := {"username", "password"}
  const CompleteKeywordsPassed: set<string> := {"flow_state", "mfa_code", "mfa_method"}
  const CompleteParametersDeclared: set<string> := {"flow_state", "mfa_code"}

  /** `async_step_user` with input, as written: the start call raises TypeError, which none
      of the step's `except` clauses catches, before the start runs; only a signature
      that declared `mfa_method` would lead to the result of the start. */
  function UserStepAsWritten(started: Result<AuthFlowState>, u: UserInput): FlowResult
    requires started.Err? ==> IsClientError(started.error)
  {
    if RaisesTypeError(StartKeywordsPassed, StartParametersDeclared) then CallTypeError
    else UserStepResult(started, u)
  }

  /** `_handle_mfa_step` with a code and a pending login, as written: likewise for the
      completion call. */
  function MfaStepAsWritten(completed: Result<(string, string)>, step: StepId, u: UserInput, alreadyConfigured: bool): FlowResult {
    if RaisesTypeError(CompleteKeywordsPassed, CompleteParametersDeclared) then CallTypeError
    else MfaStepResult(completed, step, u, alreadyConfigured)
  }

  /** As written, no submission of the user step reaches a code step and no code
      submission completes the login, whatever the start or the completion would have
      returned: both calls raise TypeError on the `mfa_method` keyword. */
  lemma CallsAsWrittenRaise(started: Result<AuthFlowState>, completed: Result<(string, string)>,
                            step: StepId, u: UserInput, alreadyConfigured: bool)
    requires started.Err? ==> IsClientError(started.error)
    ensures UserStepAsWritten(started, u) == CallTypeError
    ensures MfaStepAsWritten(completed, step, u, alreadyConfigured) == CallTypeError
  {
    assert "mfa_method" in StartKeywordsPassed && "mfa_method" !in StartParametersDeclared;
    assert "mfa_method" in CompleteKeywordsPassed && "mfa_method" !in CompleteParametersDeclared;
  }
}
