# ENGIE Belgium integration for Home Assistant — a verified model

This project models the core of the `engie_be` custom integration:

- **The API client** (`EngieBeApiClient`). It logs in to ENGIE's identity provider with a 13-step OAuth2 authorization-code flow.
  - The flow uses PKCE with the S256 method of section 4.2 of RFC 7636.
  - An SMS code is entered between steps 7 and 8.
  - Pages are scraped for `state=` and `code=` tokens.
  - The client rotates its token pair with the refresh grant of section 6 of RFC 6749.
  - It fetches the customer's energy prices.
  - Every request goes through `_api_wrapper`, which maps HTTP statuses and exceptions onto the client's authentication, communication and base errors.
  - The MFA error is raised by step 8 itself, when the page answering the code holds no new state.
- **Price selection and sensor derivation.** This covers:
  - picking today's price entry;
  - detecting gas or electricity from the EAN prefix;
  - emitting the 0, 2 or 4 price sensors of a metering point;
  - reading a sensor's value and attributes.
- **The setup wizard** (`EngieBeFlowHandler`). The user step starts the login and the code step completes it. The wizard maps errors to form keys, keeps or clears the pending login, and builds the new entry's data.
- **The token-health lifecycle** of `async_setup_entry`:
  - an initial refresh, then one refresh every 60 seconds;
  - the `authenticated` flag;
  - persisting the new pair into the entry;
  - a coordinator notification on each tick.

## How the model is set up

- **The network** (`Transport`) is a script of outcomes: a reply with status, body text and JSON, a timeout, or a network error.
  - A `Network` object answers the requests one by one and keeps a ghost log of every request sent.
  - An exhausted script answers with a network error.
- **An aiohttp session** is a `Session` object that counts its `close()` calls.
  - A request on a closed session raises before anything is sent.
  - `_api_wrapper` turns that into the base error.
- **Each login phase** has two halves.
  - The imperative half is a method on `Api.Client`: `RunAuthSteps1To7` and `RunAuthSteps8To13`.
  - The other half is a specification over wire values (`AuthProtocol`), with a `Plan` saying which request each step sends.
  - `StepVerdict` says whether a step fails and how.
  - The methods are proved to take the network from one state to the state `Phase1Done` or `Phase2Done` describes. Lemmas then state what that means.
- **A token lookup** such as `token_result["access_token"]` is modelled as `TokenLookupError`.
  - It runs outside `_api_wrapper`, so a missing key raises `KeyError`, and a response that is not a dictionary `TypeError`, rather than one of the client's errors.
  - `async_complete_authentication` catches it only to close the flow's session, and then raises it again (api.py:181-183).
  - No `except` clause of the wizard, the setup or the refresh tick names it, so it escapes them: the wizard's `Escapes(TokenLookupError)`, the integration's uncaught error.
- **Calls** (`Endpoints`) are values. Verb, host, path, query, form and header set are functions of a call.
- **Dates** are day numbers, and `today` is a parameter.
- **Random bytes and SHA-256** are parameters of `GeneratePkce`.

## Model

| member | source | states |
|---|---|---|
| Pkce.EncodeBareUrlSafe | custom_components/engie_be/api.py:81-83 | every character of the unpadded encoding is a letter, a digit, `-` or `_`, so it holds no `=` |
| Pkce.Base64Url | custom_components/engie_be/api.py:81-83 | stripping `=` from the padded URL-safe encoding leaves exactly the unpadded encoding of the groups |
| Pkce.Base64UrlLength | custom_components/engie_be/api.py:81-83 | n bytes encode to ⌊(4n+2)/3⌋ characters, so 32 bytes give 43 |
| Pkce.DecodeBase64Url | custom_components/engie_be/api.py:81-83 | decoding inverts `_base64url` for every byte string |
| Pkce.Hex | custom_components/engie_be/api.py:92-93 | hex text is two lower-case hex digits per byte |
| Pkce.HexNibbles | custom_components/engie_be/api.py:92-93 | byte i is written at positions 2i and 2i+1, high nibble first |
| Pkce.DecodeHex | custom_components/engie_be/api.py:92-93 | the hex text of bytes reads back as exactly those bytes |
| Pkce.GeneratePkceSpec | custom_components/engie_be/api.py:86-96 | state and nonce are lower-case hex that reads back as their random bytes; the verifier is ASCII, `=`-free and decodes back to its random bytes; the challenge is `=`-free and decodes to SHA-256 of the verifier's ASCII bytes |
| Scrape.ExtractFromBodyNone | custom_components/engie_be/api.py:99-102 | no result exactly when the key occurs nowhere followed by a token character |
| Scrape.ExtractFromBodyLeftmost | custom_components/engie_be/api.py:99-102 | a result is the maximal `[A-Za-z0-9_-]` run after the leftmost match (group 1 of the first match) |
| Scrape.ExtractFromBodyToken | custom_components/engie_be/api.py:99-102 | a result is non-empty and drawn only from `[A-Za-z0-9_-]` |
| Scrape.ExtractExample | custom_components/engie_be/api.py:296-299 | `state=abc123"` yields `abc123`; `<p>state=</p>` yields nothing |
| Endpoints.CallShapes | custom_components/engie_be/api.py:194-258 | login and token calls go to the login host, the price query to the API host; both token grants POST to `/oauth/token` with no query, the exchange sending `authorization_code` and the verifier, the refresh `refresh_token` and the refresh token; the price path starts with `/business-agreements/` and the customer number and sends `Bearer` and the access token; only the password submission carries a password |
| Transport.ClassifySpec | custom_components/engie_be/api.py:558-593 | with `raise_on_error`, 401/403 is the authentication error and any other status from 400 up the communication error; a timeout or network error is the communication error; a non-JSON content type is the communication error and an undecodable body the base error; without `raise_on_error` the body comes back whatever the status; no other error arises |
| Transport.Network.Send | custom_components/engie_be/api.py:560-567 | an open session's request is logged and answered by the next scripted outcome; a closed one's raises and changes nothing |
| Transport.Session.Close | custom_components/engie_be/api.py:182-185 | closing counts one more close |
| Api.Client.ApiWrapper | custom_components/engie_be/api.py:538-593 | one request sent and classified as `Classify` says |
| Api.Client.LoginStep | custom_components/engie_be/api.py:288-526 | a page step fails exactly when its verdict says so, with that error; a scraping step returns the scraped token; the wire advances by this one request |
| Api.Client.RunAuthSteps1To7 | custom_components/engie_be/api.py:264-405 | the seven steps leave the wire and result that `Phase1Done` describes |
| AuthProtocol.Phase1Outcome | custom_components/engie_be/api.py:264-405 | success exactly when no step fails, having sent all seven requests in order and returning the session, the states scraped at steps 1, 5 and 6 and the verifier; otherwise the error of the first failing step, with nothing sent after that step's request |
| AuthProtocol.Phase1Errors | custom_components/engie_be/api.py:296-405 | steps 1-7 raise only the authentication, communication or base error |
| AuthProtocol.Phase1Routing | custom_components/engie_be/api.py:288-396 | every phase-1 request goes on the attempt's own session to the login host |
| AuthProtocol.Phase1States | custom_components/engie_be/api.py:288-396 | step 1 carries the PKCE state; steps 2-5 `authorize_state`; step 6 only `login_state`; step 7 `sms_challenge_state` |
| AuthProtocol.Phase1PasswordOnce | custom_components/engie_be/api.py:347-362 | the password is in step 5's form and in no other step's |
| AuthProtocol.Phase1VerifierWithheld | custom_components/engie_be/api.py:271-294 | no phase-1 request carries the code verifier; step 1 carries its challenge with method `S256` |
| Api.Client.StartAuthentication | custom_components/engie_be/api.py:137-154 | a fresh session for the attempt; on success it is still open and is the flow state's session; on failure it was closed exactly once |
| Api.Client.ExchangeStep | custom_components/engie_be/api.py:507-532 | step 13's result is the token pair of the JSON reply, or the first error; access token read before refresh token |
| Api.Client.RunAuthSteps8To13 | custom_components/engie_be/api.py:407-532 | on a closed session the base error with nothing sent; otherwise the six steps leave what `Phase2Done` describes |
| AuthProtocol.Phase2Outcome | custom_components/engie_be/api.py:407-532 | a closed session gives the base error and sends nothing; on an open one, success exactly when no step fails, having sent all six requests and returning step 13's pair; otherwise the error of the first failing step, with nothing sent after that step's request; an MFA error means only the code submission was sent |
| AuthProtocol.CodeRejectedIsMfaError | custom_components/engie_be/api.py:415-440 | whatever its status, a reply to the code submission without a new state ends the completion with the MFA error after that one request; a reply with one lets it go on past step 8 |
| AuthProtocol.MfaErrorOnlyFromCodeSubmission | custom_components/engie_be/api.py:437-529 | steps 9-13 never raise the MFA error |
| AuthProtocol.Phase2Routing | custom_components/engie_be/api.py:415-526 | every phase-2 request goes on the flow's session to the login host |
| AuthProtocol.Phase2States | custom_components/engie_be/api.py:415-498 | step 8 carries `sms_challenge_state`; steps 9 and 12 are the same request with `login_state` as their whole query; steps 10 and 11 carry `passkey_state` |
| AuthProtocol.Phase2Secrets | custom_components/engie_be/api.py:415-526 | the MFA code is only in step 8's form; step 13 sends the scraped code and the flow's verifier; no other step carries a code |
| Api.Client.CompleteAuthentication | custom_components/engie_be/api.py:161-188 | an MFA error leaves the session's close count and the client's tokens unchanged; any other error closes the session once and leaves the tokens; success closes it once and stores the returned pair |
| AuthProtocol.TokenField | custom_components/engie_be/api.py:228-229 | a lookup succeeds exactly when the document is an object with a string under the key, and yields that string; otherwise it raises outside the client's errors |
| AuthProtocol.TokenPair | custom_components/engie_be/api.py:528-532 | the pair is both lookups' values, or the lookup error |
| AuthProtocol.Refresh | custom_components/engie_be/api.py:194-230 | without a truthy refresh token, the authentication error and no request; otherwise one refresh grant with the current refresh token; success sets both tokens to the returned pair; on error the refresh token is unchanged, and so is the access token unless a token lookup failed |
| Api.Client.RefreshTokens | custom_components/engie_be/api.py:194-230 | the client's wire, result and token fields become those of `Refresh` |
| AuthProtocol.RefreshOutcome | custom_components/engie_be/api.py:194-230 | one refresh grant sent on an open session; success exactly when the reply is below 400 and is a JSON object with both tokens, whose pair is then the result; a closed session gives the base error; the access token changes only on success, or when the reply's `access_token` was read and stored before the `refresh_token` lookup failed |
| AuthProtocol.ConsecutiveRefreshes | custom_components/engie_be/api.py:201-229 | after a successful refresh, the next one sends the refresh token that the first received; if that token is empty, the next one fails with the authentication error without a request |
| Api.Client.GetPrices | custom_components/engie_be/api.py:236-258 | the wire and result of `Prices` |
| AuthProtocol.PricesOutcome | custom_components/engie_be/api.py:236-258 | one price query with the current access token; on an open session the result is the document of a reply below 400 with JSON content; 401/403 gives the authentication error; a closed session gives the base error and sends nothing |
| Sensor.DetectEnergyTypeSpec | custom_components/engie_be/sensor.py:29-35 | the two prefixes exclude each other; gas prefix gives "Gas", electricity prefix "Electricity", anything else the EAN itself |
| Sensor.FirstCoveringSpec | custom_components/engie_be/sensor.py:41-45 | the search returns the first index from i on whose `[from, to)` covers today, or none exactly when there is none |
| Sensor.CurrentPriceSpec | custom_components/engie_be/sensor.py:38-47 | none exactly for an empty list; the first covering entry when there is one; the last entry otherwise |
| Sensor.FindCurrentPrice | custom_components/engie_be/sensor.py:38-47 | the loop with early return computes `CurrentPrice` |
| Sensor.EanShortSpec | custom_components/engie_be/sensor.py:66 | the short EAN is a prefix without `_`; it is the whole EAN exactly when the EAN has no `_`, and otherwise the EAN continues with `_` |
| Sensor.Descriptor.ValueKey | custom_components/engie_be/sensor.py:87-88 | a value key is `direction.field` with one dot, and splitting it gives back the sensor's direction and field |
| Sensor.SplitJoin | custom_components/engie_be/sensor.py:224-225 | splitting `direction + "." + field` at its first dot gives back the two parts |
| Sensor.SensorsForShape | custom_components/engie_be/sensor.py:68-136 | no sensors without a current price; otherwise the offtake pair (price, then excl. VAT) exactly when the current entry's offtake list is non-empty, then the injection pair exactly when its injection list is; every sensor carries the item's EAN, short EAN and energy type |
| Sensor.DescriptorKeys | custom_components/engie_be/sensor.py:80-84 | a key starts with the short EAN and `_`; distinct sensors of one item have distinct keys |
| Sensor.BuildSensorDescriptions | custom_components/engie_be/sensor.py:50-138 | the loop computes `AllSensors`, item by item |
| Sensor.AllSensorsProvenance | custom_components/engie_be/sensor.py:50-138 | at most four sensors per item; every sensor's EAN is one item's EAN (or "unknown"), and its short EAN and energy type are derived from it |
| Sensor.FirstItemWith | custom_components/engie_be/sensor.py:213-215 | a found index holds an item with the given EAN |
| Sensor.FirstItemWithSpec | custom_components/engie_be/sensor.py:213-215 | the search finds the first item with the sensor's EAN, and finds none exactly when no item has it |
| Sensor.CurrentPriceEntrySpec | custom_components/engie_be/sensor.py:209-216 | none without data or without an item carrying the EAN; otherwise exactly the current price of the first item that carries it |
| Sensor.GetCurrentPriceEntry | custom_components/engie_be/sensor.py:209-216 | the loop computes `CurrentPriceEntry`: none without data or without a matching item, else the current price of the first matching item |
| Sensor.PriceValueSpec | custom_components/engie_be/sensor.py:218-233 | a value exactly when there is an entry, the direction list is non-empty and its first slot has the field with a non-null value, which is then the value |
| Sensor.GetPriceValue | custom_components/engie_be/sensor.py:218-233 | the method computes `PriceValue` of the current entry and the sensor's value key |
| Sensor.StateAttributesSpec | custom_components/engie_be/sensor.py:190-207 | the EAN always; a period exactly when there is a current entry, with its range and VAT tariff; a slot code exactly when the direction list is non-empty, namely the first slot's `timeOfUseSlotCode` (null when absent) |
| Sensor.ExtraStateAttributes | custom_components/engie_be/sensor.py:190-207 | the method computes `StateAttributes` |
| ConfigFlow.UserErrorKey | custom_components/engie_be/config_flow.py:82-90 | "auth" exactly for the authentication error, "connection" exactly for the communication error, else "unknown" |
| ConfigFlow.MfaErrorKey | custom_components/engie_be/config_flow.py:211-222 | "invalid_mfa_code" exactly for the MFA error; otherwise the user step's key |
| ConfigFlow.UserStepResultSpec | custom_components/engie_be/config_flow.py:82-97 | a failed start re-shows the user form with the error's key, "auth", "connection" or "unknown"; a started login shows a code form without error, the email one exactly when "email" was chosen and the SMS one otherwise |
| ConfigFlow.MfaStepResultSpec | custom_components/engie_be/config_flow.py:211-240 | a completed login creates an entry titled with the username whose data holds exactly username, password, customer number, client id (defaulted) and the two returned tokens, or aborts when the account is already configured; a client error re-shows the code form with its key, the MFA error with "invalid_mfa_code"; the token lookup error escapes the step |
| ConfigFlow.FlowHandler.StepUser | custom_components/engie_be/config_flow.py:63-97 | without input, the form; with input it stores the input, makes a client with the client id (defaulted) and no tokens, starts the login as `Phase1Done` says and returns `UserStepResult`; the flow state is set only when the start succeeded, and then holds the attempt's fresh session, still open |
| ConfigFlow.FlowHandler.HandleMfaStep | custom_components/engie_be/config_flow.py:191-255 | completes only with both a code and a pending login, else shows the form without error and changes nothing, the pending session included; then the result is `MfaStepResult`; success clears the flow state and every error keeps it; the MFA error leaves the session open, all else closes it once; on success the client holds the new pair, on an error its tokens are unchanged |
| ConfigFlow.StaleFlowResubmission | custom_components/engie_be/config_flow.py:214-222 | after a non-MFA failure the kept flow state's session is closed: re-entering a code sends nothing and shows "unknown" |
| ConfigFlow.CallsAsWrittenRaise | custom_components/engie_be/config_flow.py:77-81 | as written, the start call and the completion call both raise TypeError on the `mfa_method=` keyword, whatever they would have returned (see Findings) |
| Integration.PersistedData | custom_components/engie_be/__init__.py:108-118 | the new data has the old keys plus the two token keys, the new tokens under them, and every other key's old value |
| Integration.PersistLastWins | custom_components/engie_be/__init__.py:115-118 | persisting twice is persisting the later pair |
| Integration.PersistTokens | custom_components/engie_be/__init__.py:108-118 | the entry's data becomes `PersistedData` of its old data |
| Integration.SetupReadsWizardEntry | custom_components/engie_be/__init__.py:40-45 | an entry built by the wizard gives the client the wizard's client id and exactly the login's token pair |
| Integration.RuntimeData.RefreshAndRecord | custom_components/engie_be/__init__.py:55-61 | success persists the pair and sets `authenticated`; a client error clears it and persists nothing; the lookup error escapes with both untouched |
| Integration.RuntimeData.RefreshTick | custom_components/engie_be/__init__.py:64-75 | the same rule, then one coordinator notification carrying its unchanged data, unless the lookup error escaped |
| Integration.SetupEntry | custom_components/engie_be/__init__.py:35-61 | the client is built from the entry's client id (defaulted) and stored tokens on the shared session; the initial refresh follows the same rule, with the flag false after any failure |
| Integration.UpdateResultOf | custom_components/engie_be/coordinator.py:50-55 | the prices on success; `ConfigEntryAuthFailed` exactly for the authentication error; `UpdateFailed` exactly for the other client errors |
| Integration.RuntimeData.UpdateData | custom_components/engie_be/coordinator.py:45-55 | the price query for the entry's customer number, with its error mapped |

## Left out

- HTTP itself is not modelled. aiohttp, headers' contents, cookies, the 30-second timeout and redirects are out of scope; every call sends no redirects, which is fixed by `_api_wrapper`'s default. A request is its `Call` value and an answer a scripted outcome.
- The randomness of `os.urandom` and the SHA-256 of `hashlib` are parameters (`Entropy`, `sha256`), so the model does not say that values are random or fresh per attempt.
- General regular expressions are not modelled: only the two fixed patterns exist, as the scanner `ExtractFromBody` with the keys `state=` and `code=`.
- Decoding price JSON into `PriceData` is not modelled. The price document is typed; an item without `prices` is an empty list and a missing `ean` is `None`.
- Dates are day numbers. `datetime.now` and `date.fromisoformat` are replaced by a `today` parameter and integer `from`/`to` fields.
- `float(value)` is not modelled: `Sensor.GetPriceValue` returns the raw JSON value.
- Sensor.Descriptor.TranslationKey: `str.lower()` is modelled for ASCII letters only.
- Units, device classes, state classes, precision and icons are host declarations; only the key, translation key, icon choice and value key of a descriptor are kept.
- Home Assistant's form schemas, selectors and `voluptuous` validation are out: a form is its step and its error key.
- `slugify` and `async_set_unique_id` are replaced by the `alreadyConfigured` parameter of `HandleMfaStep`.
- The options flow, scheduler registration, platform forwarding, reload and unload are not modelled. So are `binary_sensor.py`, `entity.py` and `data.py`, which only read the flag.
- The 60-second period (`TOKEN_REFRESH_INTERVAL_SECONDS`) is only the constant `TokenRefreshIntervalSeconds`. The timer is not modelled; each tick is a call of `RefreshTick`.
- The coordinator's first refresh in `async_setup_entry` is not modelled; `UpdateData` is its update function.
- Logging is not modelled.
- Concurrency between the refresh tick and the price poll is out: every operation is atomic.
- AuthProtocol.TokenField: a token that is present but not a JSON string is treated as a failed lookup, whereas Python would store the non-string value.
- Transport.Session.Close: closing counts calls. A second close of an already closed aiohttp session is harmless there, while the model counts it, as happens after a stale flow state is resubmitted.
- Integration.RuntimeData.UpdateData: a missing customer number raises `KeyError`; the model reports it with the same uncaught lookup error as a token lookup.

A stale flow state is modelled as the code has it. The docstring of `async_complete_authentication` (api.py:169-172) says the session stays open only after the MFA error, so that the code can be retried. `_handle_mfa_step` keeps `_auth_flow_state` after every error (config_flow.py:211-222), although its session was closed (api.py:181-183). A code entered again then fails on the closed session and shows "unknown" (`ConfigFlow.StaleFlowResubmission`).

## Findings

| source | as written | input that shows it | evidently intended | confidence | as-written member | corrected member |
|---|---|---|---|---|---|---|
| custom_components/engie_be/config_flow.py:77-81 | `async_step_user` passes `mfa_method=` to `async_start_authentication`, whose parameters (api.py:137-141) are only `username` and `password`; Python raises TypeError, which none of the step's `except` clauses catches | any submission of the user form | start the login with username and password and route to the chosen code step | high (not executed) | ConfigFlow.CallsAsWrittenRaise | ConfigFlow.FlowHandler.StepUser |
| custom_components/engie_be/config_flow.py:206-210 | `_handle_mfa_step` passes `mfa_method=` to `async_complete_authentication`, whose parameters (api.py:161-165) are only `flow_state` and `mfa_code`; TypeError escapes the step | any code submitted while a login is pending | complete the login with the flow state and the code | high (not executed) | ConfigFlow.CallsAsWrittenRaise | ConfigFlow.FlowHandler.HandleMfaStep |

The rest of the model uses the corrected calls, which pass only the declared parameters. `ConfigFlow.UserStepAsWritten` and `ConfigFlow.MfaStepAsWritten` give the results as written: the TypeError, or the corrected result were the keyword declared. The corrected steps' contracts, with `ConfigFlow.UserStepResultSpec` and `ConfigFlow.MfaStepResultSpec`, state the intended routing and entry creation.
