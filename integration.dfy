/**
 * The integration's token-health lifecycle: setting up an entry builds the client from
 * the stored tokens and refreshes once; every timer tick refreshes again. Each refresh
 * writes the `authenticated` flag and, when it succeeded, persists the new pair into the
 * entry's data; each tick then pokes the coordinator with its unchanged data. The
 * coordinator maps the price query's errors onto Home Assistant's.
 */
module Integration {
  import opened Common
  import opened Const
  import opened Transport
  import opened AuthProtocol
  import opened Api
  import ConfigFlow

  /** The entry's data written back with a new token pair: the two token keys hold the
      new values and every other key keeps its value. */
  function PersistedData(data: map<string, string>, accessToken: string, refreshToken: string): (d: map<string, string>)
    ensures d.Keys == data.Keys + {ConfAccessToken, ConfRefreshToken}
    ensures d[ConfAccessToken] == accessToken && d[ConfRefreshToken] == refreshToken
    ensures forall k :: k in data && k != ConfAccessToken && k != ConfRefreshToken ==> d[k] == data[k]
  {
    data[ConfAccessToken := accessToken][ConfRefreshToken := refreshToken]
  }

  /** Persisting twice keeps only the later pair. */
  lemma PersistLastWins(data: map<string, string>, a1: string, r1: string, a2: string, r2: string)
    ensures PersistedData(PersistedData(data, a1, r1), a2, r2) == PersistedData(data, a2, r2)
  {
    var left := PersistedData(PersistedData(data, a1, r1), a2, r2);
    var right := PersistedData(data, a2, r2);
    assert left.Keys == right.Keys;
    forall k | k in left.Keys
      ensures left[k] == right[k]
    {
    }
  }

  /** The client id the setup reads from the entry, with the default when absent. */
  function EntryClientId(data: map<string, string>): string {
    Get(data, ConfClientId).GetOr(DefaultClientId)
  }

  /** An entry created by the setup wizard gives the client the wizard's client id and
      exactly the token pair the login returned. */
  lemma SetupReadsWizardEntry(u: ConfigFlow.UserInput, accessToken: string, refreshToken: string)
    ensures var data := ConfigFlow.EntryData(u, accessToken, refreshToken);
      && EntryClientId(data) == ConfigFlow.ClientIdOf(u)
      && Get(data, ConfAccessToken) == Some(accessToken)
      && Get(data, ConfRefreshToken) == Some(refreshToken)
  {
    var data := ConfigFlow.EntryData(u, accessToken, refreshToken);
    assert data[ConfClientId] == ConfigFlow.ClientIdOf(u);
  }

  /** A config entry: only its data dictionary is modelled. */
  class ConfigEntry {
    var data: map<string, string>

    constructor (data: map<string, string>)
      ensures this.data == data
    {
      this.data := data;
    }
  }

  /** What the coordinator's update raises when the price query fails. */
  datatype UpdateError = ConfigEntryAuthFailed | UpdateFailed | Uncaught(e: ApiError)

  /** `_async_update_data`'s result: the price document, or the error it raises. */
  datatype UpdateResult = Updated(doc: Json) | UpdateRaised(error: UpdateError)

  /** An authentication error asks Home Assistant to re-authenticate; every other client
      error is an ordinary update failure; the token lookup error is not caught. */
  function UpdateResultOf(r: Result<Json>): (u: UpdateResult)
    ensures r.Ok? <==> u.Updated?
    ensures r.Ok? ==> u.doc == r.value
    ensures u == UpdateRaised(ConfigEntryAuthFailed) <==> r == Err(AuthError)
    ensures u == UpdateRaised(UpdateFailed) <==> r.Err? && IsClientError(r.error) && r.error != AuthError
  {
    match r
    case Ok(doc) => Updated(doc)
    case Err(e) =>
      if e == AuthError then UpdateRaised(ConfigEntryAuthFailed)
      else if IsClientError(e) then UpdateRaised(UpdateFailed)
      else UpdateRaised(Uncaught(e))
  }

  /** The update coordinator: its data and the data of every `async_set_updated_data` call. */
  class Coordinator {
    var data: Option<Json>
    var notifications: seq<Option<Json>>

    constructor ()
      ensures data.None? && notifications == []
    {
      data := None;
      notifications := [];
    }

    /** `async_set_updated_data`: stores the data and notifies the listeners. */
    method SetUpdatedData(d: Option<Json>)
      modifies this
      ensures data == d && notifications == old(notifications) + [d]
    {
      data := d;
      notifications := notifications + [d];
    }
  }

  /** `entry.runtime_data`: the client, the coordinator and the token-health flag. */
  class RuntimeData {
    const client: Client
    const coordinator: Coordinator
    var authenticated: bool

    constructor (client: Client, coordinator: Coordinator)
      ensures this.client == client && this.coordinator == coordinator && !authenticated
    {
      this.client := client;
      this.coordinator := coordinator;
      authenticated := false;
    }

    /** The refresh shared by the setup and the timer tick: success persists the new pair
        and sets the flag; a client error clears the flag and persists nothing; the token
        lookup error escapes with the flag and the entry untouched. */
    method RefreshAndRecord(entry: ConfigEntry) returns (r: Result<(string, string)>)
      modifies client, client.net, this, entry
      ensures var x := Refresh(old(client.net.State()), client.session.IsOpen(), client.session, client.clientId,
                               old(client.accessToken), old(client.refreshToken));
        && r == x.result && client.net.State() == x.wire
        && client.accessToken == x.accessToken && client.refreshToken == x.refreshToken
      ensures r.Ok? ==> entry.data == PersistedData(old(entry.data), r.value.0, r.value.1) && authenticated
      ensures r.Err? && IsClientError(r.error) ==> entry.data == old(entry.data) && !authenticated
      ensures r == Err(TokenLookupError) ==> entry.data == old(entry.data) && authenticated == old(authenticated)
    {
      r := client.RefreshTokens();
      match r
      case Ok((accessToken, refreshToken)) =>
        PersistTokens(entry, accessToken, refreshToken);
        authenticated := true;
      case Err(e) =>
        if e != TokenLookupError {
          authenticated := false;
        }
    }

    /** `_refresh_token_callback`: the refresh, then the coordinator is notified with the
        data it already holds, unless the token lookup error escaped first. */
    method RefreshTick(entry: ConfigEntry) returns (r: Result<(string, string)>)
      modifies client, client.net, this, entry, coordinator
      ensures var x := Refresh(old(client.net.State()), client.session.IsOpen(), client.session, client.clientId,
                               old(client.accessToken), old(client.refreshToken));
        && r == x.result && client.net.State() == x.wire
        && client.accessToken == x.accessToken && client.refreshToken == x.refreshToken
      ensures r.Ok? ==> entry.data == PersistedData(old(entry.data), r.value.0, r.value.1) && authenticated
      ensures r.Err? && IsClientError(r.error) ==> entry.data == old(entry.data) && !authenticated
      ensures r == Err(TokenLookupError) ==> entry.data == old(entry.data) && authenticated == old(authenticated)
      ensures coordinator.data == old(coordinator.data)
      ensures r != Err(TokenLookupError) ==> coordinator.notifications == old(coordinator.notifications) + [old(coordinator.data)]
      ensures r == Err(TokenLookupError) ==> coordinator.notifications == old(coordinator.notifications)
    {
      r := RefreshAndRecord(entry);
      if r == Err(TokenLookupError) {
        return;
      }
      coordinator.SetUpdatedData(coordinator.data);
    }

    /** The coordinator's `_async_update_data`: the price query for the entry's customer
        number, its errors mapped; an entry without a customer number raises KeyError,
        modelled as the token lookup error. */
    method UpdateData(entry: ConfigEntry) returns (u: UpdateResult)
      modifies client.net
      ensures ConfCustomerNumber !in entry.data ==> u == UpdateRaised(Uncaught(TokenLookupError))
      ensures ConfCustomerNumber !in entry.data ==> client.net.State() == old(client.net.State())
      ensures ConfCustomerNumber in entry.data ==>
        var x := Prices(old(client.net.State()), client.session.IsOpen(), client.session,
                        entry.data[ConfCustomerNumber], client.accessToken);
        client.net.State() == x.wire && u == UpdateResultOf(x.result)
    {
      if ConfCustomerNumber !in entry.data {
        return UpdateRaised(Uncaught(TokenLookupError));
      }
      var r := client.GetPrices(entry.data[ConfCustomerNumber]);
      u := UpdateResultOf(r);
    }
  }

  /** `_persist_tokens`: the entry's data with the new pair written over the old one. */
  method PersistTokens(entry: ConfigEntry, accessToken: string, refreshToken: string)
    modifies entry
    ensures entry.data == PersistedData(old(entry.data), accessToken, refreshToken)
  {
    var updated := entry.data;
    updated := updated[ConfAccessToken := accessToken];
    updated := updated[ConfRefreshToken := refreshToken];
    entry.data := updated;
  }

  /** `async_setup_entry` up to the scheduling of the refresh tick: the client is built
      from the entry's client id (defaulted) and stored tokens on the shared session, the
      runtime data is attached, and the initial refresh is recorded like any tick's. Its
      result is returned; only the token lookup error makes the setup raise. */
  method SetupEntry(net: Network, haSession: Session, entry: ConfigEntry)
    returns (runtime: RuntimeData, r: Result<(string, string)>)
    modifies net, entry
    ensures fresh(runtime) && fresh(runtime.client) && fresh(runtime.coordinator)
    ensures runtime.client.net == net && runtime.client.session == haSession
    ensures runtime.client.clientId == EntryClientId(old(entry.data))
    ensures var x := Refresh(old(net.State()), haSession.IsOpen(), haSession, EntryClientId(old(entry.data)),
                             Get(old(entry.data), ConfAccessToken), Get(old(entry.data), ConfRefreshToken));
      && r == x.result && net.State() == x.wire
      && runtime.client.accessToken == x.accessToken && runtime.client.refreshToken == x.refreshToken
    ensures r.Ok? ==> entry.data == PersistedData(old(entry.data), r.value.0, r.value.1) && runtime.authenticated
    ensures r.Err? ==> entry.data == old(entry.data) && !runtime.authenticated
    ensures runtime.coordinator.data.None? && runtime.coordinator.notifications == []
  {
    var client := new Client(net, haSession, EntryClientId(entry.data),
                             Get(entry.data, ConfAccessToken), Get(entry.data, ConfRefreshToken));
    var coordinator := new Coordinator();
    runtime := new RuntimeData(client, coordinator);
    r := runtime.RefreshAndRecord(entry);
  }
}
