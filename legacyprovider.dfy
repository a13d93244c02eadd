/**
 * Provider configuration in the SDK-v2 provider (azureipam/provider.go).
 *
 * This provider calls a two-argument `NewClient` that is not part of this model; the call is
 * recorded as its arguments, and its answer is a parameter.
 */
module LegacyProvider {
  import opened Wrappers
  import opened Tf
  import opened IpamClient

  const ApiUrlVariable := "AZUREIPAM_API_URL"
  const TokenVariable := "AZUREIPAM_TOKEN"

  /**
   * `d.Get` of a string attribute whose default comes from `schema.EnvDefaultFunc(variable, nil)`:
   * the configured value when there is one, otherwise the variable's value, and "" when the
   * variable is unset or empty (a nil default reads as the zero value).
   */
  function SettingWithEnvDefault(configured: Option<string>, env: map<string, string>, variable: string): (s: string)
    ensures configured.Some? ==> s == configured.value
    ensures configured.None? && variable in env ==> s == env[variable]
    ensures configured.None? && variable !in env ==> s == ""
  {
    match configured
    case Some(v) => v
    case None => if variable in env then env[variable] else ""
  }

  /** The arguments of the `NewClient(host, token)` call: nil pointers when a setting is missing. */
  datatype NewClientCall = NewClientCall(host: Option<string>, token: Option<string>)

  /** What `providerConfigure` returns: the client or nothing, and the diagnostics. */
  datatype Configured = Configured(call: NewClientCall, client: Option<Client>, diagnostics: seq<Diagnostic>)

  /**
   * `providerConfigure`: when both url and token are non-empty the client is built from them;
   * otherwise it is built from two nil pointers. A `NewClient` error becomes the only
   * diagnostic (`diag.FromErr`) and no client is returned. `answer` is what `NewClient` returns.
   */
  function ProviderConfigure(hostUrl: string, token: string, answer: Result<Client>): (r: Configured)
    ensures hostUrl != "" && token != "" ==> r.call == NewClientCall(Some(hostUrl), Some(token))
    ensures hostUrl == "" || token == "" ==> r.call == NewClientCall(None, None)
    ensures answer.Ok? ==> r.client == Some(answer.value) && r.diagnostics == []
    ensures answer.Err? ==> r.client.None? && r.diagnostics == [Error(answer.error, "")]
  {
    var call := if hostUrl != "" && token != "" then NewClientCall(Some(hostUrl), Some(token))
                else NewClientCall(None, None);
    match answer
    case Err(e) => Configured(call, None, [Error(e, "")])
    case Ok(c) => Configured(call, Some(c), [])
  }

  /**
   * The call never passes just one of the two settings: either both pointers are set, to
   * non-empty values, or neither is.
   */
  lemma CallIsAllOrNothing(hostUrl: string, token: string, answer: Result<Client>)
    ensures var call := ProviderConfigure(hostUrl, token, answer).call;
            (call.host.Some? <==> call.token.Some?)
            && (call.host.Some? ==> call.host.value != "" && call.token.value != "")
  {
  }
}
