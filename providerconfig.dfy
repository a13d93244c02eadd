/**
 * Provider configuration in the plugin-framework provider (internal/provider/provider.go):
 * how the API url, the token and the certificate flag are resolved from the configuration
 * and the environment, and which client the data sources and resources receive.
 */
module ProviderConfig {
  import opened Wrappers
  import opened Tf
  import opened IpamClient

  /** The provider block: `api_url`, `token` and `skip_cert_verification`. */
  datatype ProviderModel = ProviderModel(apiUrl: Value<string>, token: Value<string>, skipCertificateVerification: Value<bool>)

  /** What `Configure` leaves in its response: diagnostics, and the client for data sources and resources. */
  datatype ConfigureResponse = ConfigureResponse(
    diagnostics: seq<Diagnostic>,
    dataSourceData: Option<Client>,
    resourceData: Option<Client>)

  const ApiUrlVariable := "AZUREIPAM_API_URL"
  const TokenVariable := "AZUREIPAM_TOKEN"

  const UnknownApiUrl := AttributeError("api_url", "Unknown AzureIpam API url",
    "The provider cannot create the AzureIpam API client as there is an unknown configuration value for the AzureIpam API host. "
    + "Either target apply the source of the value first, set the value statically in the configuration, or use the AZUREIPAM_API_URL environment variable.")
  const UnknownToken := AttributeError("token", "Unknown AzureIpam API access token",
    "The provider cannot create the AzureIpam API client as there is an unknown configuration value for the AzureIpam API access token. "
    + "Either target apply the source of the value first, set the value statically in the configuration, or use the AZUREIPAM_TOKEN environment variable.")
  const MissingApiUrl := AttributeError("api_url", "Missing AzureIpam API url",
    "The provider cannot create the AzureIpam API client as there is a missing or empty value for the AzureIpam API url. "
    + "Set the url value in the configuration or use the AZUREIPAM_API_URL environment variable. "
    + "If either is already set, ensure the value is not empty.")
  const MissingToken := AttributeError("token", "Missing AzureIpam API access token",
    "The provider cannot create the AzureIpam API client as there is a missing or empty value for the AzureIpam API access token. "
    + "Set the access token value in the configuration or use the AZUREIPAM_TOKEN environment variable. "
    + "If either is already set, ensure the value is not empty.")

  /** `os.Getenv`: the variable's value, or "" when it is not set. */
  function Getenv(env: map<string, string>, key: string): string {
    if key in env then env[key] else ""
  }

  /** A setting resolved from the configuration over the environment: a non-null configured value wins. */
  function Resolved(configured: Value<string>, fromEnv: string): (s: string)
    ensures configured.Known? ==> s == configured.value
    ensures configured.Null? ==> s == fromEnv
  {
    if !configured.Null? then ValueString(configured) else fromEnv
  }

  /**
   * The `skip_cert_verification` flag as `Configure` resolves it: always false for the "test"
   * version, false when the attribute is null, and the configured value otherwise.
   */
  function SkipCertVerification(version: string, configured: Value<bool>): (skip: bool)
    ensures skip <==> version != "test" && configured == Known(true)
  {
    if version == "test" then false
    else if configured.Null? then false
    else ValueBool(configured)
  }

  /**
   * `Configure`. Unknown url or token values are reported first, and then nothing else happens,
   * not even an environment lookup; `envLookups` lists the variables read, in order. Otherwise
   * the url and token are resolved, each empty one is reported, and when both are present the
   * client is built with the resolved certificate flag as `NewClient`'s third argument and
   * handed to data sources and resources alike. `NewClient` never fails, so the error branch
   * after it is never taken.
   */
  method Configure(version: string, config: ProviderModel, env: map<string, string>)
    returns (resp: ConfigureResponse, envLookups: seq<string>)
    ensures config.apiUrl.Unknown? || config.token.Unknown? ==>
              envLookups == [] && resp.dataSourceData.None? && resp.resourceData.None?
              && resp.diagnostics == (if config.apiUrl.Unknown? then [UnknownApiUrl] else [])
                                     + (if config.token.Unknown? then [UnknownToken] else [])
    ensures !config.apiUrl.Unknown? && !config.token.Unknown? ==>
              envLookups == [ApiUrlVariable, TokenVariable]
    ensures !config.apiUrl.Unknown? && !config.token.Unknown? ==>
              var url := Resolved(config.apiUrl, Getenv(env, ApiUrlVariable));
              var token := Resolved(config.token, Getenv(env, TokenVariable));
              if url == "" || token == "" then
                resp.dataSourceData.None? && resp.resourceData.None?
                && resp.diagnostics == (if url == "" then [MissingApiUrl] else [])
                                       + (if token == "" then [MissingToken] else [])
              else
                resp.diagnostics == [] && resp.dataSourceData == resp.resourceData
                && resp.dataSourceData == Some(Client(url, HttpClient(RequestTimeoutSeconds,
                                               SelectTransport(SkipCertVerification(version, config.skipCertificateVerification))), token))
    ensures resp.dataSourceData.Some? <==> resp.diagnostics == []
  {
    var diagnostics: seq<Diagnostic> := [];
    envLookups := [];
    if config.apiUrl.Unknown? {
      diagnostics := diagnostics + [UnknownApiUrl];
    }
    if config.token.Unknown? {
      diagnostics := diagnostics + [UnknownToken];
    }
    if diagnostics != [] {
      return ConfigureResponse(diagnostics, None, None), envLookups;
    }

    var apiUrl := Getenv(env, ApiUrlVariable);
    var token := Getenv(env, TokenVariable);
    envLookups := [ApiUrlVariable, TokenVariable];
    if !config.apiUrl.Null? {
      apiUrl := ValueString(config.apiUrl);
    }
    if !config.token.Null? {
      token := ValueString(config.token);
    }

    if apiUrl == "" {
      diagnostics := diagnostics + [MissingApiUrl];
    }
    if token == "" {
      diagnostics := diagnostics + [MissingToken];
    }
    if diagnostics != [] {
      return ConfigureResponse(diagnostics, None, None), envLookups;
    }

    var skipCertVerification: bool;
    if version == "test" {
      skipCertVerification := false;
    } else if config.skipCertificateVerification.Null? {
      skipCertVerification := false;
    } else {
      skipCertVerification := ValueBool(config.skipCertificateVerification);
    }

    var created := NewClient(Some(apiUrl), Some(token), skipCertVerification);
    var client := created.value;
    return ConfigureResponse([], Some(client), Some(client)), envLookups;
  }

  /**
   * The transport the configured client ends up with: the certificate flag is read by
   * `NewClient` as "use the default transport", so the chain is verified exactly when
   * `skip_cert_verification = true` is configured outside the "test" version.
   */
  lemma {:induction false} ConfiguredTransport(version: string, skip: Value<bool>)
    ensures SelectTransport(SkipCertVerification(version, skip)) == DefaultTransport
            <==> version != "test" && skip == Known(true)
  {
  }

  /** An unset flag, outside the "test" version, yields a client that skips certificate verification. */
  lemma UnsetFlagSkipsVerification(version: string)
    requires version != "test"
    ensures SelectTransport(SkipCertVerification(version, Null)) == InsecureSkipVerifyTransport
  {
  }

  /**
   * The transport the flag's name and the "always false for acceptance tests, to use the
   * default transport" remark call for: verification is skipped only when asked for.
   */
  function IntendedTransport(skipCertVerification: bool): (t: RoundTripper)
    ensures t == InsecureSkipVerifyTransport <==> skipCertVerification
  {
    SelectTransport(!skipCertVerification)
  }

  /** With the corrected transport, the "test" version and an unset flag both verify certificates. */
  lemma IntendedTransportVerifiesByDefault(version: string, skip: Value<bool>)
    ensures IntendedTransport(SkipCertVerification(version, skip)) == InsecureSkipVerifyTransport
            <==> version != "test" && skip == Known(true)
    ensures IntendedTransport(SkipCertVerification("test", skip)) == DefaultTransport
    ensures IntendedTransport(SkipCertVerification(version, Null)) == DefaultTransport
  {
  }
}
