/** The plugin-framework half of the provider: its type name, the
    resources and data sources it serves, and `Configure`, which resolves
    the refresh token, exchanges it for an access token and hands the
    resulting client to every resource and data source. */
module ProviderConfig {
  import opened Common
  import opened Api

  const ProviderTypeName := "rhsm"
  const RefreshTokenEnv := "RHSM_REFRESH_TOKEN"
  const RefreshTokenAttr := "refresh_token"

  /** The type name of the cloud access account resource: the provider's
      type name with a suffix. */
  function CloudAccessAccountTypeName(providerTypeName: string): string {
    providerTypeName + "_cloud_access_account"
  }

  /** The type names of the resources this half serves. */
  function Resources(): seq<string> {
    [CloudAccessAccountTypeName(ProviderTypeName)]
  }

  /** This half serves no data source. */
  function DataSources(): seq<string> {
    []
  }

  /** The one resource registered is the cloud access account, under the
      name its Metadata derives from the provider's type name: every
      registered name is `rhsm_` followed by a suffix of its own, as
      Terraform asks of a provider's resource types. */
  lemma RegisteredTypeNames()
    ensures Resources() == ["rhsm_cloud_access_account"]
    ensures forall n :: n in Resources() ==>
      |n| > |ProviderTypeName| + 1 && n[..|ProviderTypeName| + 1] == ProviderTypeName + "_"
    ensures DataSources() == []
  {
    assert ProviderTypeName + "_cloud_access_account" == "rhsm_cloud_access_account";
  }

  /** A string attribute of the provider configuration as the framework
      sees it. */
  datatype ConfigString = Unknown | Null | Known(s: string)

  /** `os.Getenv`: "" for a variable that is not set. */
  function Getenv(env: map<string, string>, name: string): string {
    if name in env then env[name] else ""
  }

  /** The refresh token Configure goes on with: the configured value unless
      it is null, the environment variable otherwise. */
  function ResolvedToken(config: ConfigString, env: map<string, string>): (r: string)
    requires !config.Unknown?
    ensures config.Known? ==> r == config.s
    ensures config.Null? ==> r == Getenv(env, RefreshTokenEnv)
  {
    if config.Known? then config.s else Getenv(env, RefreshTokenEnv)
  }

  const UnknownTokenDetail := "The provider cannot create the RHSM client as there is an unknown configuration value for the API refresh_token. Either target apply the source of the value first, set the value statically in the configuration, or use the RHSM_REFRESH_TOKEN environment variable."
  const EmptyTokenDetail := "The provider cannot create the RHSM client as there is a missing or empty value for the refresh_token. Set the value in the configuration or use the RHSM_REFRESH_TOKEN environment variable. If either is already set, ensure the value is not empty."

  function UnknownTokenDiagnostic(): Diagnostic {
    Diagnostic("Missing refresh_token",
      UnknownTokenDetail,
      Some(RefreshTokenAttr))
  }

  function EmptyTokenDiagnostic(): Diagnostic {
    Diagnostic("Missing refresh_token",
      EmptyTokenDetail,
      Some(RefreshTokenAttr))
  }

  /** Configure: `token` is the answer of the token exchange, made only with
      a known, non-empty refresh token (`exchanged` lists the refresh tokens
      it was asked for). The same client goes to data sources and
      resources. */
  method Configure(config: ConfigString, env: map<string, string>, token: ApiResult<Token>)
    returns (diags: seq<Diagnostic>, dataSourceData: Option<ApiClient>, resourceData: Option<ApiClient>,
             exchanged: seq<string>)
    ensures config.Unknown? ==> diags == [UnknownTokenDiagnostic()] && exchanged == []
    ensures !config.Unknown? && ResolvedToken(config, env) == "" ==> diags == [EmptyTokenDiagnostic()] && exchanged == []
    ensures !config.Unknown? && ResolvedToken(config, env) != "" ==> exchanged == [ResolvedToken(config, env)]
    ensures exchanged != [] && token.Failed? ==>
      diags == [Error("Failed to generate access token", token.message)]
    ensures diags == [] <==> exchanged != [] && token.Ok?
    ensures diags != [] ==> dataSourceData.None? && resourceData.None?
    ensures diags == [] ==>
      dataSourceData == resourceData == Some(ApiClient(token.body.accessToken, token.body.tokenType))
  {
    diags := [];
    dataSourceData, resourceData := None, None;
    exchanged := [];
    if config.Unknown? {
      diags := diags + [UnknownTokenDiagnostic()];
    }
    if diags != [] {
      return;
    }
    var refreshToken := Getenv(env, RefreshTokenEnv);
    if !config.Null? {
      refreshToken := config.s;
    }
    if refreshToken == "" {
      diags := diags + [EmptyTokenDiagnostic()];
    }
    if diags != [] {
      return;
    }
    exchanged := [refreshToken];
    if token.Failed? {
      diags := diags + [Error("Failed to generate access token", token.message)];
      return;
    }
    var rhsmClient := ApiClient(token.body.accessToken, token.body.tokenType);
    dataSourceData := Some(rhsmClient);
    resourceData := Some(rhsmClient);
  }

  /** A configured empty string wins over a set environment variable and
      stops configuration, although the variable alone would do. */
  lemma EmptyConfigOverridesEnv(env: map<string, string>)
    requires Getenv(env, RefreshTokenEnv) != ""
    ensures ResolvedToken(Known(""), env) == ""
    ensures ResolvedToken(Null, env) != ""
  {
  }
}
