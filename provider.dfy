/**
 * The Terraform provider: configuration of the Salesforce client from
 * provider settings and environment variables, and the `_description` data
 * source that fetches an object's description into Terraform state.
 * Schemas, logging and the framework's state encoding are not modelled; the
 * environment is a map, and unknown, null and known values are StringValue.
 */
module Provider {
  import opened Wrappers
  import opened Http
  import opened Framework
  import opened Salesforce

  // ---------------------------------------------------------------------------
  // Settings

  /** The eight provider settings, each an attribute of the provider block. */
  datatype Setting = ApiHost | ApiVersion | AuthHost | ClientID | ClientSecret | GrantType | Username | Password

  /** The settings in the order Configure checks them. */
  const Settings: seq<Setting> := [ApiHost, ApiVersion, AuthHost, ClientID, ClientSecret, GrantType, Username, Password]

  function AttributeName(s: Setting): string {
    match s
    case ApiHost => "api_host"
    case ApiVersion => "api_version"
    case AuthHost => "auth_host"
    case ClientID => "client_id"
    case ClientSecret => "client_secret"
    case GrantType => "grant_type"
    case Username => "username"
    case Password => "password"
  }

  /** The environment variable a setting defaults to. */
  function EnvVar(s: Setting): string {
    match s
    case ApiHost => "SALESFORCE_API_HOST"
    case ApiVersion => "SALESFORCE_API_VERSION"
    case AuthHost => "SALESFORCE_AUTH_HOST"
    case ClientID => "SALESFORCE_CLIENT_ID"
    case ClientSecret => "SALESFORCE_CLIENT_SECRET"
    case GrantType => "SALESFORCE_GRANT_TYPE"
    case Username => "SALESFORCE_USERNAME"
    case Password => "SALESFORCE_PASSWORD"
  }

  /** Distinct settings have distinct attribute names, so each diagnostic path names one setting. */
  lemma AttributeNamesDistinct(s: Setting, t: Setting)
    requires s != t
    ensures AttributeName(s) != AttributeName(t)
  {
  }

  /** The setting's name in diagnostic summaries. */
  function Title(s: Setting): string {
    match s
    case ApiHost => "API Host"
    case ApiVersion => "API Version"
    case AuthHost => "Auth Host"
    case ClientID => "Client ID"
    case ClientSecret => "Client Secret"
    case GrantType => "Grant Type"
    case Username => "Username"
    case Password => "Password"
  }

  /** The setting's name in diagnostic details. */
  function Phrase(s: Setting): string {
    match s
    case ApiHost => "API host"
    case ApiVersion => "API version"
    case AuthHost => "auth host"
    case ClientID => "client id"
    case ClientSecret => "client secret"
    case GrantType => "grant type"
    case Username => "username"
    case Password => "password"
  }

  /** The word the missing-value detail asks to set: "host" for all but the username and password. */
  function SetHint(s: Setting): string {
    match s
    case Username => "username"
    case Password => "password"
    case _ => "host"
  }

  /** The two reasons a setting is reported: its configured value is unknown, or it resolved to "". */
  datatype Problem = UnknownValue | MissingValue

  function Summary(problem: Problem, s: Setting): string {
    match problem
    case UnknownValue => "Unknown Salesforce " + Title(s)
    case MissingValue => "Missing Salesforce " + Title(s)
  }

  const UnknownLead := "The provider cannot create the Salesforce API client as there is an unknown configuration value for the Salesforce "
  const UnknownAdvice := "Either target apply the source of the value first, set the value statically in the configuration, or use the "
  const MissingLead := "The provider cannot create the Salesforce API client as there is a missing or empty value for the Salesforce "
  const MissingAdvice := "If either is already set, ensure the value is not empty."

  function Detail(problem: Problem, s: Setting): string {
    match problem
    case UnknownValue =>
      UnknownLead + Phrase(s) + ". " + UnknownAdvice + EnvVar(s) + " environment variable."
    case MissingValue =>
      MissingLead + Phrase(s) + ". "
      + "Set the " + SetHint(s) + " value in the configuration or use the " + EnvVar(s) + " environment variable. "
      + MissingAdvice
  }

  /** The attribute error reported for a setting with the given problem. */
  function SettingError(problem: Problem, s: Setting): Diagnostic {
    AttributeError(AttributeName(s), Summary(problem, s), Detail(problem, s))
  }

  // ---------------------------------------------------------------------------
  // Resolution

  /** The provider block as read from the configuration. */
  datatype ProviderModel = ProviderModel(
    apiHost: StringValue,
    apiVersion: StringValue,
    authHost: StringValue,
    clientID: StringValue,
    clientSecret: StringValue,
    grantType: StringValue,
    username: StringValue,
    password: StringValue)
  {
    function Get(s: Setting): StringValue {
      match s
      case ApiHost => apiHost
      case ApiVersion => apiVersion
      case AuthHost => authHost
      case ClientID => clientID
      case ClientSecret => clientSecret
      case GrantType => grantType
      case Username => username
      case Password => password
    }
  }

  /** os.Getenv: the variable's value, or "" when it is not set. */
  function Getenv(env: map<string, string>, key: string): string {
    if key in env then env[key] else ""
  }

  /** A setting's value: its environment variable, replaced by the configured value when that is not null. */
  function Resolve(config: ProviderModel, env: map<string, string>, s: Setting): string {
    if config.Get(s).Null? then Getenv(env, EnvVar(s)) else config.Get(s).ValueString()
  }

  /**
   * A known configured value wins outright, even when it is "", and then the
   * environment plays no part; a null one falls back to the environment, and
   * to "" when the variable is not set.
   */
  lemma ConfigOverridesEnvironment(config: ProviderModel, env: map<string, string>, env': map<string, string>, s: Setting)
    ensures config.Get(s).Known? ==>
      Resolve(config, env, s) == config.Get(s).text && Resolve(config, env, s) == Resolve(config, env', s)
    ensures config.Get(s).Null? && EnvVar(s) in env ==> Resolve(config, env, s) == env[EnvVar(s)]
    ensures config.Get(s).Null? && EnvVar(s) !in env ==> Resolve(config, env, s) == ""
  {
  }

  /** The settings whose configured value is unknown. */
  function UnknownSettings(config: ProviderModel): set<Setting> {
    set s | s in Settings && config.Get(s).Unknown?
  }

  /** The settings that resolve to the empty string. */
  function MissingSettings(config: ProviderModel, env: map<string, string>): set<Setting> {
    set s | s in Settings && Resolve(config, env, s) == ""
  }

  /** The credentials handed to NewClient once every setting is resolved. */
  function ResolvedAuth(config: ProviderModel, env: map<string, string>): AuthStruct {
    Credentials(Resolve(config, env, AuthHost), Resolve(config, env, ClientID), Resolve(config, env, ClientSecret),
                Resolve(config, env, GrantType), Resolve(config, env, Username), Resolve(config, env, Password))
  }

  // ---------------------------------------------------------------------------
  // Collected errors

  /**
   * The diagnostics Configure writes, as functions of what they report: the
   * attribute error for a setting with a problem, and the error for a client
   * that could not be created. The proofs below hold for any messages that
   * are errors on the right attribute; Configure uses ProviderMessages.
   */
  datatype Messages = Messages(settingError: (Problem, Setting) -> Diagnostic, clientError: Error -> Diagnostic)
  {
    ghost predicate Valid() {
      && (forall p, s :: settingError(p, s).severity == SeverityError && settingError(p, s).attribute == Some(AttributeName(s)))
      && (forall e :: clientError(e).severity == SeverityError && clientError(e).attribute.None?)
    }
  }

  /** The texts of the source. */
  const ProviderMessages := Messages((p, s) => SettingError(p, s), e => PlainError(ClientErrorSummary, ClientErrorDetail(e)))

  lemma ProviderMessagesValid()
    ensures ProviderMessages.Valid()
  {
  }

  /** The error a setting's problem produces, as a function of the setting. */
  function ErrorFor(m: Messages, problem: Problem): Setting -> Diagnostic {
    s => m.settingError(problem, s)
  }

  /** Every error the function produces is an error attached to that setting's own attribute. */
  predicate AttachedErrors(errorFor: Setting -> Diagnostic) {
    forall s :: errorFor(s).severity == SeverityError && errorFor(s).attribute == Some(AttributeName(s))
  }

  lemma SettingErrorsAttached(m: Messages, problem: Problem)
    requires m.Valid()
    ensures AttachedErrors(ErrorFor(m, problem))
  {
  }

  /** The errors of the flagged settings, checked in the order of ss; a flagged setting never stops the check. */
  function Report(ss: seq<Setting>, flagged: set<Setting>, errorFor: Setting -> Diagnostic): seq<Diagnostic> {
    if ss == [] then []
    else Report(ss[..|ss| - 1], flagged, errorFor) + (if ss[|ss| - 1] in flagged then [errorFor(ss[|ss| - 1])] else [])
  }

  function UnknownErrors(m: Messages, config: ProviderModel): seq<Diagnostic> {
    Report(Settings, UnknownSettings(config), ErrorFor(m, UnknownValue))
  }

  function MissingErrors(m: Messages, config: ProviderModel, env: map<string, string>): seq<Diagnostic> {
    Report(Settings, MissingSettings(config, env), ErrorFor(m, MissingValue))
  }

  /** How many diagnostics are attached to the attribute path. */
  function CountAt(ds: seq<Diagnostic>, path: string): nat {
    if ds == [] then 0 else CountAt(ds[..|ds| - 1], path) + (if ds[|ds| - 1].attribute == Some(path) then 1 else 0)
  }

  lemma {:induction false} CountAtAppend(a: seq<Diagnostic>, b: seq<Diagnostic>, path: string)
    ensures CountAt(a + b, path) == CountAt(a, path) + CountAt(b, path)
  {
    if b != [] {
      assert (a + b)[..|a + b| - 1] == a + b[..|b| - 1];
      assert (a + b)[|a + b| - 1] == b[|b| - 1];
      CountAtAppend(a, b[..|b| - 1], path);
    } else {
      assert a + b == a;
    }
  }

  predicate Distinct(ss: seq<Setting>) {
    forall i, j :: 0 <= i < j < |ss| ==> ss[i] != ss[j]
  }

  /**
   * A report is a list of errors: it holds an error exactly when it is not
   * empty, and it is empty exactly when no checked setting is flagged.
   */
  lemma {:induction false} ReportIsErrors(ss: seq<Setting>, flagged: set<Setting>, errorFor: Setting -> Diagnostic)
    requires AttachedErrors(errorFor)
    ensures ContainsError(Report(ss, flagged, errorFor)) <==> Report(ss, flagged, errorFor) != []
    ensures Report(ss, flagged, errorFor) == [] <==> forall i :: 0 <= i < |ss| ==> ss[i] !in flagged
  {
    if ss != [] {
      var init, last := ss[..|ss| - 1], ss[|ss| - 1];
      var step := if last in flagged then [errorFor(last)] else [];
      ReportIsErrors(init, flagged, errorFor);
      ContainsErrorAppend(Report(init, flagged, errorFor), step);
      if step != [] {
        assert step[0].severity == SeverityError;
      }
      assert forall i :: 0 <= i < |init| ==> init[i] == ss[i];
    }
  }

  /**
   * Errors are collected, not fail-fast: among checked settings without
   * repeats, each flagged one gets exactly one error on its own attribute and
   * every other attribute gets none.
   */
  lemma {:induction false} ReportCountsOnePerFlagged(ss: seq<Setting>, flagged: set<Setting>,
                                                     errorFor: Setting -> Diagnostic, s: Setting)
    requires AttachedErrors(errorFor)
    requires Distinct(ss)
    ensures CountAt(Report(ss, flagged, errorFor), AttributeName(s)) == if s in ss && s in flagged then 1 else 0
  {
    if ss != [] {
      var init, last := ss[..|ss| - 1], ss[|ss| - 1];
      var step := if last in flagged then [errorFor(last)] else [];
      assert Distinct(init);
      ReportCountsOnePerFlagged(init, flagged, errorFor, s);
      CountAtAppend(Report(init, flagged, errorFor), step, AttributeName(s));
      if last != s {
        AttributeNamesDistinct(last, s);
      }
      assert step != [] ==> step[..0] == [] && step[0] == errorFor(last);
      assert s in ss <==> s in init || s == last;
      assert last !in init;
    }
  }

  /** The error of a setting appears in a report exactly when that setting is checked and flagged. */
  lemma {:induction false} ReportNamesFlagged(ss: seq<Setting>, flagged: set<Setting>,
                                              errorFor: Setting -> Diagnostic, s: Setting)
    requires AttachedErrors(errorFor)
    ensures errorFor(s) in Report(ss, flagged, errorFor) <==> s in ss && s in flagged
  {
    if ss != [] {
      var init, last := ss[..|ss| - 1], ss[|ss| - 1];
      ReportNamesFlagged(init, flagged, errorFor, s);
      if last != s {
        AttributeNamesDistinct(last, s);
        assert errorFor(last) != errorFor(s);
      }
      assert s in ss <==> s in init || s == last;
    }
  }

  lemma SettingsListed()
    ensures Distinct(Settings)
    ensures forall s: Setting :: s in Settings
  {
    forall s: Setting ensures s in Settings {
      match s
      case ApiHost => assert Settings[0] == s;
      case ApiVersion => assert Settings[1] == s;
      case AuthHost => assert Settings[2] == s;
      case ClientID => assert Settings[3] == s;
      case ClientSecret => assert Settings[4] == s;
      case GrantType => assert Settings[5] == s;
      case Username => assert Settings[6] == s;
      case Password => assert Settings[7] == s;
    }
  }

  /** Every unknown setting is reported once, on its attribute, and no null or known one is. */
  lemma UnknownReportedOncePerSetting(m: Messages, config: ProviderModel, s: Setting)
    requires m.Valid()
    ensures CountAt(UnknownErrors(m, config), AttributeName(s)) == if config.Get(s).Unknown? then 1 else 0
    ensures m.settingError(UnknownValue, s) in UnknownErrors(m, config) <==> config.Get(s).Unknown?
  {
    SettingsListed();
    SettingErrorsAttached(m, UnknownValue);
    ReportCountsOnePerFlagged(Settings, UnknownSettings(config), ErrorFor(m, UnknownValue), s);
    ReportNamesFlagged(Settings, UnknownSettings(config), ErrorFor(m, UnknownValue), s);
  }

  /** Every setting that resolves to "" is reported once, on its attribute, whatever the others are. */
  lemma MissingReportedOncePerSetting(m: Messages, config: ProviderModel, env: map<string, string>, s: Setting)
    requires m.Valid()
    ensures CountAt(MissingErrors(m, config, env), AttributeName(s)) == if Resolve(config, env, s) == "" then 1 else 0
    ensures m.settingError(MissingValue, s) in MissingErrors(m, config, env) <==> Resolve(config, env, s) == ""
  {
    SettingsListed();
    SettingErrorsAttached(m, MissingValue);
    ReportCountsOnePerFlagged(Settings, MissingSettings(config, env), ErrorFor(m, MissingValue), s);
    ReportNamesFlagged(Settings, MissingSettings(config, env), ErrorFor(m, MissingValue), s);
  }

  /** No username configured and SALESFORCE_USERNAME unset: exactly one error on `username`. */
  lemma MissingUsernameReportedOnce(config: ProviderModel, env: map<string, string>)
    requires config.username.Null? && "SALESFORCE_USERNAME" !in env
    ensures CountAt(MissingErrors(ProviderMessages, config, env), "username") == 1
  {
    ProviderMessagesValid();
    MissingReportedOncePerSetting(ProviderMessages, config, env, Username);
  }

  /** A report over all eight settings holds an error exactly when some setting is flagged. */
  lemma ReportOfSettingsIsErrors(flagged: set<Setting>, errorFor: Setting -> Diagnostic)
    requires AttachedErrors(errorFor)
    ensures ContainsError(Report(Settings, flagged, errorFor)) <==> flagged != {}
    ensures Report(Settings, flagged, errorFor) == [] <==> flagged == {}
  {
    SettingsListed();
    ReportIsErrors(Settings, flagged, errorFor);
    if flagged != {} {
      var s :| s in flagged;
      ReportNamesFlagged(Settings, flagged, errorFor, s);
    }
  }

  /** The value resolution of Configure: the environment first, overridden by a non-null configured value. */
  method ResolveSettings(config: ProviderModel, env: map<string, string>)
    returns (apiHost: string, apiVersion: string, authHost: string, clientID: string,
             clientSecret: string, grantType: string, username: string, password: string)
    ensures apiHost == Resolve(config, env, ApiHost) && apiVersion == Resolve(config, env, ApiVersion)
    ensures authHost == Resolve(config, env, AuthHost) && clientID == Resolve(config, env, ClientID)
    ensures clientSecret == Resolve(config, env, ClientSecret) && grantType == Resolve(config, env, GrantType)
    ensures username == Resolve(config, env, Username) && password == Resolve(config, env, Password)
  {
    apiHost := Getenv(env, EnvVar(ApiHost));
    apiVersion := Getenv(env, EnvVar(ApiVersion));
    authHost := Getenv(env, EnvVar(AuthHost));
    clientID := Getenv(env, EnvVar(ClientID));
    clientSecret := Getenv(env, EnvVar(ClientSecret));
    grantType := Getenv(env, EnvVar(GrantType));
    username := Getenv(env, EnvVar(Username));
    password := Getenv(env, EnvVar(Password));

    if !config.apiHost.Null? { apiHost := config.apiHost.ValueString(); }
    if !config.apiVersion.Null? { apiVersion := config.apiVersion.ValueString(); }
    if !config.authHost.Null? { authHost := config.authHost.ValueString(); }
    if !config.clientID.Null? { clientID := config.clientID.ValueString(); }
    if !config.clientSecret.Null? { clientSecret := config.clientSecret.ValueString(); }
    if !config.grantType.Null? { grantType := config.grantType.ValueString(); }
    if !config.username.Null? { username := config.username.ValueString(); }
    if !config.password.Null? { password := config.password.ValueString(); }
  }

  // ---------------------------------------------------------------------------
  // The provider

  /** The data source's view of what the provider hands over (`any` in the source). */
  datatype ProviderData = NoData | ClientData(client: Client?) | OtherData(typeName: string)

  /** The constructors the provider registers. */
  datatype Factory = NewDescriptionDataSource

  const ProviderTypeName := "salesforce"

  const ClientErrorSummary := "Unable to Create Salesforce API Client"

  function ClientErrorDetail(err: Error): string {
    "An unexpected error occurred when creating the Salesforce API client. "
    + "If the error is not clear, please contact the provider developers.\n\n"
    + "Salesforce Client Error: " + err.Message()
  }

  /** provider.ConfigureResponse: diagnostics, and the client handed to data sources and resources. */
  class ProviderConfigureResponse {
    const diagnostics: Diagnostics
    var dataSourceData: ProviderData
    var resourceData: ProviderData

    constructor ()
      ensures fresh(diagnostics) && diagnostics.items == []
      ensures dataSourceData == NoData && resourceData == NoData
    {
      diagnostics := new Diagnostics();
      dataSourceData := NoData;
      resourceData := NoData;
    }
  }

  /**
   * The diagnostics Configure ends with, after the prior ones (those already
   * present and those of reading the configuration). An error among them
   * stops it; otherwise the unknown-value errors, if any, stop it; otherwise
   * the missing-value errors, if any, stop it; otherwise the token exchange's
   * error, if any, is reported.
   */
  function ConfigureDiagnostics(m: Messages, prior: seq<Diagnostic>, config: ProviderModel, env: map<string, string>,
                                exchangeError: Option<Error>): seq<Diagnostic>
  {
    if ContainsError(prior) then prior
    else if UnknownSettings(config) != {} then prior + UnknownErrors(m, config)
    else if MissingSettings(config, env) != {} then prior + MissingErrors(m, config, env)
    else if exchangeError.Some? then prior + [m.clientError(exchangeError.value)]
    else prior
  }

  /** Configure hands a client over exactly when none of its checks stops it. */
  predicate HandsOverClient(prior: seq<Diagnostic>, config: ProviderModel, env: map<string, string>,
                            exchangeError: Option<Error>)
  {
    && !ContainsError(prior)
    && UnknownSettings(config) == {}
    && MissingSettings(config, env) == {}
    && exchangeError.None?
  }

  /** The client is handed over exactly when Configure ends without an error. */
  lemma HandsOverExactlyWhenNoError(m: Messages, prior: seq<Diagnostic>, config: ProviderModel, env: map<string, string>,
                                    exchangeError: Option<Error>)
    requires m.Valid()
    ensures HandsOverClient(prior, config, env, exchangeError)
        <==> !ContainsError(ConfigureDiagnostics(m, prior, config, env, exchangeError))
  {
    SettingErrorsAttached(m, UnknownValue);
    SettingErrorsAttached(m, MissingValue);
    if ContainsError(prior) {
    } else if UnknownSettings(config) != {} {
      ReportOfSettingsIsErrors(UnknownSettings(config), ErrorFor(m, UnknownValue));
      ContainsErrorAppend(prior, UnknownErrors(m, config));
    } else if MissingSettings(config, env) != {} {
      ReportOfSettingsIsErrors(MissingSettings(config, env), ErrorFor(m, MissingValue));
      ContainsErrorAppend(prior, MissingErrors(m, config, env));
    } else if exchangeError.Some? {
      var e := [m.clientError(exchangeError.value)];
      assert e[0].severity == SeverityError;
      ContainsErrorAppend(prior, e);
    }
  }

  /**
   * The stage at which Configure stops, as it observes it: whether the
   * diagnostics hold an error after each of its appends.
   */
  lemma ConfigureStages(m: Messages, prior: seq<Diagnostic>, config: ProviderModel, env: map<string, string>,
                        exchangeError: Option<Error>)
    requires m.Valid()
    ensures ContainsError(prior) ==>
      ConfigureDiagnostics(m, prior, config, env, exchangeError) == prior
      && !HandsOverClient(prior, config, env, exchangeError)
    ensures !ContainsError(prior) && ContainsError(prior + UnknownErrors(m, config)) ==>
      ConfigureDiagnostics(m, prior, config, env, exchangeError) == prior + UnknownErrors(m, config)
      && !HandsOverClient(prior, config, env, exchangeError)
    ensures !ContainsError(prior + UnknownErrors(m, config)) ==> UnknownSettings(config) == {} && UnknownErrors(m, config) == []
    ensures !ContainsError(prior) && UnknownSettings(config) == {} && ContainsError(prior + MissingErrors(m, config, env)) ==>
      ConfigureDiagnostics(m, prior, config, env, exchangeError) == prior + MissingErrors(m, config, env)
      && !HandsOverClient(prior, config, env, exchangeError)
    ensures !ContainsError(prior + MissingErrors(m, config, env)) ==>
      MissingSettings(config, env) == {} && MissingErrors(m, config, env) == []
  {
    SettingErrorsAttached(m, UnknownValue);
    SettingErrorsAttached(m, MissingValue);
    ReportOfSettingsIsErrors(UnknownSettings(config), ErrorFor(m, UnknownValue));
    ReportOfSettingsIsErrors(MissingSettings(config, env), ErrorFor(m, MissingValue));
    ContainsErrorAppend(prior, UnknownErrors(m, config));
    ContainsErrorAppend(prior, MissingErrors(m, config, env));
  }

  /**
   * With an unknown value and no prior error, Configure reports each unknown
   * setting once on its attribute and nothing else, whatever the environment
   * and the token exchange would give.
   */
  lemma {:induction false} UnknownValuesStopConfigure(m: Messages, prior: seq<Diagnostic>, config: ProviderModel, env: map<string, string>,
                                   exchangeError: Option<Error>, s: Setting)
    requires m.Valid()
    requires !ContainsError(prior) && UnknownSettings(config) != {}
    ensures ConfigureDiagnostics(m, prior, config, env, exchangeError)[..|prior|] == prior
    ensures CountAt(ConfigureDiagnostics(m, prior, config, env, exchangeError), AttributeName(s))
         == CountAt(prior, AttributeName(s)) + (if config.Get(s).Unknown? then 1 else 0)
  {
    CountAtAppend(prior, UnknownErrors(m, config), AttributeName(s));
    UnknownReportedOncePerSetting(m, config, s);
  }

  /**
   * With every value known and no prior error, but some value resolving to
   * "", Configure reports each such setting once on its attribute, and the
   * token exchange is never reached.
   */
  lemma {:induction false} MissingValuesStopConfigure(m: Messages, prior: seq<Diagnostic>, config: ProviderModel, env: map<string, string>,
                                   exchangeError: Option<Error>, s: Setting)
    requires m.Valid()
    requires !ContainsError(prior) && UnknownSettings(config) == {} && MissingSettings(config, env) != {}
    ensures ConfigureDiagnostics(m, prior, config, env, exchangeError)[..|prior|] == prior
    ensures CountAt(ConfigureDiagnostics(m, prior, config, env, exchangeError), AttributeName(s))
         == CountAt(prior, AttributeName(s)) + (if Resolve(config, env, s) == "" then 1 else 0)
  {
    CountAtAppend(prior, MissingErrors(m, config, env), AttributeName(s));
    MissingReportedOncePerSetting(m, config, env, s);
  }

  class SalesforceProvider {
    const version: string

    /** New(version): a provider reporting the given version. */
    constructor (version: string)
      ensures this.version == version
    {
      this.version := version;
    }

    /** Metadata: the provider's type name and version. */
    method Metadata() returns (typeName: string, providerVersion: string)
      ensures typeName == ProviderTypeName && providerVersion == version
    {
      typeName := ProviderTypeName;
      providerVersion := version;
    }

    /** DataSources: the one description data source. */
    method DataSources() returns (factories: seq<Factory>)
      ensures factories == [NewDescriptionDataSource]
    {
      factories := [NewDescriptionDataSource];
    }

    /** Resources: none. */
    method Resources() returns (factories: seq<Factory>)
      ensures factories == []
    {
      factories := [];
    }

    /**
     * Configure. readDiagnostics are those of reading the provider block. Any
     * error so far stops it; then every unknown setting is reported and stops
     * it, before the environment is read; then every setting that resolves to
     * "" is reported and stops it; then the client is created with all eight
     * values (so the token exchange always runs) and, unless that fails, is
     * handed to data sources and resources alike.
     */
    method Configure(config: ProviderModel, readDiagnostics: seq<Diagnostic>, env: map<string, string>,
                     boundary: string, network: Transport, decodeToken: Decoder<RespBody>,
                     resp: ProviderConfigureResponse)
      modifies resp, resp.diagnostics
      ensures var exchange := ExchangeToken(ResolvedAuth(config, env), boundary, network, decodeToken);
        resp.diagnostics.items == ConfigureDiagnostics(ProviderMessages, old(resp.diagnostics.items) + readDiagnostics, config, env, exchange.1)
      ensures var exchange := ExchangeToken(ResolvedAuth(config, env), boundary, network, decodeToken);
        !HandsOverClient(old(resp.diagnostics.items) + readDiagnostics, config, env, exchange.1) ==>
          resp.dataSourceData == old(resp.dataSourceData) && resp.resourceData == old(resp.resourceData)
      ensures var exchange := ExchangeToken(ResolvedAuth(config, env), boundary, network, decodeToken);
        HandsOverClient(old(resp.diagnostics.items) + readDiagnostics, config, env, exchange.1) ==>
          && resp.dataSourceData.ClientData?
          && resp.resourceData == resp.dataSourceData
          && var c := resp.dataSourceData.client;
          && c != null && fresh(c)
          && c.hostURL == Resolve(config, env, ApiHost)
          && c.apiVersion == Resolve(config, env, ApiVersion)
          && c.httpClient == network
          && c.auth == ResolvedAuth(config, env).(bearerToken := exchange.0)
    {
      ProviderMessagesValid();
      ConfigureWith(ProviderMessages, config, readDiagnostics, env, boundary, network, decodeToken, resp);
    }

    /** The steps of Configure, for any messages that are errors on the right attributes. */
    method ConfigureWith(messages: Messages, config: ProviderModel, readDiagnostics: seq<Diagnostic>,
                         env: map<string, string>, boundary: string, network: Transport,
                         decodeToken: Decoder<RespBody>, resp: ProviderConfigureResponse)
      requires messages.Valid()
      modifies resp, resp.diagnostics
      ensures var exchange := ExchangeToken(ResolvedAuth(config, env), boundary, network, decodeToken);
        resp.diagnostics.items == ConfigureDiagnostics(messages, old(resp.diagnostics.items) + readDiagnostics, config, env, exchange.1)
      ensures var exchange := ExchangeToken(ResolvedAuth(config, env), boundary, network, decodeToken);
        !HandsOverClient(old(resp.diagnostics.items) + readDiagnostics, config, env, exchange.1) ==>
          resp.dataSourceData == old(resp.dataSourceData) && resp.resourceData == old(resp.resourceData)
      ensures var exchange := ExchangeToken(ResolvedAuth(config, env), boundary, network, decodeToken);
        HandsOverClient(old(resp.diagnostics.items) + readDiagnostics, config, env, exchange.1) ==>
          && resp.dataSourceData.ClientData?
          && resp.resourceData == resp.dataSourceData
          && var c := resp.dataSourceData.client;
          && c != null && fresh(c)
          && c.hostURL == Resolve(config, env, ApiHost)
          && c.apiVersion == Resolve(config, env, ApiVersion)
          && c.httpClient == network
          && c.auth == ResolvedAuth(config, env).(bearerToken := exchange.0)
    {
      resp.diagnostics.Append(readDiagnostics);
      ghost var prior := resp.diagnostics.items;
      ghost var exchange := ExchangeToken(ResolvedAuth(config, env), boundary, network, decodeToken);
      ConfigureStages(messages, prior, config, env, exchange.1);
      if resp.diagnostics.HasError() {
        return;
      }

      // the eight unknown-value checks, all made before any of them stops Configure
      resp.diagnostics.Append(UnknownErrors(messages, config));
      if resp.diagnostics.HasError() {
        return;
      }
      assert resp.diagnostics.items == prior;

      var apiHost, apiVersion, authHost, clientID, clientSecret, grantType, username, password
        := ResolveSettings(config, env);

      // the eight missing-value checks on the resolved values, likewise all made
      resp.diagnostics.Append(MissingErrors(messages, config, env));
      if resp.diagnostics.HasError() {
        return;
      }
      assert resp.diagnostics.items == prior;

      var client, err := NewClient(Some(apiHost), Some(apiVersion), Some(authHost), Some(clientID),
                                   Some(clientSecret), Some(grantType), Some(username), Some(password),
                                   boundary, network, decodeToken);
      assert ResolvedAuth(config, env) == Credentials(authHost, clientID, clientSecret, grantType, username, password);
      if err.Some? {
        var d := messages.clientError(err.value);
        resp.diagnostics.AddError(d.summary, d.detail);
        return;
      }
      resp.dataSourceData := ClientData(client);
      resp.resourceData := ClientData(client);
    }
  }

  // ---------------------------------------------------------------------------
  // The description data source

  /** One field as stored in state. */
  datatype FieldModel = FieldModel(name: StringValue, labelText: StringValue, typeName: StringValue)

  /** The data source's state: id, name, label and fields. */
  datatype DescriptionModel = DescriptionModel(id: StringValue, name: StringValue, labelText: StringValue,
                                               fields: seq<FieldModel>)

  const PlaceholderID := "placeholder"
  const DataSourceSuffix := "_description"

  function FieldModelOf(f: DescriptionField): FieldModel {
    FieldModel(Known(f.name), Known(f.labelText), Known(f.typeName))
  }

  /** The state models of a description's fields, in the description's order. */
  function FieldModels(fs: seq<DescriptionField>): seq<FieldModel> {
    if fs == [] then [] else FieldModels(fs[..|fs| - 1]) + [FieldModelOf(fs[|fs| - 1])]
  }

  /** One model per field, at the field's own position, with its name, label and type. */
  lemma {:induction false} FieldModelsPreserveOrder(fs: seq<DescriptionField>)
    ensures |FieldModels(fs)| == |fs|
    ensures forall i :: 0 <= i < |fs| ==> FieldModels(fs)[i] == FieldModelOf(fs[i])
  {
    if fs != [] {
      FieldModelsPreserveOrder(fs[..|fs| - 1]);
    }
  }

  /** The state Read stores: the input's fields followed by the description's, a placeholder id, and the fetched name and label. */
  function ReadState(config: DescriptionModel, d: Description): DescriptionModel {
    config.(id := Known(PlaceholderID), name := Known(d.name), labelText := Known(d.labelText),
            fields := config.fields + FieldModels(d.fields))
  }

  /** The description a state holds, read back field by field. */
  function StateFields(ms: seq<FieldModel>): seq<DescriptionField> {
    if ms == [] then []
    else StateFields(ms[..|ms| - 1])
         + [DescriptionField(ms[|ms| - 1].name.ValueString(), ms[|ms| - 1].labelText.ValueString(),
                             ms[|ms| - 1].typeName.ValueString())]
  }

  function StateDescription(m: DescriptionModel): Description {
    Description(m.name.ValueString(), m.labelText.ValueString(), StateFields(m.fields))
  }

  lemma {:induction false} StateFieldsOfFieldModels(fs: seq<DescriptionField>)
    ensures StateFields(FieldModels(fs)) == fs
  {
    if fs != [] {
      var init := fs[..|fs| - 1];
      StateFieldsOfFieldModels(init);
      var ms := FieldModels(fs);
      assert ms[..|ms| - 1] == FieldModels(init);
      assert fs == init + [fs[|fs| - 1]];
    }
  }

  /**
   * Read loses nothing: from a configuration without fields, the stored state
   * holds exactly the fetched description, fields in order, and its id is the
   * placeholder.
   */
  lemma ReadStateRoundTrip(config: DescriptionModel, d: Description)
    requires config.fields == []
    ensures StateDescription(ReadState(config, d)) == d
    ensures ReadState(config, d).id == Known(PlaceholderID)
  {
    StateFieldsOfFieldModels(d.fields);
    assert config.fields + FieldModels(d.fields) == FieldModels(d.fields);
  }

  /** Only the input's fields reach the state; its id, name and label are replaced. */
  lemma ReadStateIgnoresInputScalars(c1: DescriptionModel, c2: DescriptionModel, d: Description)
    requires c1.fields == c2.fields
    ensures ReadState(c1, d) == ReadState(c2, d)
  {
  }

  /** datasource.ConfigureResponse: its diagnostics. */
  class DataSourceConfigureResponse {
    const diagnostics: Diagnostics

    constructor ()
      ensures fresh(diagnostics) && diagnostics.items == []
    {
      diagnostics := new Diagnostics();
    }
  }

  /** datasource.ReadResponse: diagnostics and the state, None until it is set. */
  class ReadResponse {
    const diagnostics: Diagnostics
    var state: Option<DescriptionModel>

    constructor ()
      ensures fresh(diagnostics) && diagnostics.items == [] && state == None
    {
      diagnostics := new Diagnostics();
      state := None;
    }
  }

  const ConfigureTypeSummary := "Unexpected Data Source Configure Type"
  const ReadErrorSummary := "Unable to Read Salesforce descriptions"

  function ConfigureTypeDetail(typeName: string): string {
    "Expected *salesforce.Client, got: " + typeName + ". Please report this issue to the provider developers."
  }

  /** The `salesforce_description` data source. */
  class DescriptionDataSource {
    var client: Client?

    /** NewDescriptionDataSource: no client until Configure adopts one. */
    constructor ()
      ensures client == null
    {
      client := null;
    }

    /**
     * Configure: no provider data leaves everything as it is; data that is not
     * a client adds one error and leaves the client as it is; a client is
     * adopted as given.
     */
    method Configure(providerData: ProviderData, resp: DataSourceConfigureResponse)
      modifies this, resp.diagnostics
      ensures providerData.NoData? ==> client == old(client) && resp.diagnostics.items == old(resp.diagnostics.items)
      ensures providerData.OtherData? ==>
        && client == old(client)
        && resp.diagnostics.items == old(resp.diagnostics.items)
             + [PlainError(ConfigureTypeSummary, ConfigureTypeDetail(providerData.typeName))]
      ensures providerData.ClientData? ==>
        client == providerData.client && resp.diagnostics.items == old(resp.diagnostics.items)
    {
      match providerData
      case NoData =>
        return;
      case OtherData(typeName) =>
        resp.diagnostics.AddError(ConfigureTypeSummary, ConfigureTypeDetail(typeName));
        return;
      case ClientData(c) =>
        client := c;
    }

    /** Metadata: the provider's type name followed by "_description". */
    method Metadata(providerTypeName: string) returns (typeName: string)
      ensures |typeName| == |providerTypeName| + |DataSourceSuffix|
      ensures typeName[..|providerTypeName|] == providerTypeName
      ensures typeName[|providerTypeName|..] == DataSourceSuffix
    {
      typeName := providerTypeName + DataSourceSuffix;
    }

    /**
     * Read: fetch the description named in the configuration. A failed fetch
     * adds one error with the error's text and leaves the state unset;
     * otherwise the state gets the fetched fields appended in order, the
     * placeholder id, and the fetched name and label.
     * A data source that was never given a client cannot read.
     */
    method Read(config: DescriptionModel, decode: Decoder<Description>, resp: ReadResponse)
      requires client != null
      modifies resp, resp.diagnostics
      ensures var fetched := Describe(client.hostURL, client.apiVersion, client.auth.bearerToken,
                                      config.name.ValueString(), client.httpClient, decode);
        if fetched.1.Some? then
          && resp.diagnostics.items == old(resp.diagnostics.items) + [PlainError(ReadErrorSummary, fetched.1.value.Message())]
          && resp.state == old(resp.state)
        else
          && resp.diagnostics.items == old(resp.diagnostics.items)
          && resp.state == Some(ReadState(config, fetched.0.value))
    {
      var state := config;
      var description, err := client.GetDescription(state.name.ValueString(), decode);
      if err.Some? {
        resp.diagnostics.AddError(ReadErrorSummary, err.value.Message());
        return;
      }
      var fetched := description.value;

      for i := 0 to |fetched.fields|
        invariant state == config.(fields := config.fields + FieldModels(fetched.fields[..i]))
      {
        var col := FieldModelOf(fetched.fields[i]);
        assert fetched.fields[..i + 1][..i] == fetched.fields[..i];
        state := state.(fields := state.fields + [col]);
      }
      assert fetched.fields[..|fetched.fields|] == fetched.fields;

      state := state.(id := Known(PlaceholderID));
      state := state.(name := Known(fetched.name));
      state := state.(labelText := Known(fetched.labelText));
      resp.state := Some(state);
    }
  }

  /** The data source registers as `salesforce_description`. */
  lemma DescriptionTypeName()
    ensures ProviderTypeName + DataSourceSuffix == "salesforce_description"
  {
  }
}
