/**
 * The settings record of the service, the runtime environment selector
 * (`local` or `production`) with its case-insensitive parser, the rule that
 * picks the environment's configuration file, and the conversion of the
 * database settings into client options.
 */
module Configuration {
  import opened Wrappers
  import opened BoundedInts

  // ---------------------------------------------------------------------------
  // Settings records (read-only values produced by configuration loading)
  // ---------------------------------------------------------------------------

  datatype HttpSettings = HttpSettings(port: uint16, host: string, prefix: string, timeout: uint64)

  datatype ApplicationSettings = ApplicationSettings(name: string, version: string)

  /** `password` is a secret string; only its exposed text matters here. */
  datatype DatabaseSettings = DatabaseSettings(
    username: string,
    password: string,
    port: uint16,
    hosts: seq<string>,
    database: string,
    ssl: bool)

  datatype OpenTelemetrySettings = OpenTelemetrySettings(endpoint: string, enable: bool)

  datatype PrometheusSettings = PrometheusSettings(port: uint16, path: string)

  datatype Settings = Settings(
    database: DatabaseSettings,
    application: ApplicationSettings,
    http: HttpSettings,
    otel: OpenTelemetrySettings,
    prometheus: PrometheusSettings,
    env: Environment)

  // ---------------------------------------------------------------------------
  // Environment selector
  // ---------------------------------------------------------------------------

  /** The possible runtime environments of the application. */
  datatype Environment = Local | Production

  predicate IsAsciiUpper(c: char) {
    'A' <= c <= 'Z'
  }

  /** ASCII case mapping of one character; every other character is kept. */
  function AsciiLower(c: char): (d: char)
    ensures !IsAsciiUpper(d)
    ensures IsAsciiUpper(c) ==> d as int == c as int + 32
    ensures !IsAsciiUpper(c) ==> d == c
  {
    if IsAsciiUpper(c) then (c as int + 32) as char else c
  }

  /** Lower-cases a string character by character (ASCII letters only). */
  function Lowercase(s: string): (r: string)
    ensures |r| == |s|
    ensures forall i :: 0 <= i < |s| ==> r[i] == AsciiLower(s[i])
  {
    if s == [] then [] else [AsciiLower(s[0])] + Lowercase(s[1..])
  }

  /** A string without upper-case letters is its own lower-case form. */
  lemma LowercaseFixesLower(s: string)
    requires forall i :: 0 <= i < |s| ==> !IsAsciiUpper(s[i])
    ensures Lowercase(s) == s
  {
  }

  /** Lower-casing twice is lower-casing once. */
  lemma LowercaseIdempotent(s: string)
    ensures Lowercase(Lowercase(s)) == Lowercase(s)
  {
  }

  /** The canonical, lower-case name of an environment. */
  function AsStr(e: Environment): (s: string)
    ensures Lowercase(s) == s
    ensures |s| > 0
  {
    var s := match e
      case Local => "local"
      case Production => "production";
    LowercaseFixesLower(s);
    s
  }

  lemma AsStrInjective(a: Environment, b: Environment)
    ensures AsStr(a) == AsStr(b) <==> a == b
  {
  }

  const UnsupportedEnvironmentSuffix: string :=
    " is not a supported environment. Use either `local` or `production`."

  /**
   * Parses an environment name, ignoring case. Any other name is rejected
   * with a message that starts with the lower-cased input.
   */
  function TryFromString(s: string): (r: Result<Environment, string>)
    ensures r.Ok? <==> Lowercase(s) == "local" || Lowercase(s) == "production"
    ensures r.Ok? ==> AsStr(r.value) == Lowercase(s)
    ensures r.Err? ==> |Lowercase(s)| < |r.error| && r.error[..|Lowercase(s)|] == Lowercase(s)
  {
    var lower := Lowercase(s);
    if lower == "local" then Ok(Local)
    else if lower == "production" then Ok(Production)
    else
      var message := lower + UnsupportedEnvironmentSuffix;
      assert message[..|lower|] == lower;
      Err(message)
  }

  /** Printing then parsing gives back the environment. */
  lemma RoundTrip(e: Environment)
    ensures TryFromString(AsStr(e)) == Ok(e)
  {
  }

  /** Parsing depends on the input only through its lower-case form. */
  lemma TryFromStringIgnoresCase(s: string)
    ensures TryFromString(Lowercase(s)) == TryFromString(s)
  {
  }

  /** Two accepted inputs name the same environment exactly when they agree up to case. */
  lemma SameEnvironmentIffSameLowercase(s: string, t: string)
    requires TryFromString(s).Ok? && TryFromString(t).Ok?
    ensures TryFromString(s) == TryFromString(t) <==> Lowercase(s) == Lowercase(t)
  {
    AsStrInjective(TryFromString(s).value, TryFromString(t).value);
  }

  /** An upper-case name is accepted. */
  lemma ParsesUpperCase()
    ensures TryFromString("LOCAL") == Ok(Local)
  {
  }

  /** A name other than the two is refused, and the message names it. */
  lemma RejectsOtherName()
    ensures TryFromString("Staging").Err?
    ensures TryFromString("Staging").error[..7] == "staging"
  {
  }

  // ---------------------------------------------------------------------------
  // Environment and configuration-file selection
  // ---------------------------------------------------------------------------

  /**
   * The environment selected from the value of APP_ENVIRONMENT (`None` when
   * the variable is unset or not valid Unicode), which defaults to `local`.
   * `Err` is the message of the parse failure, on which the process panics.
   */
  function SelectEnvironment(appEnvironment: Option<string>): (r: Result<Environment, string>)
    ensures appEnvironment.None? ==> r == Ok(Local)
    ensures appEnvironment.Some? && r.Ok? ==> AsStr(r.value) == Lowercase(appEnvironment.value)
    ensures r.Err? <==>
      appEnvironment.Some? && Lowercase(appEnvironment.value) != "local"
      && Lowercase(appEnvironment.value) != "production"
  {
    var name := match appEnvironment
      case Some(v) => v
      case None => "local";
    RoundTrip(Local);
    TryFromString(name)
  }

  const YamlExtension: string := ".yaml"

  /** The name of the environment-specific configuration file, all lower-case. */
  function EnvironmentFilename(e: Environment): (f: string)
    ensures Lowercase(f) == f
    ensures |f| > |YamlExtension|
    ensures f[|f| - |YamlExtension|..] == YamlExtension
    ensures TryFromString(f[..|f| - |YamlExtension|]) == Ok(e)
  {
    var f := AsStr(e) + YamlExtension;
    assert f[..|f| - |YamlExtension|] == AsStr(e);
    RoundTrip(e);
    LowercaseFixesLower(f);
    f
  }

  /** Unset APP_ENVIRONMENT selects `local.yaml`. */
  lemma DefaultEnvironmentFile()
    ensures SelectEnvironment(None) == Ok(Local)
    ensures EnvironmentFilename(Local) == "local.yaml"
  {
  }

  // ---------------------------------------------------------------------------
  // Database client options
  // ---------------------------------------------------------------------------

  datatype TlsOptions = DefaultTlsOptions

  datatype Tls = Enabled(options: TlsOptions)

  datatype Credential = Credential(username: Option<string>, password: Option<string>)

  /** The client options built for the database driver; `A` is a parsed server address. */
  datatype ClientOptions<A> = ClientOptions(
    hosts: seq<A>,
    credential: Option<Credential>,
    defaultDatabase: Option<string>,
    tls: Option<Tls>,
    appName: Option<string>)

  const ClientAppName: string := "scrum-discord-bot"

  /** TLS with default options when `ssl` is set, no TLS setting otherwise. */
  function SslMode(ssl: bool): (t: Option<Tls>)
    ensures t.Some? <==> ssl
    ensures t.Some? ==> t.value.options == DefaultTlsOptions
  {
    if ssl then Some(Enabled(DefaultTlsOptions)) else None
  }

  /**
   * Builds the client options. `parse` is the driver's server-address parser;
   * the first host it rejects aborts the conversion with its error.
   */
  method ConnectOptions<A>(db: DatabaseSettings, parse: string -> Result<A, string>)
    returns (r: Result<ClientOptions<A>, string>)
    ensures r.Ok? <==> forall i :: 0 <= i < |db.hosts| ==> parse(db.hosts[i]).Ok?
    ensures r.Ok? ==>
      && |r.value.hosts| == |db.hosts|
      && forall i :: 0 <= i < |db.hosts| ==> parse(db.hosts[i]) == Ok(r.value.hosts[i])
    ensures r.Ok? ==>
      && r.value.tls == SslMode(db.ssl)
      && r.value.credential == Some(Credential(Some(db.username), Some(db.password)))
      && r.value.defaultDatabase == Some(db.database)
      && r.value.appName == Some(ClientAppName)
    ensures r.Err? ==>
      exists k :: 0 <= k < |db.hosts|
        && (forall i :: 0 <= i < k ==> parse(db.hosts[i]).Ok?)
        && parse(db.hosts[k]) == Err(r.error)
  {
    var sslMode := SslMode(db.ssl);
    var credential := Credential(Some(db.username), Some(db.password));
    var hosts: seq<A> := [];
    for i := 0 to |db.hosts|
      invariant |hosts| == i
      invariant forall j :: 0 <= j < i ==> parse(db.hosts[j]) == Ok(hosts[j])
    {
      var parsedHost := parse(db.hosts[i]);
      if parsedHost.Err? {
        return Err(parsedHost.error);
      }
      hosts := hosts + [parsedHost.value];
    }
    r := Ok(ClientOptions(hosts, Some(credential), Some(db.database), sslMode, Some(ClientAppName)));
  }
}
