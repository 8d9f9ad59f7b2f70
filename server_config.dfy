/**
 * The server's configuration: which `.env` file is loaded, the configuration
 * record built from the process environment with its three defaults, and the
 * start-up validation that throws on the first missing required variable or
 * on a redirect URI that is not a URL. The environment is a map from variable
 * names to their text; a name not in the map is unset. Whether a text parses
 * as a URL is the caller-supplied predicate `isValidUrl`.
 */
module ServerConfig {
  import opened Wrappers

  type Env = map<string, string>

  /** The environment variables the configuration reads. */
  datatype Var =
    | NodeEnv | MysqlUser | MysqlPw | MysqlHost | MysqlName | Port | FrontendUrl
    | GoogleClientId | GoogleClientSecret | GoogleRedirectUri
    | SpotifyClientId | SpotifyClientSecret | SpotifyRedirectUri
    | SessionSecret | CookieSecret | DatabaseUrl
  {
    /** The variable's name in the environment and its key in the configuration object. */
    function Name(): string {
      match this
      case NodeEnv => "NODE_ENV"
      case MysqlUser => "MYSQL_USER"
      case MysqlPw => "MYSQL_PW"
      case MysqlHost => "MYSQL_HOST"
      case MysqlName => "MYSQL_NAME"
      case Port => "PORT"
      case FrontendUrl => "FRONTEND_URL"
      case GoogleClientId => "GOOGLE_CLIENT_ID"
      case GoogleClientSecret => "GOOGLE_CLIENT_SECRET"
      case GoogleRedirectUri => "GOOGLE_REDIRECT_URI"
      case SpotifyClientId => "SPOTIFY_CLIENT_ID"
      case SpotifyClientSecret => "SPOTIFY_CLIENT_SECRET"
      case SpotifyRedirectUri => "SPOTIFY_REDIRECT_URI"
      case SessionSecret => "SESSION_SECRET"
      case CookieSecret => "COOKIE_SECRET"
      case DatabaseUrl => "DATABASE_URL"
    }
  }

  /** The JavaScript values a configuration entry can hold. */
  datatype Value = Undefined | Str(text: string) | Num(n: int)

  predicate Truthy(v: Value) {
    match v
    case Undefined => false
    case Str(s) => s != ""
    case Num(n) => n != 0
  }

  /** `process.env[NAME]`. */
  function Lookup(env: Env, v: Var): Value {
    if v.Name() in env then Str(env[v.Name()]) else Undefined
  }

  /** The variable's text, empty when unset. */
  function Text(env: Env, v: Var): string {
    if v.Name() in env then env[v.Name()] else ""
  }

  /** Set and not empty. */
  predicate Present(env: Env, v: Var) {
    v.Name() in env && env[v.Name()] != ""
  }

  const DEFAULT_NODE_ENV: string := "development"
  const DEFAULT_PORT: int := 8888
  const DEFAULT_FRONTEND_URL: string := "http://localhost:3000"

  /**
   * The dotenv file read at start-up, chosen from the environment as it is
   * before that file is loaded: `.env.<NODE_ENV>` for a non-empty NODE_ENV,
   * `.env` otherwise.
   */
  function EnvFile(env: Env): (file: string)
    ensures Present(env, NodeEnv) ==> file == ".env." + Text(env, NodeEnv)
    ensures !Present(env, NodeEnv) ==> file == ".env"
  {
    var nodeEnv := Lookup(env, NodeEnv);
    if Truthy(nodeEnv) then ".env." + nodeEnv.text else ".env"
  }

  /** The configuration object; entries copied from the environment may be undefined. */
  datatype Config = Config(
    nodeEnv: string,
    mysqlUser: Value,
    mysqlPw: Value,
    mysqlHost: Value,
    mysqlName: Value,
    port: Value,
    frontendUrl: string,
    googleClientId: Value,
    googleClientSecret: Value,
    googleRedirectUri: Value,
    spotifyClientId: Value,
    spotifyClientSecret: Value,
    spotifyRedirectUri: Value,
    sessionSecret: Value,
    cookieSecret: Value,
    databaseUrl: Value)
  {
    /** `config[v.Name()]`. */
    function Field(v: Var): Value {
      match v
      case NodeEnv => Str(nodeEnv)
      case MysqlUser => mysqlUser
      case MysqlPw => mysqlPw
      case MysqlHost => mysqlHost
      case MysqlName => mysqlName
      case Port => port
      case FrontendUrl => Str(frontendUrl)
      case GoogleClientId => googleClientId
      case GoogleClientSecret => googleClientSecret
      case GoogleRedirectUri => googleRedirectUri
      case SpotifyClientId => spotifyClientId
      case SpotifyClientSecret => spotifyClientSecret
      case SpotifyRedirectUri => spotifyRedirectUri
      case SessionSecret => sessionSecret
      case CookieSecret => cookieSecret
      case DatabaseUrl => databaseUrl
    }
  }

  /** The variables the object copies from the environment unchanged. */
  predicate Copied(v: Var) {
    !(v.NodeEnv? || v.Port? || v.FrontendUrl?)
  }

  /** The variables start-up insists on, in the order they are checked. */
  const REQUIRED: seq<Var> := [
    MysqlUser, MysqlPw, MysqlHost, MysqlName,
    GoogleClientId, GoogleClientSecret, GoogleRedirectUri,
    SpotifyClientId, SpotifyClientSecret, SpotifyRedirectUri,
    SessionSecret, CookieSecret]

  /** The variables whose text must parse as a URL, in the order they are checked. */
  const URI_VARS: seq<Var> := [GoogleRedirectUri, SpotifyRedirectUri]

  /** `v ?? fallback` for an environment entry: the fallback only when the entry is undefined. */
  function Nullish(v: Value, fallback: string): string {
    match v
    case Str(s) => s
    case _ => fallback
  }

  /**
   * The configuration object built from the environment after the dotenv
   * file is loaded. NODE_ENV and FRONTEND_URL fall back to their defaults
   * only when unset (an empty text is kept); PORT falls back to the number
   * 8888 whenever it is unset or empty. Every other entry is the
   * environment's, unset included.
   */
  function BuildConfig(env: Env): (c: Config)
    ensures NodeEnv.Name() in env ==> c.nodeEnv == Text(env, NodeEnv)
    ensures NodeEnv.Name() !in env ==> c.nodeEnv == DEFAULT_NODE_ENV
    ensures Present(env, Port) ==> c.port == Str(Text(env, Port))
    ensures !Present(env, Port) ==> c.port == Num(DEFAULT_PORT)
    ensures FrontendUrl.Name() in env ==> c.frontendUrl == Text(env, FrontendUrl)
    ensures FrontendUrl.Name() !in env ==> c.frontendUrl == DEFAULT_FRONTEND_URL
    ensures forall v :: Copied(v) ==> c.Field(v) == Lookup(env, v)
  {
    var port := Lookup(env, Port);
    Config(
      nodeEnv := Nullish(Lookup(env, NodeEnv), DEFAULT_NODE_ENV),
      mysqlUser := Lookup(env, MysqlUser),
      mysqlPw := Lookup(env, MysqlPw),
      mysqlHost := Lookup(env, MysqlHost),
      mysqlName := Lookup(env, MysqlName),
      port := if Truthy(port) then port else Num(DEFAULT_PORT),
      frontendUrl := Nullish(Lookup(env, FrontendUrl), DEFAULT_FRONTEND_URL),
      googleClientId := Lookup(env, GoogleClientId),
      googleClientSecret := Lookup(env, GoogleClientSecret),
      googleRedirectUri := Lookup(env, GoogleRedirectUri),
      spotifyClientId := Lookup(env, SpotifyClientId),
      spotifyClientSecret := Lookup(env, SpotifyClientSecret),
      spotifyRedirectUri := Lookup(env, SpotifyRedirectUri),
      sessionSecret := Lookup(env, SessionSecret),
      cookieSecret := Lookup(env, CookieSecret),
      databaseUrl := Lookup(env, DatabaseUrl))
  }

  /**
   * The position of the first element satisfying `p`, as a `forEach` that
   * throws on it would stop there; None when no element does.
   */
  function FirstWhere<T>(xs: seq<T>, p: T -> bool): (r: Option<nat>)
    ensures r.Some? ==> r.value < |xs| && p(xs[r.value])
    ensures r.Some? ==> forall i :: 0 <= i < r.value ==> !p(xs[i])
    ensures r.None? ==> forall i :: 0 <= i < |xs| ==> !p(xs[i])
  {
    if xs == [] then None
    else if p(xs[0]) then Some(0)
    else match FirstWhere(xs[1..], p)
      case None => None
      case Some(k) => Some(k + 1)
  }

  datatype ConfigError =
    | MissingVariable(variable: Var)
    | InvalidUrl(variable: Var, value: string)

  /**
   * The text of the error start-up throws: a missing variable's message ends
   * with its name, an invalid URL's message ends with the rejected text.
   */
  function ErrorMessage(e: ConfigError): (msg: string)
    ensures e.MissingVariable? ==> |e.variable.Name()| <= |msg| && msg[|msg| - |e.variable.Name()|..] == e.variable.Name()
    ensures e.InvalidUrl? ==> |e.value| <= |msg| && msg[|msg| - |e.value|..] == e.value
  {
    match e
    case MissingVariable(v) => "Missing required environment variable: " + v.Name()
    case InvalidUrl(v, value) => "Invalid URL format for " + v.Name() + ": " + value
  }

  /** A set, non-empty entry that `isValidUrl` rejects. */
  predicate RejectedUrl(v: Value, isValidUrl: string -> bool) {
    Truthy(v) && v.Str? && !isValidUrl(v.text)
  }

  /** Where the required-variable check throws: the first required entry that is falsy. */
  function MissingAt(c: Config): (r: Option<nat>)
    ensures r.Some? ==> r.value < |REQUIRED| && !Truthy(c.Field(REQUIRED[r.value]))
    ensures r.Some? ==> forall i :: 0 <= i < r.value ==> Truthy(c.Field(REQUIRED[i]))
    ensures r.None? ==> forall i :: 0 <= i < |REQUIRED| ==> Truthy(c.Field(REQUIRED[i]))
  {
    FirstWhere(REQUIRED, v => !Truthy(c.Field(v)))
  }

  /** Where the redirect-URI check throws: the first set entry that `isValidUrl` rejects. */
  function RejectedAt(c: Config, isValidUrl: string -> bool): (r: Option<nat>)
    ensures r.Some? ==> r.value < |URI_VARS| && RejectedUrl(c.Field(URI_VARS[r.value]), isValidUrl)
    ensures r.Some? ==> forall i :: 0 <= i < r.value ==> !RejectedUrl(c.Field(URI_VARS[i]), isValidUrl)
    ensures r.None? ==> forall i :: 0 <= i < |URI_VARS| ==> !RejectedUrl(c.Field(URI_VARS[i]), isValidUrl)
  {
    FirstWhere(URI_VARS, v => RejectedUrl(c.Field(v), isValidUrl))
  }

  /**
   * Start-up: build the configuration, then throw on the first required
   * variable that is unset or empty, then on the first redirect URI that is
   * not a URL; otherwise the configuration is exported.
   */
  function Validate(env: Env, isValidUrl: string -> bool): (r: Result<Config, ConfigError>)
    ensures r.Success? ==> r.value == BuildConfig(env)
    ensures r.Failure? && r.error.MissingVariable? ==> r.error.variable in REQUIRED
    ensures r.Failure? && r.error.InvalidUrl? ==> r.error.variable in URI_VARS
  {
    var c := BuildConfig(env);
    match MissingAt(c)
    case Some(k) => Failure(MissingVariable(REQUIRED[k]))
    case None =>
      match RejectedAt(c, isValidUrl)
      case Some(k) => Failure(InvalidUrl(URI_VARS[k], c.Field(URI_VARS[k]).text))
      case None => Success(c)
  }

  /** A required variable's entry is truthy exactly when the variable is set and not empty. */
  lemma RequiredTruthy(env: Env, v: Var)
    requires v in REQUIRED
    ensures Truthy(BuildConfig(env).Field(v)) == Present(env, v)
    ensures Truthy(BuildConfig(env).Field(v)) ==> BuildConfig(env).Field(v) == Str(Text(env, v))
  {
  }

  /** Where each required variable stands in the check order. */
  function RequiredPosition(v: Var): int {
    match v
    case MysqlUser => 0
    case MysqlPw => 1
    case MysqlHost => 2
    case MysqlName => 3
    case GoogleClientId => 4
    case GoogleClientSecret => 5
    case GoogleRedirectUri => 6
    case SpotifyClientId => 7
    case SpotifyClientSecret => 8
    case SpotifyRedirectUri => 9
    case SessionSecret => 10
    case CookieSecret => 11
    case _ => -1
  }

  /** No variable is listed twice. */
  lemma RequiredDistinct()
    ensures forall i, j :: 0 <= i < j < |REQUIRED| ==> REQUIRED[i] != REQUIRED[j]
  {
    forall i | 0 <= i < |REQUIRED|
      ensures RequiredPosition(REQUIRED[i]) == i
    {
    }
  }

  ghost predicate AllRequiredPresent(env: Env) {
    forall i :: 0 <= i < |REQUIRED| ==> Present(env, REQUIRED[i])
  }

  /** The required-variable check stops at the first variable that is unset or empty. */
  lemma MissingAtFirstAbsent(env: Env)
    ensures var m := MissingAt(BuildConfig(env));
      && (m.None? <==> AllRequiredPresent(env))
      && (m.Some? ==> m.value < |REQUIRED| && !Present(env, REQUIRED[m.value]))
      && (m.Some? ==> forall i :: 0 <= i < m.value ==> Present(env, REQUIRED[i]))
  {
    forall i | 0 <= i < |REQUIRED|
      ensures Truthy(BuildConfig(env).Field(REQUIRED[i])) == Present(env, REQUIRED[i])
    {
      RequiredTruthy(env, REQUIRED[i]);
    }
  }

  /** The redirect-URI check tries Google's first, then Spotify's, on their environment text. */
  lemma RejectedAtOrder(env: Env, isValidUrl: string -> bool)
    requires AllRequiredPresent(env)
    ensures RejectedAt(BuildConfig(env), isValidUrl) ==
      if !isValidUrl(Text(env, GoogleRedirectUri)) then Some(0)
      else if !isValidUrl(Text(env, SpotifyRedirectUri)) then Some(1)
      else None
    ensures forall k :: 0 <= k < |URI_VARS| ==>
      BuildConfig(env).Field(URI_VARS[k]) == Str(Text(env, URI_VARS[k]))
  {
    assert REQUIRED[6] == GoogleRedirectUri && REQUIRED[9] == SpotifyRedirectUri;
    RequiredTruthy(env, GoogleRedirectUri);
    RequiredTruthy(env, SpotifyRedirectUri);
  }

  /**
   * Validation fails naming a required variable exactly when that variable is
   * unset or empty and every variable before it in the list is set.
   */
  lemma MissingIsFirstAbsent(env: Env, isValidUrl: string -> bool, k: nat)
    requires k < |REQUIRED|
    ensures Validate(env, isValidUrl) == Failure(MissingVariable(REQUIRED[k]))
      <==> !Present(env, REQUIRED[k]) && forall i :: 0 <= i < k ==> Present(env, REQUIRED[i])
  {
    MissingAtFirstAbsent(env);
    RequiredDistinct();
  }

  /**
   * Validation succeeds exactly when every required variable is set and not
   * empty and `isValidUrl` accepts both redirect URIs.
   */
  lemma ValidateSucceedsIff(env: Env, isValidUrl: string -> bool)
    ensures Validate(env, isValidUrl).Success? <==>
      && AllRequiredPresent(env)
      && isValidUrl(Text(env, GoogleRedirectUri))
      && isValidUrl(Text(env, SpotifyRedirectUri))
  {
    MissingAtFirstAbsent(env);
    if AllRequiredPresent(env) {
      RejectedAtOrder(env, isValidUrl);
    }
  }

  /** On success every required entry of the configuration is the environment's non-empty text. */
  lemma SuccessCopiesRequired(env: Env, isValidUrl: string -> bool)
    requires Validate(env, isValidUrl).Success?
    ensures forall i :: 0 <= i < |REQUIRED| ==>
      Present(env, REQUIRED[i]) &&
      Validate(env, isValidUrl).value.Field(REQUIRED[i]) == Str(Text(env, REQUIRED[i]))
  {
    ValidateSucceedsIff(env, isValidUrl);
    forall i | 0 <= i < |REQUIRED|
      ensures Validate(env, isValidUrl).value.Field(REQUIRED[i]) == Str(Text(env, REQUIRED[i]))
    {
      RequiredTruthy(env, REQUIRED[i]);
    }
  }

  /**
   * The URL check is reached only with every required variable present; it
   * rejects the Google redirect URI first, and the Spotify one only when the
   * Google one passed. The error carries the rejected text.
   */
  lemma InvalidUrlOrder(env: Env, isValidUrl: string -> bool)
    ensures Validate(env, isValidUrl).Failure? && Validate(env, isValidUrl).error.InvalidUrl? <==>
      && AllRequiredPresent(env)
      && !(isValidUrl(Text(env, GoogleRedirectUri)) && isValidUrl(Text(env, SpotifyRedirectUri)))
    ensures Validate(env, isValidUrl).Failure? && Validate(env, isValidUrl).error.InvalidUrl? ==>
      var e := Validate(env, isValidUrl).error;
      && e.value == Text(env, e.variable)
      && !isValidUrl(e.value)
      && (e.variable == GoogleRedirectUri <==> !isValidUrl(Text(env, GoogleRedirectUri)))
  {
    MissingAtFirstAbsent(env);
    if AllRequiredPresent(env) {
      RejectedAtOrder(env, isValidUrl);
    }
  }

  /** Two environments that agree on every variable the configuration reads except DATABASE_URL. */
  ghost predicate AgreeExceptDatabaseUrl(e1: Env, e2: Env) {
    forall v: Var :: v != DatabaseUrl ==> Lookup(e1, v) == Lookup(e2, v)
  }

  /** Two configurations with the same entries for every required variable. */
  ghost predicate SameRequired(c1: Config, c2: Config) {
    forall i :: 0 <= i < |REQUIRED| ==> c1.Field(REQUIRED[i]) == c2.Field(REQUIRED[i])
  }

  /** Environments that agree except on DATABASE_URL give the same required entries. */
  lemma BuildConfigExceptDatabaseUrl(e1: Env, e2: Env)
    requires AgreeExceptDatabaseUrl(e1, e2)
    ensures SameRequired(BuildConfig(e1), BuildConfig(e2))
  {
    forall i | 0 <= i < |REQUIRED|
      ensures BuildConfig(e1).Field(REQUIRED[i]) == BuildConfig(e2).Field(REQUIRED[i])
    {
      var v := REQUIRED[i];
      assert Copied(v) && v != DatabaseUrl;
      assert Lookup(e1, v) == Lookup(e2, v);
    }
  }

  /** The required-variable check reads only required entries. */
  lemma MissingAtReadsOnlyRequired(c1: Config, c2: Config)
    requires SameRequired(c1, c2)
    ensures MissingAt(c1) == MissingAt(c2)
  {
    forall i | 0 <= i < |REQUIRED|
      ensures !Truthy(c1.Field(REQUIRED[i])) == !Truthy(c2.Field(REQUIRED[i]))
    {
    }
    FirstWhereAgree(REQUIRED, v => !Truthy(c1.Field(v)), v => !Truthy(c2.Field(v)));
  }

  /** The redirect-URI check reads only the two redirect URIs, which are required entries. */
  lemma RejectedAtReadsOnlyRequired(c1: Config, c2: Config, isValidUrl: string -> bool)
    requires SameRequired(c1, c2)
    ensures RejectedAt(c1, isValidUrl) == RejectedAt(c2, isValidUrl)
    ensures forall k :: 0 <= k < |URI_VARS| ==> c1.Field(URI_VARS[k]) == c2.Field(URI_VARS[k])
  {
    assert c1.Field(REQUIRED[6]) == c2.Field(REQUIRED[6]);
    assert c1.Field(REQUIRED[9]) == c2.Field(REQUIRED[9]);
    assert URI_VARS[0] == REQUIRED[6] && URI_VARS[1] == REQUIRED[9];
    FirstWhereAgree(URI_VARS, v => RejectedUrl(c1.Field(v), isValidUrl), v => RejectedUrl(c2.Field(v), isValidUrl));
  }

  /** Validation fails alike on environments whose required entries coincide. */
  lemma ValidateReadsOnlyRequired(e1: Env, e2: Env, isValidUrl: string -> bool)
    requires SameRequired(BuildConfig(e1), BuildConfig(e2))
    ensures Validate(e1, isValidUrl).Failure? == Validate(e2, isValidUrl).Failure?
    ensures Validate(e1, isValidUrl).Failure? ==> Validate(e1, isValidUrl).error == Validate(e2, isValidUrl).error
  {
    MissingAtReadsOnlyRequired(BuildConfig(e1), BuildConfig(e2));
    RejectedAtReadsOnlyRequired(BuildConfig(e1), BuildConfig(e2), isValidUrl);
  }

  /** DATABASE_URL is never required: its value cannot change whether or how start-up fails. */
  lemma DatabaseUrlNeverRequired(e1: Env, e2: Env, isValidUrl: string -> bool)
    requires AgreeExceptDatabaseUrl(e1, e2)
    ensures Validate(e1, isValidUrl).Failure? == Validate(e2, isValidUrl).Failure?
    ensures Validate(e1, isValidUrl).Failure? ==> Validate(e1, isValidUrl).error == Validate(e2, isValidUrl).error
  {
    BuildConfigExceptDatabaseUrl(e1, e2);
    ValidateReadsOnlyRequired(e1, e2, isValidUrl);
  }

  /** Predicates that agree on every element find the same first position. */
  lemma FirstWhereAgree<T>(xs: seq<T>, p: T -> bool, q: T -> bool)
    requires forall i :: 0 <= i < |xs| ==> p(xs[i]) == q(xs[i])
    ensures FirstWhere(xs, p) == FirstWhere(xs, q)
  {
    var a, b := FirstWhere(xs, p), FirstWhere(xs, q);
    if a.Some? && b.Some? {
      assert !(a.value < b.value) && !(b.value < a.value);
    }
  }
}
