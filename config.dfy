/** The `Config` class of clean.py: every attribute is a constant expression
    over two environment variables, DATABASE_URL and FLASK_ENV, evaluated once.
    An unset variable is `None`; Python treats the empty string as unset
    wherever the code tests the value for truth. */
module Config {
  import opened Common

  const LEGACY_SCHEME: string := "postgres://"
  const SCHEME: string := "postgresql://"
  const DEFAULT_DATABASE_URI: string := "sqlite:///bibliotech.db"
  const ALLOWED_EXTENSIONS: set<string> := {"png", "jpg", "jpeg", "gif"}

  /** `url.replace("postgres://", "postgresql://", 1)` under the
      `startswith("postgres://")` guard: the first occurrence is the prefix. */
  function RewriteScheme(url: string): (r: string)
    ensures StartsWith(url, LEGACY_SCHEME) ==> StartsWith(r, SCHEME) && r[|SCHEME|..] == url[|LEGACY_SCHEME|..]
    ensures !StartsWith(url, LEGACY_SCHEME) ==> r == url
    ensures !StartsWith(r, LEGACY_SCHEME)
  {
    if StartsWith(url, LEGACY_SCHEME) then
      var r := SCHEME + url[|LEGACY_SCHEME|..];
      // "postgresql://" and "postgres://" part at index 8: 'q' against ':'
      assert r[8] == 'q' && LEGACY_SCHEME[8] == ':';
      r
    else url
  }

  /** Rewriting an already rewritten URL changes nothing. */
  lemma RewriteSchemeIdempotent(url: string)
    ensures RewriteScheme(RewriteScheme(url)) == RewriteScheme(url)
  {
  }

  /** The class attribute DATABASE_URL after the rewrite. */
  function DatabaseUrl(env: Option<string>): (r: Option<string>)
    ensures env.None? <==> r.None?
    ensures env.Some? ==> r.value == RewriteScheme(env.value)
    ensures env == Some("") ==> r == Some("")
  {
    match env
    case None => None
    case Some(url) => if url != "" && StartsWith(url, LEGACY_SCHEME) then Some(RewriteScheme(url)) else Some(url)
  }

  predicate Truthy(v: Option<string>) {
    v.Some? && v.value != ""
  }

  /** `DATABASE_URL or 'sqlite:///bibliotech.db'`. */
  function DatabaseUri(env: Option<string>): (r: string)
    ensures !Truthy(env) ==> r == DEFAULT_DATABASE_URI
    ensures Truthy(env) ==> r == RewriteScheme(env.value) && r != ""
    ensures !StartsWith(r, LEGACY_SCHEME)
  {
    var url := DatabaseUrl(env);
    if Truthy(url) then url.value
    else
      assert DEFAULT_DATABASE_URI[0] != LEGACY_SCHEME[0];
      DEFAULT_DATABASE_URI
  }

  datatype EngineOptions = EngineOptions(pool_pre_ping: bool, pool_recycle: nat, pool_size: nat, max_overflow: nat)

  /** SQLALCHEMY_ENGINE_OPTIONS exists only when DATABASE_URL is truthy. */
  function EngineOptionsFor(env: Option<string>): (r: Option<EngineOptions>)
    ensures r.Some? <==> Truthy(env)
    ensures r.Some? ==> r.value.pool_pre_ping && r.value.pool_recycle == 300
    ensures r.Some? ==> r.value.pool_size == 10 && r.value.max_overflow == 20
  {
    if Truthy(DatabaseUrl(env)) then Some(EngineOptions(true, 300, 10, 20)) else None
  }

  datatype Settings = Settings(
    database_url: Option<string>,
    sqlalchemy_database_uri: string,
    sqlalchemy_engine_options: Option<EngineOptions>,
    session_cookie_secure: bool,
    remember_cookie_secure: bool,
    allowed_extensions: set<string>)

  /** The whole computed configuration for one process environment. */
  function Load(databaseUrl: Option<string>, flaskEnv: Option<string>): (c: Settings)
    ensures c.database_url == DatabaseUrl(databaseUrl)
    ensures c.sqlalchemy_database_uri == DatabaseUri(databaseUrl)
    ensures c.sqlalchemy_engine_options == EngineOptionsFor(databaseUrl)
    ensures c.sqlalchemy_engine_options.Some? <==> Truthy(databaseUrl)
    ensures c.session_cookie_secure <==> flaskEnv == Some("production")
    ensures c.remember_cookie_secure == c.session_cookie_secure
    ensures c.allowed_extensions == ALLOWED_EXTENSIONS
  {
    var secure := flaskEnv == Some("production");
    Settings(DatabaseUrl(databaseUrl), DatabaseUri(databaseUrl), EngineOptionsFor(databaseUrl), secure, secure, ALLOWED_EXTENSIONS)
  }
}
