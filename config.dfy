/**
 * The Drone server configuration: the endpoint URL, the Authorization
 * header of the metrics request, and configuration read from the
 * process environment with defaults.
 */
module Config {

  /** A Drone server endpoint (host, port, protocol, metrics path, bearer token). */
  datatype Drone = Drone(host: string, port: string, protocol: string, metricsEndpoint: string, token: string)

  /** Everything the program reads from its environment at start-up. */
  datatype Settings = Settings(drone: Drone, timeout: string)

  /** The request the metrics client sends: a verb, a URL and its headers. */
  datatype Request = Request(verb: string, url: string, header: map<string, string>)

  const MetricsEndpoint: string := "/metrics"
  const UrlFormat: string := "%s://%s:%s%s"

  /** Number of `%s` verbs in a format string. */
  function Verbs(f: string): nat
  {
    if |f| == 0 then 0
    else if |f| >= 2 && f[0] == '%' && f[1] == 's' then 1 + Verbs(f[2..])
    else Verbs(f[1..])
  }

  /**
   * Formatting with the `%s` verb only: each `%s` is replaced by the next
   * argument, every other character is copied.
   */
  function Format(f: string, args: seq<string>): string
    requires Verbs(f) == |args|
  {
    if |f| == 0 then ""
    else if |f| >= 2 && f[0] == '%' && f[1] == 's' then args[0] + Format(f[2..], args[1..])
    else [f[0]] + Format(f[1..], args)
  }

  lemma FormatLiteral(c: char, f: string, args: seq<string>)
    requires c != '%' && Verbs(f) == |args|
    ensures Verbs([c] + f) == |args|
    ensures Format([c] + f, args) == [c] + Format(f, args)
  {
    assert ([c] + f)[1..] == f;
  }

  lemma FormatVerb(f: string, a: string, args: seq<string>)
    requires Verbs(f) == |args|
    ensures Verbs("%s" + f) == |args| + 1
    ensures Format("%s" + f, [a] + args) == a + Format(f, args)
  {
    assert ("%s" + f)[2..] == f;
    assert ([a] + args)[1..] == args;
  }

  /** The metrics URL `protocol://host:port<endpoint>`. */
  function Fqdn(d: Drone): (url: string)
    ensures Verbs(UrlFormat) == 4
    ensures url == Format(UrlFormat, [d.protocol, d.host, d.port, d.metricsEndpoint])
    ensures |url| == |d.protocol| + |d.host| + |d.port| + |d.metricsEndpoint| + 4
  {
    FqdnIsFormatted(d);
    d.protocol + "://" + d.host + ":" + d.port + d.metricsEndpoint
  }

  lemma FormatPort(port: string, e: string)
    ensures Verbs(":%s%s") == 2 && Format(":%s%s", [port, e]) == ":" + port + e
  {
    var empty: string := [];
    assert Verbs(empty) == 0;
    FormatVerb(empty, e, []);
    assert "%s" == "%s" + empty && [e] == [e] + [];
    FormatVerb("%s", port, [e]);
    assert "%s%s" == "%s" + "%s" && [port, e] == [port] + [e];
    FormatLiteral(':', "%s%s", [port, e]);
    assert ":%s%s" == [':'] + "%s%s";
  }

  lemma FormatHost(host: string, port: string, e: string)
    ensures Verbs("://%s:%s%s") == 3
    ensures Format("://%s:%s%s", [host, port, e]) == "://" + host + ":" + port + e
  {
    FormatPort(port, e);
    FormatVerb(":%s%s", host, [port, e]);
    assert "%s:%s%s" == "%s" + ":%s%s" && [host, port, e] == [host] + [port, e];
    FormatLiteral('/', "%s:%s%s", [host, port, e]);
    assert "/%s:%s%s" == ['/'] + "%s:%s%s";
    FormatLiteral('/', "/%s:%s%s", [host, port, e]);
    assert "//%s:%s%s" == ['/'] + "/%s:%s%s";
    FormatLiteral(':', "//%s:%s%s", [host, port, e]);
    assert "://%s:%s%s" == [':'] + "//%s:%s%s";
  }

  lemma FqdnIsFormatted(d: Drone)
    ensures Verbs(UrlFormat) == 4
    ensures Format(UrlFormat, [d.protocol, d.host, d.port, d.metricsEndpoint])
         == d.protocol + "://" + d.host + ":" + d.port + d.metricsEndpoint
  {
    var e := d.metricsEndpoint;
    FormatHost(d.host, d.port, e);
    FormatVerb("://%s:%s%s", d.protocol, [d.host, d.port, e]);
    assert UrlFormat == "%s" + "://%s:%s%s";
    assert [d.protocol, d.host, d.port, e] == [d.protocol] + [d.host, d.port, e];
  }

  /** With the configured endpoint the URL always ends in `/metrics`. */
  lemma FqdnEndsInMetrics(d: Drone)
    requires d.metricsEndpoint == MetricsEndpoint
    ensures |Fqdn(d)| >= |MetricsEndpoint| + 4
    ensures Fqdn(d)[|Fqdn(d)| - |MetricsEndpoint|..] == MetricsEndpoint
  {
    var prefix := d.protocol + "://" + d.host + ":" + d.port;
    assert Fqdn(d) == prefix + MetricsEndpoint;
  }

  /**
   * Headers of a fresh request after the bearer rule: an Authorization
   * header is set only when the token is non-empty.
   */
  function AuthorizationHeader(token: string): (h: map<string, string>)
    ensures "Authorization" in h <==> token != ""
    ensures "Authorization" in h ==> h["Authorization"] == "Bearer " + token
    ensures h.Keys <= {"Authorization"}
  {
    if token != "" then map["Authorization" := "Bearer " + token] else map[]
  }

  /** The GET request for the metrics endpoint of `d`. */
  function NewRequest(d: Drone): (r: Request)
    ensures r.verb == "GET"
    ensures r.url == Format(UrlFormat, [d.protocol, d.host, d.port, d.metricsEndpoint])
    ensures "Authorization" in r.header <==> d.token != ""
    ensures d.token != "" ==> r.header["Authorization"] == "Bearer " + d.token
    ensures r.header.Keys <= {"Authorization"}
  {
    Request("GET", Fqdn(d), AuthorizationHeader(d.token))
  }

  /** Looks `name` up in the environment, falling back to `def` when it is unset. */
  function GetEnvVar(env: map<string, string>, name: string, def: string): (val: string)
    ensures name in env ==> val == env[name]
    ensures name !in env ==> val == def
  {
    if name in env then env[name] else def
  }

  /** A variable that is set, even to the empty string, is never replaced by the default. */
  lemma SetButEmptyIsKept(env: map<string, string>, name: string, def: string)
    requires name in env && env[name] == ""
    ensures GetEnvVar(env, name, def) == ""
  {
  }

  /** The configuration `main` builds from the environment. */
  function LoadSettings(env: map<string, string>): (s: Settings)
    ensures s.drone.token == (if "token" in env then env["token"] else "")
    ensures s.drone.host == (if "host" in env then env["host"] else "localhost")
    ensures s.drone.port == (if "port" in env then env["port"] else "80")
    ensures s.drone.protocol == (if "protocol" in env then env["protocol"] else "http")
    ensures s.drone.metricsEndpoint == MetricsEndpoint
    ensures s.timeout == (if "timeout" in env then env["timeout"] else "1")
  {
    var token := GetEnvVar(env, "token", "");
    var host := GetEnvVar(env, "host", "localhost");
    var port := GetEnvVar(env, "port", "80");
    var timeout := GetEnvVar(env, "timeout", "1");
    var protocol := GetEnvVar(env, "protocol", "http");
    Settings(Drone(host, port, protocol, MetricsEndpoint, token), timeout)
  }

  /** With nothing set, the program polls `http://localhost:80/metrics` without a token. */
  lemma DefaultSettings()
    ensures LoadSettings(map[]).drone == Drone("localhost", "80", "http", "/metrics", "")
    ensures Fqdn(LoadSettings(map[]).drone) == "http://localhost:80/metrics"
    ensures NewRequest(LoadSettings(map[]).drone).header == map[]
  {
    var d := LoadSettings(map[]).drone;
    assert d == Drone("localhost", "80", "http", "/metrics", "");
    assert d.protocol + "://" + d.host + ":" + d.port + d.metricsEndpoint == "http://localhost:80/metrics";
  }
}
