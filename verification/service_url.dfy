/** How `MonitorProxy.__init__` chooses the daemon's address
    (bitcoind-monitor.py:143-155). With a password configured, a service URL
    `scheme://[user:password@]host[:port]` is assembled; without one, the RPC
    library falls back to its own configuration file. The percent-encoding
    `quote` is a parameter: only the fact that its output contains neither
    `:` nor `@` is used. A small parser of such URLs is the partner of the
    assembly: parsing the assembled URL gives the configured parts back. */
module ServiceUrl {
  import opened Wrappers

  /** The settings read from the environment (lines 111-115): the scheme, host
      and port always have a value, possibly empty; user and password may be unset. */
  datatype RpcConfig = RpcConfig(
    scheme: string, host: string, port: string, user: Option<string>, password: Option<string>)

  /** How the proxy is constructed. */
  datatype ProxyArgs = FromServiceUrl(url: string) | FromConfigFile

  /** Python truthiness of an optional string: set and non-empty. */
  predicate Truthy(v: Option<string>) {
    v.Some? && |v.value| > 0
  }

  /** The `user:password@` prefix: present only when both are truthy. */
  function Credentials(c: RpcConfig, quote: string -> string): string {
    if Truthy(c.user) && Truthy(c.password) then
      quote(c.user.value) + ":" + quote(c.password.value) + "@"
    else ""
  }

  /** The host, then `:port` when the port is non-empty. */
  function HostPort(host: string, port: string): string {
    host + (if |port| > 0 then ":" + port else "")
  }

  /** Lines 145-150: credentials, host and port. */
  function Authority(c: RpcConfig, quote: string -> string): string {
    Credentials(c, quote) + HostPort(c.host, c.port)
  }

  /** Lines 144-155: a URL exactly when the password is truthy. */
  function ProxyArgsOf(c: RpcConfig, quote: string -> string): (a: ProxyArgs)
    ensures a.FromServiceUrl? <==> Truthy(c.password)
  {
    if Truthy(c.password) then FromServiceUrl(c.scheme + "://" + Authority(c, quote))
    else FromConfigFile
  }

  // ---------------------------------------------------------------------------
  // Reading a service URL back

  /** The parts of a service URL. */
  datatype ParsedUrl = ParsedUrl(
    scheme: string, credentials: Option<(string, string)>, host: string, port: Option<string>)

  /** Splits `s` at the first occurrence of `c`, when there is one. */
  function SplitAt(s: string, c: char): (r: Option<(string, string)>)
    ensures r.None? <==> c !in s
    ensures r.Some? ==> c !in r.value.0
    decreases |s|
  {
    if |s| == 0 then None
    else if s[0] == c then Some(([], s[1..]))
    else match SplitAt(s[1..], c)
      case None => None
      case Some((before, after)) =>
        Some(([s[0]] + before, after))
  }

  /** Splitting a joined string at a separator its first part lacks gives the parts back. */
  lemma {:induction false} SplitAtJoin(a: string, c: char, b: string)
    requires c !in a
    ensures SplitAt(a + [c] + b, c) == Some((a, b))
    decreases |a|
  {
    var s := a + [c] + b;
    if |a| == 0 {
      assert s == [c] + b;
    } else {
      assert s[0] == a[0] && s[1..] == a[1..] + [c] + b;
      SplitAtJoin(a[1..], c, b);
      assert [a[0]] + a[1..] == a;
    }
  }

  /** `host[:port]`. */
  function ParseHostPort(s: string): (string, Option<string>) {
    match SplitAt(s, ':')
    case None => (s, None)
    case Some((host, port)) => (host, Some(port))
  }

  function ParseAuthority(s: string): Option<(Option<(string, string)>, string, Option<string>)> {
    match SplitAt(s, '@')
    case None =>
      var (host, port) := ParseHostPort(s);
      Some((None, host, port))
    case Some((userinfo, hostPort)) =>
      match SplitAt(userinfo, ':')
      case None => None
      case Some((user, password)) =>
        var (host, port) := ParseHostPort(hostPort);
        Some((Some((user, password)), host, port))
  }

  /** `scheme://authority`, or nothing when the URL does not have that shape. */
  function ParseServiceUrl(url: string): Option<ParsedUrl> {
    match SplitAt(url, ':')
    case None => None
    case Some((scheme, rest)) =>
      if |rest| < 2 || rest[..2] != "//" then None
      else match ParseAuthority(rest[2..])
        case None => None
        case Some((creds, host, port)) => Some(ParsedUrl(scheme, creds, host, port))
  }

  /** The conditions under which a URL can be read back unambiguously: the
      encoded user name and password never contain a delimiter, neither do the
      scheme and the host, and the port has no `@`. */
  ghost predicate Unambiguous(c: RpcConfig, quote: string -> string) {
    && (forall x :: ':' !in quote(x) && '@' !in quote(x))
    && ':' !in c.scheme && '@' !in c.scheme
    && ':' !in c.host && '@' !in c.host
    && '@' !in c.port
  }

  function PortPart(port: string): Option<string> {
    if |port| > 0 then Some(port) else None
  }

  lemma ParseHostPortJoin(host: string, port: string)
    requires ':' !in host
    ensures ParseHostPort(HostPort(host, port)) == (host, PortPart(port))
  {
    if |port| > 0 {
      assert HostPort(host, port) == host + [':'] + port;
      SplitAtJoin(host, ':', port);
    } else {
      assert HostPort(host, port) == host;
    }
  }

  lemma NoAtInHostPort(host: string, port: string)
    requires '@' !in host && '@' !in port
    ensures '@' !in HostPort(host, port)
  {
    if |port| > 0 {
      assert HostPort(host, port) == host + [':'] + port;
    } else {
      assert HostPort(host, port) == host;
    }
  }

  lemma ParseAuthorityPlain(host: string, port: string)
    requires ':' !in host && '@' !in host && '@' !in port
    ensures ParseAuthority(HostPort(host, port)) == Some((None, host, PortPart(port)))
  {
    NoAtInHostPort(host, port);
    ParseHostPortJoin(host, port);
  }

  lemma ParseAuthorityWithCredentials(user: string, password: string, host: string, port: string)
    requires ':' !in user && '@' !in user && '@' !in password
    requires ':' !in host
    ensures ParseAuthority(user + ":" + password + "@" + HostPort(host, port))
            == Some((Some((user, password)), host, PortPart(port)))
  {
    var userinfo := user + [':'] + password;
    assert user + ":" + password + "@" + HostPort(host, port) == userinfo + ['@'] + HostPort(host, port);
    assert '@' !in userinfo;
    SplitAtJoin(userinfo, '@', HostPort(host, port));
    SplitAtJoin(user, ':', password);
    ParseHostPortJoin(host, port);
  }

  lemma ParseServiceUrlJoin(scheme: string, authority: string)
    requires ':' !in scheme
    ensures ParseServiceUrl(scheme + "://" + authority)
            == match ParseAuthority(authority)
               case None => None
               case Some((creds, host, port)) => Some(ParsedUrl(scheme, creds, host, port))
  {
    var rest := "//" + authority;
    assert scheme + "://" + authority == scheme + [':'] + rest;
    SplitAtJoin(scheme, ':', rest);
    assert rest[..2] == "//" && rest[2..] == authority;
  }

  /** With a truthy user, the URL carries the scheme, both quoted
      credentials, the host, and the port exactly when it is non-empty. */
  lemma RoundTripWithUser(c: RpcConfig, quote: string -> string)
    requires Truthy(c.password) && Truthy(c.user) && Unambiguous(c, quote)
    ensures ParseServiceUrl(ProxyArgsOf(c, quote).url)
            == Some(ParsedUrl(c.scheme, Some((quote(c.user.value), quote(c.password.value))), c.host, PortPart(c.port)))
  {
    var u := quote(c.user.value);
    var p := quote(c.password.value);
    ParseServiceUrlJoin(c.scheme, Authority(c, quote));
    assert Authority(c, quote) == u + ":" + p + "@" + HostPort(c.host, c.port);
    ParseAuthorityWithCredentials(u, p, c.host, c.port);
  }

  /** Without a truthy user, the password is dropped: the URL carries no
      credentials at all. */
  lemma RoundTripWithoutUser(c: RpcConfig, quote: string -> string)
    requires Truthy(c.password) && !Truthy(c.user) && Unambiguous(c, quote)
    ensures ParseServiceUrl(ProxyArgsOf(c, quote).url) == Some(ParsedUrl(c.scheme, None, c.host, PortPart(c.port)))
  {
    ParseServiceUrlJoin(c.scheme, Authority(c, quote));
    assert Authority(c, quote) == HostPort(c.host, c.port);
    ParseAuthorityPlain(c.host, c.port);
  }

  /** The assembled URL carries the scheme, the host, the credentials exactly
      when both user and password are truthy, and the port exactly when it is
      non-empty. */
  lemma ServiceUrlRoundTrip(c: RpcConfig, quote: string -> string)
    requires Truthy(c.password) && Unambiguous(c, quote)
    ensures ParseServiceUrl(ProxyArgsOf(c, quote).url) == Some(ParsedUrl(
              c.scheme,
              if Truthy(c.user) then Some((quote(c.user.value), quote(c.password.value))) else None,
              c.host,
              PortPart(c.port)))
  {
    if Truthy(c.user) {
      RoundTripWithUser(c, quote);
    } else {
      RoundTripWithoutUser(c, quote);
    }
  }
}
