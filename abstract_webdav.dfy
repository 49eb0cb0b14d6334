/** The shared base of the WebDAV processors: the `domain` helper and the
    credentials provider that `configureNTLM`, `configureProxy` and `addAuth`
    fill, keyed by authentication scope. */
module AbstractWebDAV {
  import opened Wrappers
  import opened WebDAVTypes

  // ---------------------------------------------------------------------
  // domain(hostname)
  // ---------------------------------------------------------------------

  /** `String.indexOf`: the first position of `c` in `s`, or -1. */
  function IndexOf(s: string, c: char): (i: int)
    ensures -1 <= i < |s|
    ensures i == -1 <==> c !in s
    ensures 0 <= i ==> s[i] == c && c !in s[..i]
  {
    if s == [] then -1
    else if s[0] == c then 0
    else
      var j := IndexOf(s[1..], c);
      if j == -1 then -1 else j + 1
  }

  /** The first occurrence of `c` in `p + [c] + q`, when `p` has none, is at `|p|`. */
  lemma {:induction false} IndexOfAfterPrefix(p: string, c: char, q: string)
    requires c !in p
    ensures IndexOf(p + [c] + q, c) == |p|
    decreases |p|
  {
    if p != [] {
      assert (p + [c] + q)[1..] == p[1..] + [c] + q;
      IndexOfAfterPrefix(p[1..], c, q);
    }
  }

  /** `domain(hostname)`: the suffix of the host name from its first dot on,
      dot included. A host name without a dot makes `substring(-1)` throw. */
  function Domain(hostname: string): (r: Result<string, Fault>)
    ensures r.Failure? <==> '.' !in hostname
    ensures r.Failure? ==> r.error == IndexOutOfBounds
    ensures r.Success? ==>
      var cut := |hostname| - |r.value|;
      && |r.value| == |hostname| - IndexOf(hostname, '.')
      && r.value != [] && r.value[0] == '.'
      && hostname == hostname[..cut] + r.value
      && '.' !in hostname[..cut]
  {
    var i := IndexOf(hostname, '.');
    if i < 0 then Failure(IndexOutOfBounds)
    else
      assert hostname == hostname[..i] + hostname[i..];
      Success(hostname[i..])
  }

  // ---------------------------------------------------------------------
  // Credentials
  // ---------------------------------------------------------------------

  /** `AuthScope.ANY`, or the scope of one host and port (`new AuthScope(HttpHost)`);
      a port of -1 is an unspecified port. */
  datatype AuthScope = AnyScope | HostScope(host: string, port: int)

  /** The two credential kinds the processors create, holding exactly what
      the code passes to their constructors. Both constructors reject a null
      user name, so a stored credential always has one. */
  datatype Credentials =
    | UsernamePassword(user: string, password: Option<string>)
    | NT(user: string, password: Option<string>, workstation: string, domain: string)

  type CredentialMap = map<AuthScope, Credentials>

  /** The processor properties that decide authentication. */
  datatype AuthConfig = AuthConfig(
    ntlmAuth: bool,              // "NTLM Authentication"
    username: Option<string>,    // "Username"
    password: Option<string>,    // "Password"
    ntlmProxyAuth: bool)         // "Proxy NTLM Authentication"

  /** The parts of a parsed `java.net.URI` the processors read: the host
      (null for a URI without an authority) and the port (-1 when absent). */
  datatype Uri = Uri(host: Option<string>, port: int)

  datatype ProxyType = Direct | Http | Socks

  /** The host framework's proxy configuration; the default one is DIRECT
      with nothing else set. */
  datatype ProxyConfiguration = ProxyConfiguration(
    proxyType: ProxyType,
    serverHost: Option<string>,
    serverPort: Option<int>,
    userName: Option<string>,
    userPassword: Option<string>)

  const DefaultProxyConfiguration := ProxyConfiguration(Direct, None, None, None, None)

  /** `ProxyConfiguration.hasCredential`: a non-empty user name is set. */
  predicate HasCredential(p: ProxyConfiguration) {
    p.userName.Some? && p.userName.value != ""
  }

  /** Every entry other than the one under `key` is the same in both maps. */
  ghost predicate AgreeExcept(a: CredentialMap, b: CredentialMap, key: AuthScope) {
    forall s :: s != key ==> (s in a <==> s in b) && (s in a ==> a[s] == b[s])
  }

  /** The invariant the credential updates keep: an NT credential filed under a
      host scope carries the domain of that very host. */
  ghost predicate DomainsConsistent(creds: CredentialMap) {
    forall s :: s in creds && s.HostScope? && creds[s].NT? ==>
      Domain(s.host) == Success(creds[s].domain)
  }

  /** `String.trim`: the number of leading characters at or below U+0020. */
  function LeadingBlanks(s: string): (n: nat)
    ensures n <= |s|
    ensures forall i :: 0 <= i < n ==> s[i] <= ' '
    ensures n < |s| ==> s[n] > ' '
  {
    if s == [] || s[0] > ' ' then 0 else 1 + LeadingBlanks(s[1..])
  }

  /** `String.trim`: the number of trailing characters at or below U+0020. */
  function TrailingBlanks(s: string): (n: nat)
    ensures n <= |s|
    ensures forall i :: |s| - n <= i < |s| ==> s[i] <= ' '
    ensures n < |s| ==> s[|s| - n - 1] > ' '
  {
    if s == [] || s[|s| - 1] > ' ' then 0 else 1 + TrailingBlanks(s[..|s| - 1])
  }

  /** `StringUtils.trimToEmpty`: null becomes "", anything else loses its
      leading and trailing characters at or below U+0020. */
  function TrimToEmpty(s: Option<string>): (r: string)
    ensures s.None? ==> r == ""
    ensures s.Some? ==> (r == "" <==> forall i :: 0 <= i < |s.value| ==> s.value[i] <= ' ')
    ensures r != [] ==> r[0] > ' ' && r[|r| - 1] > ' '
    ensures s.Some? ==>
      exists a, b ::
        && 0 <= a <= b <= |s.value| && r == s.value[a..b]
        && (forall i :: 0 <= i < a || b <= i < |s.value| ==> s.value[i] <= ' ')
  {
    match s
    case None => ""
    case Some(v) =>
      var lead := LeadingBlanks(v);
      if lead == |v| then
        assert v[0..0] == "";
        ""
      else
        var trail := TrailingBlanks(v[lead..]);
        var t := v[lead..|v| - trail];
        assert t[0] == v[lead] && t[|t| - 1] == v[|v| - trail - 1];
        assert forall i :: |v| - trail <= i < |v| ==> v[i] == v[lead..][i - lead];
        t
  }

  /** `getProxyConfig`: the proxy configuration service when one is set,
      otherwise an HTTP proxy built from the processor's own properties when
      both host and port are set, otherwise DIRECT. */
  function GetProxyConfig(service: Option<ProxyConfiguration>, host: Option<string>, port: Option<int>,
                          username: Option<string>, password: Option<string>): (p: ProxyConfiguration)
    ensures service.Some? ==> p == service.value
    ensures service.None? && (host.None? || port.None?) ==> p.proxyType == Direct && !HasCredential(p)
    ensures service.None? && host.Some? && port.Some? ==>
      && p.proxyType == Http && p.serverHost == host && p.serverPort == port
      && p.userName == Some(TrimToEmpty(username)) && p.userPassword == password
      && (HasCredential(p) <==> TrimToEmpty(username) != "")
  {
    if service.Some? then service.value
    else if host.Some? && port.Some? then
      ProxyConfiguration(Http, host, port, Some(TrimToEmpty(username)), password)
    else DefaultProxyConfiguration
  }

  /** What `configureNTLM` does to the credentials: without NTLM, the
      configured user and password go under the ANY scope. An unset user
      name makes the credential's constructor throw. */
  function NTLMCredentials(creds: CredentialMap, cfg: AuthConfig): (r: Result<CredentialMap, Fault>)
    ensures cfg.ntlmAuth ==> r == Success(creds)
    ensures r.Failure? <==> !cfg.ntlmAuth && cfg.username.None?
    ensures r.Failure? ==> r.error == IllegalArgument
    ensures !cfg.ntlmAuth && r.Success? ==>
      AnyScope in r.value && r.value[AnyScope] == UsernamePassword(cfg.username.value, cfg.password)
    ensures r.Success? ==> AgreeExcept(r.value, creds, AnyScope)
    ensures r.Success? && DomainsConsistent(creds) ==> DomainsConsistent(r.value)
  {
    if cfg.ntlmAuth then Success(creds)
    else if cfg.username.None? then Failure(IllegalArgument)
    else Success(creds[AnyScope := UsernamePassword(cfg.username.value, cfg.password)])
  }

  /** What `configureProxy` does to the credentials. A DIRECT proxy, or one
      without a credential, changes nothing. Otherwise the proxy host's scope
      gets an NT credential (with the local host name and the proxy host's
      domain) when proxy NTLM is on, and a user/password credential when it
      is off. A missing port fails when it is unboxed, a missing host in the
      HTTP host constructor, and a failed local host lookup or a dot-less
      proxy host before the NT credential is stored. */
  function ProxyCredentials(creds: CredentialMap, ntlmProxyAuth: bool, p: ProxyConfiguration,
                            localHost: Option<string>): (r: Result<CredentialMap, Fault>)
    ensures p.proxyType == Direct ==> r == Success(creds)
    ensures r.Failure? <==>
      p.proxyType != Direct &&
      (p.serverPort.None? || p.serverHost.None? ||
       (HasCredential(p) && ntlmProxyAuth && (localHost.None? || '.' !in p.serverHost.value)))
  {
    if p.proxyType == Direct then Success(creds)
    else if p.serverPort.None? then Failure(NullPointer)
    else if p.serverHost.None? then Failure(IllegalArgument)
    else if !HasCredential(p) then Success(creds)
    else
      var scope := HostScope(p.serverHost.value, p.serverPort.value);
      if ntlmProxyAuth then
        if localHost.None? then Failure(UnknownHost)
        else
          match Domain(p.serverHost.value)
          case Failure(e) => Failure(e)
          case Success(d) => Success(creds[scope := NT(p.userName.value, p.userPassword, localHost.value, d)])
      else Success(creds[scope := UsernamePassword(p.userName.value, p.userPassword)])
  }

  /** What `addAuth` does to the credentials. Without NTLM, or when the URL
      does not parse (a logged warning), nothing changes. Otherwise the URL's
      host and port get an NT credential whose domain is `domain(host)`; a URI
      without a host, a host without a dot, or an unset user name throws out
      of `addAuth`. */
  function AddAuthCredentials(creds: CredentialMap, workstation: string, cfg: AuthConfig,
                              uri: Option<Uri>): (r: Result<CredentialMap, Fault>)
    ensures !cfg.ntlmAuth || uri.None? ==> r == Success(creds)
    ensures r.Failure? <==>
      cfg.ntlmAuth && uri.Some? &&
      (uri.value.host.None? || '.' !in uri.value.host.value || cfg.username.None?)
    ensures r.Failure? && uri.Some? && uri.value.host.Some? && '.' in uri.value.host.value ==>
      r.error == IllegalArgument
    ensures cfg.ntlmAuth && r.Success? && uri.Some? ==>
      && uri.value.host.Some? && cfg.username.Some?
      && var scope := HostScope(uri.value.host.value, uri.value.port);
      && scope in r.value && r.value[scope].NT?
      && r.value[scope] == NT(cfg.username.value, cfg.password, workstation, r.value[scope].domain)
      && Domain(scope.host) == Success(r.value[scope].domain)
      && AgreeExcept(r.value, creds, scope)
    ensures r.Success? && DomainsConsistent(creds) ==> DomainsConsistent(r.value)
  {
    if !cfg.ntlmAuth then Success(creds)
    else
      match uri
      case None => Success(creds)
      case Some(u) =>
        match u.host
        case None => Failure(NullPointer)
        case Some(h) =>
          match Domain(h)
          case Failure(e) => Failure(e)
          case Success(d) =>
            if cfg.username.None? then Failure(IllegalArgument)
            else Success(creds[HostScope(h, u.port) := NT(cfg.username.value, cfg.password, workstation, d)])
  }

  /** The credentials after a call that may throw: a throwing call stores nothing. */
  function Settled(before: CredentialMap, r: Result<CredentialMap, Fault>): CredentialMap {
    if r.Success? then r.value else before
  }

  /** The state that the processor base class keeps between invocations:
      the shared credentials provider and the local host name. */
  class WebDAVProcessor {
    var credentials: CredentialMap
    const workstation: string

    /** `workstation()`: the local host name, or "localhost" when it cannot be found. */
    constructor (localHost: Option<string>)
      ensures credentials == map[]
      ensures workstation == localHost.GetOr("localhost")
    {
      credentials := map[];
      workstation := localHost.GetOr("localhost");
    }

    method ConfigureNTLM(cfg: AuthConfig) returns (outcome: Outcome)
      modifies this
      ensures var r := NTLMCredentials(old(credentials), cfg);
        && credentials == Settled(old(credentials), r)
        && (outcome.Completed? <==> r.Success?)
        && (r.Failure? ==> outcome == Aborted(r.error))
    {
      outcome := Completed;
      if !cfg.ntlmAuth {
        if cfg.username.None? {
          return Aborted(IllegalArgument);
        }
        credentials := credentials[AnyScope := UsernamePassword(cfg.username.value, cfg.password)];
      }
    }

    method ConfigureProxy(cfg: AuthConfig, p: ProxyConfiguration, localHost: Option<string>)
      returns (outcome: Outcome)
      modifies this
      ensures var r := ProxyCredentials(old(credentials), cfg.ntlmProxyAuth, p, localHost);
        && credentials == Settled(old(credentials), r)
        && (outcome.Completed? <==> r.Success?)
        && (r.Failure? ==> outcome == Aborted(r.error))
    {
      outcome := Completed;
      if p.proxyType != Direct {
        if p.serverPort.None? {
          return Aborted(NullPointer);
        }
        if p.serverHost.None? {
          return Aborted(IllegalArgument);
        }
        var scope := HostScope(p.serverHost.value, p.serverPort.value);
        if HasCredential(p) {
          if cfg.ntlmProxyAuth {
            if localHost.None? {
              return Aborted(UnknownHost);
            }
            var d := Domain(p.serverHost.value);
            if d.Failure? {
              return Aborted(d.error);
            }
            credentials := credentials[scope := NT(p.userName.value, p.userPassword, localHost.value, d.value)];
          } else {
            credentials := credentials[scope := UsernamePassword(p.userName.value, p.userPassword)];
          }
        }
      }
    }

    method AddAuth(cfg: AuthConfig, uri: Option<Uri>) returns (outcome: Outcome)
      modifies this
      ensures var r := AddAuthCredentials(old(credentials), workstation, cfg, uri);
        && credentials == Settled(old(credentials), r)
        && (outcome.Completed? <==> r.Success?)
        && (r.Failure? ==> outcome == Aborted(r.error))
    {
      ghost var r := AddAuthCredentials(credentials, workstation, cfg, uri);
      outcome := Completed;
      if cfg.ntlmAuth && uri.Some? {
        var u := uri.value;
        if u.host.None? {
          assert r == Failure(NullPointer);
          return Aborted(NullPointer);
        }
        var d := Domain(u.host.value);
        if d.Failure? {
          assert r == Failure(d.error);
          return Aborted(d.error);
        }
        if cfg.username.None? {
          assert r == Failure(IllegalArgument);
          return Aborted(IllegalArgument);
        }
        var stored := NT(cfg.username.value, cfg.password, workstation, d.value);
        assert r ==
          Success(credentials[HostScope(u.host.value, u.port) := stored]);
        credentials := credentials[HostScope(u.host.value, u.port) := stored];
      }
    }

    /** `createClientBuilder` as far as credentials go: NTLM first, then the
        proxy; an exception from the first skips the second. */
    method CreateClientBuilder(cfg: AuthConfig, p: ProxyConfiguration, localHost: Option<string>)
      returns (outcome: Outcome)
      modifies this
      ensures var n := NTLMCredentials(old(credentials), cfg);
        && (n.Failure? ==> credentials == old(credentials) && outcome == Aborted(n.error))
        && (n.Success? ==>
              var r := ProxyCredentials(n.value, cfg.ntlmProxyAuth, p, localHost);
              && credentials == Settled(n.value, r)
              && (outcome.Completed? <==> r.Success?))
      ensures DomainsConsistent(old(credentials)) ==> DomainsConsistent(credentials)
    {
      outcome := ConfigureNTLM(cfg);
      if outcome.Aborted? {
        return;
      }
      if DomainsConsistent(credentials) && ProxyCredentials(credentials, cfg.ntlmProxyAuth, p, localHost).Success? {
        ProxyCredentialsKeepDomains(credentials, cfg.ntlmProxyAuth, p, localHost);
      }
      outcome := ConfigureProxy(cfg, p, localHost);
    }
  }

  /** The scope `configureProxy` files the proxy credential under. */
  function ProxyScope(p: ProxyConfiguration): AuthScope
    requires p.serverHost.Some? && p.serverPort.Some?
  {
    HostScope(p.serverHost.value, p.serverPort.value)
  }

  /** `configureProxy` stores a credential only for a non-DIRECT proxy that
      has a credential, only under the proxy's own scope, and of the kind the
      proxy NTLM flag selects. */
  lemma ProxyCredentialsWritesOnlyProxyScope(creds: CredentialMap, ntlmProxyAuth: bool,
                                             p: ProxyConfiguration, localHost: Option<string>)
    requires ProxyCredentials(creds, ntlmProxyAuth, p, localHost).Success?
    ensures var r := ProxyCredentials(creds, ntlmProxyAuth, p, localHost).value;
      && (p.proxyType == Direct || !HasCredential(p) ==> r == creds)
      && (p.proxyType != Direct && HasCredential(p) ==>
            && var scope := ProxyScope(p);
            && scope in r
            && AgreeExcept(r, creds, scope)
            && Some(r[scope].user) == p.userName && r[scope].password == p.userPassword
            && (r[scope].NT? <==> ntlmProxyAuth)
            && (ntlmProxyAuth ==>
                  && Domain(scope.host) == Success(r[scope].domain)
                  && Some(r[scope].workstation) == localHost))
  {
  }

  /** `configureProxy` keeps the domain invariant. */
  lemma ProxyCredentialsKeepDomains(creds: CredentialMap, ntlmProxyAuth: bool,
                                    p: ProxyConfiguration, localHost: Option<string>)
    requires DomainsConsistent(creds)
    requires ProxyCredentials(creds, ntlmProxyAuth, p, localHost).Success?
    ensures DomainsConsistent(ProxyCredentials(creds, ntlmProxyAuth, p, localHost).value)
  {
    var r := ProxyCredentials(creds, ntlmProxyAuth, p, localHost).value;
    if p.proxyType != Direct && HasCredential(p) {
      var scope := ProxyScope(p);
      forall s | s in r && s.HostScope? && r[s].NT?
        ensures Domain(s.host) == Success(r[s].domain)
      {
        if s != scope {
          assert s in creds && r[s] == creds[s];
        }
      }
    }
  }

  /** `domain` does not split an account name such as `domain\user`: it has
      no dot, so the call throws. */
  lemma DomainOfAccountNameFails()
    ensures Domain("domain\\user") == Failure(IndexOutOfBounds)
  {
    assert '.' !in "domain\\user";
  }

  /** The domain of a host name is everything from its first dot on: for
      `files.example.org` that is `.example.org`. */
  lemma DomainOfQualifiedHost(name: string, rest: string)
    requires '.' !in name
    ensures Domain(name + ['.'] + rest) == Success(['.'] + rest)
  {
    var host := name + ['.'] + rest;
    IndexOfAfterPrefix(name, '.', rest);
    assert host[|name|..] == ['.'] + rest;
  }
}
