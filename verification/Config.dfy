/** Config.Validate (internal/config/config.go:94-198): the defaults it fills in, what it
    accepts, and the facts the other components rely on. */
module Config {
  import opened Wrappers

  const DESCRIBE_TOOL: string := "bridge_describe_tool"

  datatype Limits = Limits(
    sessions: int, concurrentCalls: int, timeoutSeconds: int, idleSeconds: int, bodyBytes: int, outputBytes: int)

  datatype Auth = Auth(tokenEnv: string, issuer: string, audience: string, publicKeyFile: string, scope: string)

  datatype Server = Server(
    descriptionLimit: int, backendScope: string, stateless: bool, registryName: string, command: string,
    args: seq<string>, cwd: string, envKeys: seq<string>,
    tools: seq<string>, prompts: seq<string>, resources: seq<string>)

  /** What the library parsers answer.  They are arbitrary. */
  datatype Parsers = Parsers(
    name: string -> bool,               // namePattern matches
    hostOf: string -> Option<string>,   // net.SplitHostPort
    ip: string -> Option<bool>,         // net.ParseIP, and whether it is loopback
    origin: string -> bool,             // an HTTPS origin without trailing slash
    issuer: string -> bool)             // an HTTPS URL

  datatype Fault =
    | BadHost | BadListen | NotAnIp | BadPublicUrl | NeedsPublicUrl | TwoAuths | NoAuth | BadIssuer
    | OutputRange | LimitsRange | ServerCount
    | DescriptionRange | ReservedName | BadScope | ScopeMismatch | BadName | NotOneSource | Overridden
    | NothingExposed | BadEntry

  predicate LimitsOk(l: Limits) {
    && 1 <= l.sessions <= 256 && 1 <= l.concurrentCalls <= 64 && 1 <= l.timeoutSeconds <= 600
    && 1 <= l.idleSeconds <= 3600 && 1024 <= l.bodyBytes <= 0x100_0000
  }

  function OrDefault(n: int, fallback: int): int {
    if n == 0 then fallback else n
  }

  function Filled(l: Limits): Limits {
    Limits(OrDefault(l.sessions, 16), OrDefault(l.concurrentCalls, 4), OrDefault(l.timeoutSeconds, 60),
           OrDefault(l.idleSeconds, 300), OrDefault(l.bodyBytes, 0x10_0000), OrDefault(l.outputBytes, 0x40_0000))
  }

  /** Which limits are accepted, read off the policy as it was written: zero stands for a default
      that is always in range, any other value has to be in range itself. */
  lemma LimitsAccepted(l: Limits)
    ensures LimitsOk(Filled(l)) && 1024 <= Filled(l).outputBytes <= 0x100_0000 <==>
              && 0 <= l.sessions <= 256 && 0 <= l.concurrentCalls <= 64 && 0 <= l.timeoutSeconds <= 600
              && 0 <= l.idleSeconds <= 3600
              && (l.bodyBytes == 0 || 1024 <= l.bodyBytes <= 16 * 1024 * 1024)
              && (l.outputBytes == 0 || 1024 <= l.outputBytes <= 16 * 1024 * 1024)
  {
  }

  /** An allowlist names distinct things one by one. */
  predicate ListOk(list: seq<string>) {
    && "" !in list && "*" !in list
    && forall i, j :: 0 <= i < j < |list| ==> list[i] != list[j]
  }

  /** What a policy for one server must say. */
  predicate ServerOk(parsers: Parsers, name: string, s: Server) {
    && (s.descriptionLimit == 0 || 64 <= s.descriptionLimit <= 4096)
    && (s.descriptionLimit > 0 ==> DESCRIBE_TOOL !in s.tools)
    && (s.backendScope == "" || s.backendScope == "session" || s.backendScope == "shared")
    && (s.backendScope == "shared" <==> s.stateless)
    && parsers.name(name)
    && (s.registryName == "" <==> s.command != "")
    && (s.registryName != "" ==> s.args == [] && s.envKeys == [] && s.cwd == "")
    && !(s.tools == [] && s.prompts == [] && s.resources == [])
    && ListOk(s.tools) && ListOk(s.prompts) && ListOk(s.resources)
  }

  /** A literal IP and port, behind an HTTPS origin unless it is loopback. */
  predicate NetworkOk(parsers: Parsers, listen: string, publicUrl: string) {
    && parsers.hostOf(listen).Some? && parsers.ip(parsers.hostOf(listen).value).Some?
    && (if publicUrl != "" then parsers.origin(publicUrl) else parsers.ip(parsers.hostOf(listen).value).value)
  }

  /** A bearer token or complete resource-server settings, not both. */
  predicate AuthOk(parsers: Parsers, auth: Auth, publicUrl: string) {
    && (auth.tokenEnv != "" ==> auth.issuer == "" && auth.publicKeyFile == "")
    && (auth.tokenEnv == "" ==>
          auth.issuer != "" && auth.publicKeyFile != "" && auth.audience != "" && auth.scope != "" && publicUrl != "")
    && (auth.issuer != "" ==> parsers.issuer(auth.issuer))
  }

  /** The fields Validate may fill in, as values. */
  datatype Fillable = Fillable(listen: string, allowedHosts: seq<string>, limits: Limits)

  function Defaults(f: Fillable): Fillable {
    var listen := if f.listen == "" then "127.0.0.1:8787" else f.listen;
    Fillable(listen, if f.allowedHosts == [] then [listen] else f.allowedHosts, Filled(f.limits))
  }

  predicate ServersOk(parsers: Parsers, servers: map<string, Server>) {
    1 <= |servers| <= 64 && forall n :: n in servers ==> ServerOk(parsers, n, servers[n])
  }

  class Config {
    var host: string
    var listen: string
    var publicUrl: string
    var allowedHosts: seq<string>
    var auth: Auth
    var limits: Limits
    var servers: map<string, Server>

    constructor (host: string, listen: string, publicUrl: string, allowedHosts: seq<string>, auth: Auth,
                 limits: Limits, servers: map<string, Server>)
      ensures this.host == host && this.listen == listen && this.publicUrl == publicUrl
      ensures this.allowedHosts == allowedHosts && this.auth == auth && this.limits == limits && this.servers == servers
    {
      this.host, this.listen, this.publicUrl, this.allowedHosts := host, listen, publicUrl, allowedHosts;
      this.auth, this.limits, this.servers := auth, limits, servers;
    }

    ghost function Fields(): Fillable
      reads this
    {
      Fillable(listen, allowedHosts, limits)
    }

    /** Accepts exactly the acceptable policies, whatever order the servers are visited in,
        and leaves an accepted policy with its defaults filled in and nothing else changed. */
    method Validate(parsers: Parsers) returns (fault: Option<Fault>)
      modifies this`listen, this`allowedHosts, this`limits
      ensures fault.None? <==>
                var f := Defaults(old(Fields()));
                && parsers.name(host) && NetworkOk(parsers, f.listen, publicUrl) && AuthOk(parsers, auth, publicUrl)
                && LimitsOk(f.limits) && 1024 <= f.limits.outputBytes <= 16 * 1024 * 1024
                && ServersOk(parsers, servers)
      ensures fault.None? ==> Fields() == Defaults(old(Fields()))
      ensures listen == old(listen) || listen == Defaults(old(Fields())).listen
      ensures allowedHosts == old(allowedHosts) || allowedHosts == Defaults(old(Fields())).allowedHosts
      ensures limits == old(limits) || limits == Defaults(old(Fields())).limits
      ensures fault.None? ==>
                && listen == (if old(listen) == "" then "127.0.0.1:8787" else old(listen))
                && allowedHosts == (if old(allowedHosts) == [] then [listen] else old(allowedHosts))
    {
      if !parsers.name(host) { return Some(BadHost); }
      if listen == "" { listen := "127.0.0.1:8787"; }
      fault := CheckNetwork(parsers, listen, publicUrl);
      if fault.Some? { return; }
      if |allowedHosts| == 0 { allowedHosts := [listen]; }
      fault := CheckAuth(parsers, auth, publicUrl);
      if fault.Some? { return; }
      fault := CheckLimits();
      if fault.Some? { return; }
      fault := CheckServers(parsers, servers);
    }

    /** A limit of zero becomes its default, any other is kept, and all must then be in range. */
    method CheckLimits() returns (fault: Option<Fault>)
      modifies this`limits
      ensures limits == Filled(old(limits))
      ensures fault.None? <==> LimitsOk(limits) && 1024 <= limits.outputBytes <= 16 * 1024 * 1024
      ensures fault.Some? ==> fault.value.OutputRange? || fault.value.LimitsRange?
      ensures limits.sessions == if old(limits.sessions) == 0 then 16 else old(limits.sessions)
      ensures limits.concurrentCalls == if old(limits.concurrentCalls) == 0 then 4 else old(limits.concurrentCalls)
      ensures limits.timeoutSeconds == if old(limits.timeoutSeconds) == 0 then 60 else old(limits.timeoutSeconds)
      ensures limits.idleSeconds == if old(limits.idleSeconds) == 0 then 300 else old(limits.idleSeconds)
      ensures limits.bodyBytes == if old(limits.bodyBytes) == 0 then 1024 * 1024 else old(limits.bodyBytes)
      ensures limits.outputBytes == if old(limits.outputBytes) == 0 then 4 * 1024 * 1024 else old(limits.outputBytes)
    {
      if limits.sessions == 0 { limits := limits.(sessions := 16); }
      if limits.concurrentCalls == 0 { limits := limits.(concurrentCalls := 4); }
      if limits.timeoutSeconds == 0 { limits := limits.(timeoutSeconds := 60); }
      if limits.idleSeconds == 0 { limits := limits.(idleSeconds := 300); }
      if limits.bodyBytes == 0 { limits := limits.(bodyBytes := 0x10_0000); }
      if limits.outputBytes == 0 { limits := limits.(outputBytes := 0x40_0000); }
      if limits.outputBytes < 1024 || limits.outputBytes > 0x100_0000 { return Some(OutputRange); }
      if !LimitsOk(limits) { return Some(LimitsRange); }
      return None;
    }
  }

  method CheckNetwork(parsers: Parsers, listen: string, publicUrl: string) returns (fault: Option<Fault>)
    ensures fault.None? <==> NetworkOk(parsers, listen, publicUrl)
    ensures match fault
            case None => parsers.hostOf(listen).Some? && parsers.ip(parsers.hostOf(listen).value).Some?
                         && if publicUrl == "" then parsers.ip(parsers.hostOf(listen).value) == Some(true)
                            else parsers.origin(publicUrl)
            case Some(BadListen) => parsers.hostOf(listen).None?
            case Some(NotAnIp) => parsers.hostOf(listen).Some? && parsers.ip(parsers.hostOf(listen).value).None?
            case Some(BadPublicUrl) => publicUrl != "" && !parsers.origin(publicUrl)
            case Some(NeedsPublicUrl) => publicUrl == "" && parsers.hostOf(listen).Some?
                                         && parsers.ip(parsers.hostOf(listen).value) == Some(false)
            case _ => false
  {
    var h := parsers.hostOf(listen);
    if h.None? { return Some(BadListen); }
    var ip := parsers.ip(h.value);
    if ip.None? { return Some(NotAnIp); }
    if publicUrl != "" && !parsers.origin(publicUrl) { return Some(BadPublicUrl); }
    if !ip.value && publicUrl == "" { return Some(NeedsPublicUrl); }
    return None;
  }

  method CheckAuth(parsers: Parsers, auth: Auth, publicUrl: string) returns (fault: Option<Fault>)
    ensures fault.None? <==> AuthOk(parsers, auth, publicUrl)
    ensures match fault
            case None =>
              && (auth.issuer != "" ==> parsers.issuer(auth.issuer))
              && if auth.tokenEnv != "" then auth.issuer == "" && auth.publicKeyFile == ""
                 else "" !in {auth.issuer, auth.publicKeyFile, auth.audience, auth.scope, publicUrl}
            case Some(TwoAuths) => auth.tokenEnv != "" && (auth.issuer != "" || auth.publicKeyFile != "")
            case Some(NoAuth) =>
              auth.tokenEnv == "" && "" in {auth.issuer, auth.publicKeyFile, auth.audience, auth.scope, publicUrl}
            case Some(BadIssuer) => auth.issuer != "" && !parsers.issuer(auth.issuer)
            case _ => false
  {
    if auth.tokenEnv != "" && (auth.issuer != "" || auth.publicKeyFile != "") { return Some(TwoAuths); }
    if auth.tokenEnv == "" && (auth.issuer == "" || auth.publicKeyFile == "" || auth.audience == "" ||
                               auth.scope == "" || publicUrl == "") {
      return Some(NoAuth);
    }
    if auth.issuer != "" && !parsers.issuer(auth.issuer) { return Some(BadIssuer); }
    return None;
  }

  method CheckServers(parsers: Parsers, servers: map<string, Server>) returns (fault: Option<Fault>)
    ensures fault.None? <==> ServersOk(parsers, servers)
    ensures fault == Some(ServerCount) <==> |servers| < 1 || |servers| > 64
    ensures fault.None? ==> forall n :: n in servers ==> ServerOk(parsers, n, servers[n])
    ensures fault.Some? && !fault.value.ServerCount? ==> exists n :: n in servers && !ServerOk(parsers, n, servers[n])
  {
    if |servers| == 0 || |servers| > 64 { return Some(ServerCount); }
    var rest := servers.Keys;
    while rest != {}
      invariant rest <= servers.Keys
      invariant forall n :: n in servers && n !in rest ==> ServerOk(parsers, n, servers[n])
      decreases rest
    {
      var n :| n in rest;
      fault := CheckServer(parsers, n, servers[n]);
      if fault.Some? {
        return;
      }
      rest := rest - {n};
    }
    return None;
  }

  method CheckServer(parsers: Parsers, name: string, s: Server) returns (fault: Option<Fault>)
    ensures fault.None? <==> ServerOk(parsers, name, s)
    ensures match fault
            case None =>
              && (s.descriptionLimit == 0 || (64 <= s.descriptionLimit <= 4096 && "bridge_describe_tool" !in s.tools))
              && ((s.backendScope == "shared" && s.stateless)
                  || ((s.backendScope == "" || s.backendScope == "session") && !s.stateless))
              && parsers.name(name)
              && ((s.registryName == "" && s.command != "")
                  || (s.registryName != "" && s.command == "" && s.args == [] && s.envKeys == [] && s.cwd == ""))
              && s.tools + s.prompts + s.resources != []
              && ListOk(s.tools) && ListOk(s.prompts) && ListOk(s.resources)
            case Some(DescriptionRange) =>
              s.descriptionLimit < 0 || 0 < s.descriptionLimit < 64 || s.descriptionLimit > 4096
            case Some(ReservedName) => s.descriptionLimit > 0 && "bridge_describe_tool" in s.tools
            case Some(BadScope) => s.backendScope != "" && s.backendScope != "session" && s.backendScope != "shared"
            case Some(ScopeMismatch) => (s.backendScope == "shared") != s.stateless
            case Some(BadName) => !parsers.name(name)
            case Some(NotOneSource) => (s.registryName == "") == (s.command == "")
            case Some(Overridden) => s.registryName != "" && (s.args != [] || s.envKeys != [] || s.cwd != "")
            case Some(NothingExposed) => s.tools == [] && s.prompts == [] && s.resources == []
            case Some(BadEntry) => !ListOk(s.tools) || !ListOk(s.prompts) || !ListOk(s.resources)
            case _ => false
  {
    if s.descriptionLimit != 0 && (s.descriptionLimit < 64 || s.descriptionLimit > 4096) {
      return Some(DescriptionRange);
    }
    for i := 0 to |s.tools|
      invariant s.descriptionLimit > 0 ==> DESCRIBE_TOOL !in s.tools[..i]
    {
      if s.descriptionLimit > 0 && s.tools[i] == DESCRIBE_TOOL { return Some(ReservedName); }
    }
    assert s.tools[..|s.tools|] == s.tools;
    if s.backendScope != "" && s.backendScope != "session" && s.backendScope != "shared" { return Some(BadScope); }
    if (s.backendScope == "shared") != s.stateless { return Some(ScopeMismatch); }
    if !parsers.name(name) { return Some(BadName); }
    if (s.registryName == "") == (s.command == "") { return Some(NotOneSource); }
    if s.registryName != "" && (|s.args| > 0 || |s.envKeys| > 0 || s.cwd != "") { return Some(Overridden); }
    if |s.tools| + |s.prompts| + |s.resources| == 0 { return Some(NothingExposed); }
    var lists := [s.tools, s.prompts, s.resources];
    for i := 0 to |lists|
      invariant forall j :: 0 <= j < i ==> ListOk(lists[j])
    {
      var ok := CheckList(lists[i]);
      if !ok { return Some(BadEntry); }
    }
    assert ListOk(lists[0]) && ListOk(lists[1]) && ListOk(lists[2]);
    return None;
  }

  method CheckList(list: seq<string>) returns (ok: bool)
    ensures ok <==> ListOk(list)
    ensures ok <==> "" !in list && "*" !in list && forall i, j :: 0 <= i < j < |list| ==> list[i] != list[j]
  {
    var seen: set<string> := {};
    for i := 0 to |list|
      invariant forall v :: v in seen <==> v in list[..i]
      invariant ListOk(list[..i])
    {
      var v := list[i];
      if v == "" || v == "*" || v in seen {
        return false;
      }
      assert list[..i + 1] == list[..i] + [v];
      seen := seen + {v};
    }
    assert list[..|list|] == list;
    return true;
  }
}
