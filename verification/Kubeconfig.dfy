/** From a kubeconfig to an ArgoCD cluster configuration, and the library
    functions that conversion leans on. */
module Kubeconfig {
  import opened Results
  import opened Text
  import opened Exec

  datatype ClusterEntry = ClusterEntry(
    server: string, caData: string, caFile: string, insecure: bool, tlsServerName: string, proxyUrl: string)

  datatype UserEntry = UserEntry(
    token: string, tokenFile: string, certData: string, keyData: string,
    certFile: string, keyFile: string, exec: Option<ExecBlock>, authProvider: bool)

  datatype Named<T> = Named(name: string, value: T)
  datatype Context = Context(name: string, cluster: string, user: string)

  datatype Config = Config(
    clusters: seq<Named<ClusterEntry>>,
    users: seq<Named<UserEntry>>,
    contexts: seq<Context>,
    currentContext: string)

  /** What url.Parse yields of an address: its host, scheme, whether it carries
      user information, and its normal form. */
  datatype Url = Url(host: string, scheme: string, hasUser: bool, text: string)

  datatype TlsConfig = TlsConfig(insecure: bool, caData: string, certData: string, keyData: string, serverName: string)

  /** ArgoCD's cluster `config` blob before encoding. */
  datatype ArgoConfig = ArgoConfig(
    bearerToken: string, tls: TlsConfig, proxyUrl: string, aws: Option<AwsAuth>, exec: Option<ExecProvider>)

  /** Library functions the tool calls but does not define. Everything proved
      holds for every choice of them, unless a lemma names what it needs. */
  datatype Library = Library(
    decodeYaml: string -> Option<Config>,
    parseUrl: string -> Option<Url>,
    encodeJson: ArgoConfig -> string,
    decodeJson: string -> Option<ArgoConfig>,
    notAfter: string -> Option<int>,
    matches: (string, string) -> bool,
    globValid: string -> bool,
    dns1123: string -> bool,
    labelValue: string -> bool,
    qualifiedParts: string -> bool,
    stamp: int -> string,
    unstamp: string -> Option<int>)

  datatype ParseError =
    | NotYaml | NoClusters | NoUsers | NoCurrentContext | UnknownCluster | UnknownUser | NoSuchContext
    | NoServer | BadServer | InClusterServer
    | BadProxy | ProxyScheme | ProxyCredentials | ProxyInsecure
    | CaByPath | CredentialByPath | AuthProvider
    | ExecNotAllowed | ExecRefused(error: ExecError) | NoCredential

  // ------------------------------------------------------------------ resolve

  /** The first entry of that name. */
  function Find<T>(entries: seq<Named<T>>, name: string): Option<T> {
    if entries == [] then None
    else if entries[0].name == name then Some(entries[0].value)
    else Find(entries[1..], name)
  }

  function FindContext(contexts: seq<Context>, name: string): Option<Context> {
    if contexts == [] then None
    else if contexts[0].name == name then Some(contexts[0])
    else FindContext(contexts[1..], name)
  }

  function Resolve(kc: Config): Result<(ClusterEntry, UserEntry), ParseError> {
    if kc.clusters == [] then Err(NoClusters)
    else if kc.users == [] then Err(NoUsers)
    else if |kc.clusters| == 1 && |kc.users| == 1 then Ok((kc.clusters[0].value, kc.users[0].value))
    else if kc.currentContext == "" then Err(NoCurrentContext)
    else
      match FindContext(kc.contexts, kc.currentContext)
      case None => Err(NoSuchContext)
      case Some(ctx) =>
        match (Find(kc.clusters, ctx.cluster), Find(kc.users, ctx.user))
        case (None, _) => Err(UnknownCluster)
        case (Some(_), None) => Err(UnknownUser)
        case (Some(c), Some(u)) => Ok((c, u))
  }

  method Search<T>(entries: seq<Named<T>>, name: string) returns (r: Option<T>)
    ensures r == Find(entries, name)
  {
    for i := 0 to |entries|
      invariant Find(entries[i..], name) == Find(entries, name)
    {
      if entries[i].name == name {
        return Some(entries[i].value);
      }
    }
    return None;
  }

  method ResolvePair(kc: Config) returns (r: Result<(ClusterEntry, UserEntry), ParseError>)
    ensures r == Resolve(kc)
  {
    if |kc.clusters| == 0 {
      return Err(NoClusters);
    }
    if |kc.users| == 0 {
      return Err(NoUsers);
    }
    if |kc.clusters| == 1 && |kc.users| == 1 {
      return Ok((kc.clusters[0].value, kc.users[0].value));
    }
    if kc.currentContext == "" {
      return Err(NoCurrentContext);
    }
    for i := 0 to |kc.contexts|
      invariant FindContext(kc.contexts[i..], kc.currentContext) == FindContext(kc.contexts, kc.currentContext)
    {
      var ctx := kc.contexts[i];
      if ctx.name != kc.currentContext {
        continue;
      }
      var cluster := Search(kc.clusters, ctx.cluster);
      var user := Search(kc.users, ctx.user);
      if cluster.None? {
        return Err(UnknownCluster);
      }
      if user.None? {
        return Err(UnknownUser);
      }
      return Ok((cluster.value, user.value));
    }
    return Err(NoSuchContext);
  }

  /** v is the value of the first entry called `name`. */
  ghost predicate FirstNamed<T>(entries: seq<Named<T>>, name: string, v: T) {
    exists i :: 0 <= i < |entries| && entries[i].name == name && entries[i].value == v
                && forall j :: 0 <= j < i ==> entries[j].name != name
  }

  lemma {:induction false} FindIsFirst<T>(entries: seq<Named<T>>, name: string, v: T)
    ensures Find(entries, name) == Some(v) <==> FirstNamed(entries, name, v)
  {
    if entries != [] {
      if entries[0].name != name {
        FindIsFirst(entries[1..], name, v);
        if FirstNamed(entries[1..], name, v) {
          var i :| 0 <= i < |entries[1..]| && entries[1..][i].name == name && entries[1..][i].value == v
                   && forall j :: 0 <= j < i ==> entries[1..][j].name != name;
          assert entries[i + 1].name == name;
          assert forall j :: 0 < j < i + 1 ==> entries[j] == entries[1..][j - 1];
        }
        if FirstNamed(entries, name, v) {
          var i :| 0 <= i < |entries| && entries[i].name == name && entries[i].value == v
                   && forall j :: 0 <= j < i ==> entries[j].name != name;
          assert entries[1..][i - 1].name == name;
          assert forall j :: 0 <= j < i - 1 ==> entries[1..][j] == entries[j + 1];
        }
      } else {
        assert entries[0].value == v ==> FirstNamed(entries, name, v);
      }
    }
  }

  ghost predicate CurrentContext(kc: Config, ctx: Context) {
    exists i :: 0 <= i < |kc.contexts| && kc.contexts[i] == ctx && ctx.name == kc.currentContext
                && forall j :: 0 <= j < i ==> kc.contexts[j].name != kc.currentContext
  }

  lemma {:induction false} FindMisses<T>(entries: seq<Named<T>>, name: string)
    ensures Find(entries, name) == None <==> forall x :: x in entries ==> x.name != name
  {
    if entries != [] {
      FindMisses(entries[1..], name);
      assert entries == [entries[0]] + entries[1..];
    }
  }

  lemma {:induction false} ContextMisses(contexts: seq<Context>, name: string)
    ensures FindContext(contexts, name) == None <==> forall x :: x in contexts ==> x.name != name
  {
    if contexts != [] {
      ContextMisses(contexts[1..], name);
      assert contexts == [contexts[0]] + contexts[1..];
    }
  }

  lemma {:induction false} ContextIsFirst(contexts: seq<Context>, name: string, ctx: Context)
    ensures FindContext(contexts, name) == Some(ctx) <==>
            exists i :: 0 <= i < |contexts| && contexts[i] == ctx && ctx.name == name
                        && forall j :: 0 <= j < i ==> contexts[j].name != name
  {
    if contexts != [] {
      if contexts[0].name == name {
        assert contexts[0] == ctx ==> ctx.name == name;
      } else {
        ContextIsFirst(contexts[1..], name, ctx);
        if i :| 0 <= i < |contexts[1..]| && contexts[1..][i] == ctx && ctx.name == name
                && forall j :: 0 <= j < i ==> contexts[1..][j].name != name {
          assert contexts[i + 1] == ctx;
          assert forall j :: 0 < j < i + 1 ==> contexts[j] == contexts[1..][j - 1];
        }
        if i :| 0 <= i < |contexts| && contexts[i] == ctx && ctx.name == name
                && forall j :: 0 <= j < i ==> contexts[j].name != name {
          assert contexts[1..][i - 1] == ctx;
          assert forall j :: 0 <= j < i - 1 ==> contexts[1..][j] == contexts[j + 1];
        }
      }
    }
  }

  predicate Single(kc: Config) {
    |kc.clusters| == 1 && |kc.users| == 1
  }

  /** No credential is ever paired with another entry's server: the pair is the
      only one there is, or both halves are named by one context, the current one. */
  ghost predicate RightPair(kc: Config, c: ClusterEntry, u: UserEntry) {
    if Single(kc) then c == kc.clusters[0].value && u == kc.users[0].value
    else kc.currentContext != "" && exists ctx ::
      CurrentContext(kc, ctx) && FirstNamed(kc.clusters, ctx.cluster, c) && FirstNamed(kc.users, ctx.user, u)
  }

  lemma ResolvesRightPair(kc: Config, c: ClusterEntry, u: UserEntry)
    ensures Resolve(kc) == Ok((c, u)) <==> RightPair(kc, c, u)
  {
    if !Single(kc) {
      forall ctx ensures FindContext(kc.contexts, kc.currentContext) == Some(ctx) <==> CurrentContext(kc, ctx) {
        ContextIsFirst(kc.contexts, kc.currentContext, ctx);
      }
      forall ctx: Context
        ensures Find(kc.clusters, ctx.cluster) == Some(c) <==> FirstNamed(kc.clusters, ctx.cluster, c)
        ensures Find(kc.users, ctx.user) == Some(u) <==> FirstNamed(kc.users, ctx.user, u)
      {
        FindIsFirst(kc.clusters, ctx.cluster, c);
        FindIsFirst(kc.users, ctx.user, u);
      }
    }
  }

  /** Why no pair can be picked: nothing to pick from, no context to pick by, or a
      context that names what is not there. */
  ghost predicate Unresolvable(kc: Config, e: ParseError) {
    match e
    case NoClusters => kc.clusters == []
    case NoUsers => kc.clusters != [] && kc.users == []
    case NoCurrentContext => kc.clusters != [] && kc.users != [] && !Single(kc) && kc.currentContext == ""
    case NoSuchContext =>
      && kc.clusters != [] && kc.users != [] && !Single(kc) && kc.currentContext != ""
      && forall x :: x in kc.contexts ==> x.name != kc.currentContext
    case UnknownCluster =>
      && kc.clusters != [] && kc.users != [] && !Single(kc) && kc.currentContext != ""
      && exists ctx :: CurrentContext(kc, ctx) && forall x :: x in kc.clusters ==> x.name != ctx.cluster
    case UnknownUser =>
      && kc.clusters != [] && kc.users != [] && !Single(kc) && kc.currentContext != ""
      && exists ctx :: CurrentContext(kc, ctx) && !(forall x :: x in kc.clusters ==> x.name != ctx.cluster)
                       && forall x :: x in kc.users ==> x.name != ctx.user
    case _ => false
  }

  lemma ResolveRefuses(kc: Config, e: ParseError)
    ensures Resolve(kc) == Err(e) <==> Unresolvable(kc, e)
  {
    if !Single(kc) {
      ContextMisses(kc.contexts, kc.currentContext);
      forall ctx ensures FindContext(kc.contexts, kc.currentContext) == Some(ctx) <==> CurrentContext(kc, ctx) {
        ContextIsFirst(kc.contexts, kc.currentContext, ctx);
      }
      forall ctx: Context
        ensures Find(kc.clusters, ctx.cluster) == None <==> forall x :: x in kc.clusters ==> x.name != ctx.cluster
        ensures Find(kc.users, ctx.user) == None <==> forall x :: x in kc.users ==> x.name != ctx.user
      {
        FindMisses(kc.clusters, ctx.cluster);
        FindMisses(kc.users, ctx.user);
      }
    }
  }

  // -------------------------------------------------------------------- parse

  function LowerChar(c: char): char {
    if 'A' <= c <= 'Z' then c - 'A' + 'a' else c
  }

  function Lower(s: string): string {
    seq(|s|, i requires 0 <= i < |s| => LowerChar(s[i]))
  }

  const IN_CLUSTER_HOSTS := {
    "kubernetes.default.svc", "kubernetes.default.svc:443",
    "kubernetes.default", "kubernetes.default:443",
    "kubernetes.default.svc.cluster.local", "kubernetes.default.svc.cluster.local:443" }

  predicate IsInCluster(lib: Library, server: string) {
    var u := lib.parseUrl(server);
    u.Some? && Lower(u.value.host) in IN_CLUSTER_HOSTS
  }

  ghost predicate SameButForCase(a: string, b: string) {
    |a| == |b| && forall i :: 0 <= i < |a| ==>
      b[i] == if 'A' <= a[i] <= 'Z' then (a[i] as int - 'A' as int + 'a' as int) as char else a[i]
  }

  /** The management cluster's own address, however its host is capitalised. */
  lemma InClusterInAnyCase(lib: Library, server: string)
    ensures IsInCluster(lib, server) <==>
            lib.parseUrl(server).Some?
            && exists h :: h in IN_CLUSTER_HOSTS && SameButForCase(lib.parseUrl(server).value.host, h)
  {
    if lib.parseUrl(server).Some? {
      var host := lib.parseUrl(server).value.host;
      forall h ensures SameButForCase(host, h) <==> h == Lower(host) {
      }
    }
  }

  const PROXY_SCHEMES := {"http", "https", "socks5", "socks5h"}

  function ParseProxyURL(lib: Library, raw: string, insecure: bool): Result<string, ParseError> {
    if raw == "" then Ok("")
    else
      var p := lib.parseUrl(raw);
      if p.None? || p.value.host == "" then Err(BadProxy)
      else if p.value.scheme !in PROXY_SCHEMES then Err(ProxyScheme)
      else if p.value.hasUser then Err(ProxyCredentials)
      else if insecure then Err(ProxyInsecure)
      else Ok(p.value.text)
  }

  /** What one candidate yields, before the config is encoded. */
  datatype Parsed = Parsed(server: string, config: ArgoConfig, insecure: bool, execCommand: string)

  /** The credential blob for a user, given the connection half of it. */
  function WithCredential(base: ArgoConfig, u: UserEntry, allowExec: bool): Result<(ArgoConfig, string), ParseError> {
    if u.certData != "" && u.keyData != "" then
      Ok((base.(tls := base.tls.(certData := u.certData, keyData := u.keyData)), ""))
    else if u.token != "" then Ok((base.(bearerToken := u.token), ""))
    else if u.exec.Some? then
      if !allowExec then Err(ExecNotAllowed)
      else
        match TranslateExec(u.exec.value)
        case Err(e) => Err(ExecRefused(e))
        case Ok(cred) => Ok((base.(aws := cred.aws, exec := cred.exec), Base(u.exec.value.command)))
    else Err(NoCredential)
  }

  function ParsePair(lib: Library, c: ClusterEntry, u: UserEntry, allowExec: bool): Result<Parsed, ParseError> {
    if c.server == "" then Err(NoServer)
    else
      var parsed := lib.parseUrl(c.server);
      if parsed.None? || parsed.value.host == "" then Err(BadServer)
      else
        var server := TrimSlashes(c.server);
        if IsInCluster(lib, server) then Err(InClusterServer)
        else
          match ParseProxyURL(lib, c.proxyUrl, c.insecure)
          case Err(e) => Err(e)
          case Ok(proxy) =>
            if c.caFile != "" then Err(CaByPath)
            else if u.certFile != "" || u.keyFile != "" || u.tokenFile != "" then Err(CredentialByPath)
            else if u.authProvider then Err(AuthProvider)
            else
              var base := ArgoConfig("", TlsConfig(c.insecure, c.caData, "", "", c.tlsServerName), proxy, None, None);
              match WithCredential(base, u, allowExec)
              case Err(e) => Err(e)
              case Ok((config, command)) => Ok(Parsed(server, config, c.insecure, command))
  }

  /** The specification of parseKubeconfig. */
  function Parse(lib: Library, raw: string, allowExec: bool): Result<Parsed, ParseError> {
    match lib.decodeYaml(raw)
    case None => Err(NotYaml)
    case Some(kc) =>
      match Resolve(kc)
      case Err(e) => Err(e)
      case Ok((c, u)) => ParsePair(lib, c, u, allowExec)
  }

  method ParseKubeconfig(lib: Library, raw: string, allowExec: bool) returns (r: Result<Parsed, ParseError>)
    ensures r == Parse(lib, raw, allowExec)
  {
    var kc := lib.decodeYaml(raw);
    if kc.None? {
      return Err(NotYaml);
    }
    var pair := ResolvePair(kc.value);
    if pair.Err? {
      return Err(pair.error);
    }
    var (c, u) := pair.value;
    if c.server == "" {
      return Err(NoServer);
    }
    var parsed := lib.parseUrl(c.server);
    if parsed.None? || parsed.value.host == "" {
      return Err(BadServer);
    }
    var server := TrimSlashes(c.server);
    if IsInCluster(lib, server) {
      return Err(InClusterServer);
    }
    var proxy := ParseProxyURL(lib, c.proxyUrl, c.insecure);
    if proxy.Err? {
      return Err(proxy.error);
    }
    if c.caFile != "" {
      return Err(CaByPath);
    }
    if u.certFile != "" || u.keyFile != "" || u.tokenFile != "" {
      return Err(CredentialByPath);
    }
    if u.authProvider {
      return Err(AuthProvider);
    }
    var cfg := ArgoConfig("", TlsConfig(c.insecure, c.caData, "", "", c.tlsServerName), proxy.value, None, None);
    var execCommand := "";
    if u.certData != "" && u.keyData != "" {
      cfg := cfg.(tls := cfg.tls.(certData := u.certData));
      cfg := cfg.(tls := cfg.tls.(keyData := u.keyData));
    } else if u.token != "" {
      cfg := cfg.(bearerToken := u.token);
    } else if u.exec.Some? {
      if !allowExec {
        return Err(ExecNotAllowed);
      }
      var cred := Translate(u.exec.value);
      if cred.Err? {
        return Err(ExecRefused(cred.error));
      }
      cfg := cfg.(aws := cred.value.aws, exec := cred.value.exec);
      execCommand := Base(u.exec.value.command);
    } else {
      return Err(NoCredential);
    }
    return Ok(Parsed(server, cfg, c.insecure, execCommand));
  }

  // --------------------------------------------------------------- properties

  /** The three ways a registration can authenticate. */
  datatype Kind = Certificate | Token | ExecPlugin

  /** The kind a user entry asks for: certificates first, exec last. */
  function KindOf(u: UserEntry): Kind {
    if u.certData != "" && u.keyData != "" then Certificate
    else if u.token != "" then Token
    else ExecPlugin
  }

  /** The configuration carries credentials of this kind and of no other. */
  ghost predicate Exactly(k: Kind, cfg: ArgoConfig) {
    && ((cfg.tls.certData != "") <==> k == Certificate)
    && ((cfg.tls.keyData != "") <==> k == Certificate)
    && ((cfg.bearerToken != "") <==> k == Token)
    && ((cfg.aws.Some? || cfg.exec.Some?) <==> k == ExecPlugin)
    && !(cfg.aws.Some? && cfg.exec.Some?)
  }

  /** A successful parse uses the right pair, a trimmed address that is not the
      management cluster's own, one credential kind with the user's own values,
      and exec only when it is allowed. */
  lemma ParseIsFaithful(lib: Library, raw: string, allowExec: bool) returns (kc: Config, c: ClusterEntry, u: UserEntry)
    requires Parse(lib, raw, allowExec).Ok?
    ensures lib.decodeYaml(raw) == Some(kc) && RightPair(kc, c, u)
    ensures var p := Parse(lib, raw, allowExec).value;
            && p.server == TrimSlashes(c.server) && TrimSlashes(p.server) == p.server
            && !IsInCluster(lib, p.server)
            && p.config.tls.caData == c.caData && p.config.tls.serverName == c.tlsServerName
            && p.config.tls.insecure == c.insecure == p.insecure
            && Exactly(KindOf(u), p.config)
            && (u.certData != "" && u.keyData != "" ==>
                  && p.config.tls.certData == u.certData && p.config.tls.keyData == u.keyData
                  && p.config.bearerToken == "")
            && (u.certData == "" || u.keyData == "" ==>
                  p.config.tls.certData == p.config.tls.keyData == "" && p.config.bearerToken == u.token)
            && (KindOf(u) == Certificate ==> p.config.tls.certData == u.certData && p.config.tls.keyData == u.keyData)
            && (KindOf(u) == Token ==> p.config.bearerToken == u.token)
            && (KindOf(u) == ExecPlugin ==> allowExec && WellShaped(Credential(p.config.aws, p.config.exec)))
            && (c.proxyUrl == "" ==> p.config.proxyUrl == "")
            && (c.proxyUrl != "" ==>
                  !p.insecure && lib.parseUrl(c.proxyUrl).Some?
                  && p.config.proxyUrl == lib.parseUrl(c.proxyUrl).value.text)
            && (KindOf(u) == ExecPlugin <==> p.execCommand != "")
            && (KindOf(u) == ExecPlugin ==>
                  u.exec.Some? && p.execCommand == Base(u.exec.value.command)
                  && OutcomeFor(Base(TrimSpace(u.exec.value.command)), u.exec.value.args,
                                Ok(Credential(p.config.aws, p.config.exec))))
  {
    kc := lib.decodeYaml(raw).value;
    c, u := Resolve(kc).value.0, Resolve(kc).value.1;
    ResolvesRightPair(kc, c, u);
    if KindOf(u) == ExecPlugin {
      SuccessIsWellShaped(u.exec.value);
      TranslationHasOutcome(u.exec.value);
      BaseNonEmpty(u.exec.value.command);
    }
  }

  /** What is wrong with a pair, each fault by itself. */
  predicate Fault(lib: Library, c: ClusterEntry, u: UserEntry, allowExec: bool, e: ParseError) {
    var proxy := lib.parseUrl(c.proxyUrl);
    var embedded := (u.certData != "" && u.keyData != "") || u.token != "";
    match e
    case NoServer => c.server == ""
    case BadServer => lib.parseUrl(c.server).None? || lib.parseUrl(c.server).value.host == ""
    case InClusterServer => IsInCluster(lib, TrimSlashes(c.server))
    case BadProxy => c.proxyUrl != "" && (proxy.None? || proxy.value.host == "")
    case ProxyScheme => c.proxyUrl != "" && proxy.Some? && proxy.value.scheme !in PROXY_SCHEMES
    case ProxyCredentials => c.proxyUrl != "" && proxy.Some? && proxy.value.hasUser
    case ProxyInsecure => c.proxyUrl != "" && c.insecure
    case CaByPath => c.caFile != ""
    case CredentialByPath => u.certFile != "" || u.keyFile != "" || u.tokenFile != ""
    case AuthProvider => u.authProvider
    case ExecNotAllowed => !embedded && u.exec.Some? && !allowExec
    case ExecRefused(error) => !embedded && u.exec.Some? && TranslateExec(u.exec.value) == Err(error)
    case NoCredential => !embedded && u.exec.None?
    case _ => false
  }

  /** The order in which faults are reported. */
  function Rank(e: ParseError): nat {
    match e
    case NoServer => 0
    case BadServer => 1
    case InClusterServer => 2
    case BadProxy => 3
    case ProxyScheme => 4
    case ProxyCredentials => 5
    case ProxyInsecure => 6
    case CaByPath => 7
    case CredentialByPath => 8
    case AuthProvider => 9
    case ExecNotAllowed => 10
    case _ => 11
  }

  ghost predicate FirstFault(lib: Library, c: ClusterEntry, u: UserEntry, allowExec: bool, e: ParseError) {
    Fault(lib, c, u, allowExec, e) && forall e' :: Rank(e') < Rank(e) ==> !Fault(lib, c, u, allowExec, e')
  }

  /** A pair is refused exactly for the first of its faults, so it is accepted
      exactly when it has none. */
  lemma PairRefusedExactly(lib: Library, c: ClusterEntry, u: UserEntry, allowExec: bool, e: ParseError)
    ensures ParsePair(lib, c, u, allowExec) == Err(e) <==> FirstFault(lib, c, u, allowExec, e)
  {
    match ParsePair(lib, c, u, allowExec)
    case Ok(_) => AcceptedHasNone(lib, c, u, allowExec, e);
    case Err(first) =>
      RefusedHasFirst(lib, c, u, allowExec, first);
      assert Rank(e) < Rank(first) || Rank(first) < Rank(e) || Rank(first) == Rank(e);
  }

  lemma AcceptedHasNone(lib: Library, c: ClusterEntry, u: UserEntry, allowExec: bool, e: ParseError)
    requires ParsePair(lib, c, u, allowExec).Ok?
    ensures !Fault(lib, c, u, allowExec, e)
  {
  }

  lemma RefusedHasFirst(lib: Library, c: ClusterEntry, u: UserEntry, allowExec: bool, e: ParseError)
    requires ParsePair(lib, c, u, allowExec) == Err(e)
    ensures FirstFault(lib, c, u, allowExec, e)
  {
    forall e' | Rank(e') < Rank(e) ensures !Fault(lib, c, u, allowExec, e') {
      RefusedSparesEarlier(lib, c, u, allowExec, e, e');
    }
  }

  lemma RefusedSparesEarlier(lib: Library, c: ClusterEntry, u: UserEntry, allowExec: bool, e: ParseError,
                             earlier: ParseError)
    requires ParsePair(lib, c, u, allowExec) == Err(e) && Rank(earlier) < Rank(e)
    ensures !Fault(lib, c, u, allowExec, earlier)
  {
  }

  /** Every refusal is exactly one of three kinds: not YAML, no pair to pick, or the
      first fault of the right pair. */
  lemma RefusedExactly(lib: Library, raw: string, allowExec: bool, e: ParseError)
    ensures Parse(lib, raw, allowExec) == Err(e) <==>
            match lib.decodeYaml(raw)
            case None => e == NotYaml
            case Some(kc) => || Unresolvable(kc, e)
                             || exists c, u :: RightPair(kc, c, u) && FirstFault(lib, c, u, allowExec, e)
  {
    if lib.decodeYaml(raw).Some? {
      var kc := lib.decodeYaml(raw).value;
      ResolveRefuses(kc, e);
      forall c, u ensures Resolve(kc) == Ok((c, u)) <==> RightPair(kc, c, u) {
        ResolvesRightPair(kc, c, u);
      }
      if Resolve(kc).Ok? {
        PairRefusedExactly(lib, Resolve(kc).value.0, Resolve(kc).value.1, allowExec, e);
      }
    }
  }

  lemma BaseNonEmpty(s: string)
    ensures Base(s) != ""
  {
  }
}
