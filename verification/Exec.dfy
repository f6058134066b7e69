/** Translation of a kubeconfig exec credential into ArgoCD's own shapes. */
module Exec {
  import opened Results
  import opened Text

  const AUTH_COMMAND := "argocd-k8s-auth"
  const API_VERSION := "client.authentication.k8s.io/v1beta1"
  const API_VERSION_V1 := "client.authentication.k8s.io/v1"

  const SERVER_APP := "AAD_SERVER_APPLICATION_ID"
  const ENVIRONMENT_NAME := "AAD_ENVIRONMENT_NAME"

  datatype ExecBlock = ExecBlock(apiVersion: string, command: string, args: seq<string>)

  datatype AwsAuth = AwsAuth(clusterName: string)
  datatype ExecProvider = ExecProvider(command: string, args: seq<string>, env: map<string, string>, apiVersion: string)
  datatype Credential = Credential(aws: Option<AwsAuth>, exec: Option<ExecProvider>)

  datatype ExecError =
    | BadApiVersion
    | NoEquivalent
    | IdentityFlag(name: string)
    | UnsupportedFlag(name: string)
    | NotGetToken
    | NoClusterName

  // ---------------------------------------------------------------- scanning

  predicate Dashed(a: string) {
    HasPrefix(a, "-")
  }

  /** A flag whose value, if any, is the next argument. */
  predicate Bare(a: string) {
    Dashed(a) && '=' !in a
  }

  /** The part of an argument before its first '='. */
  function FlagName(a: string): string {
    if a == "" || a[0] == '=' then "" else [a[0]] + FlagName(a[1..])
  }

  /** What the first argument contributes to a search for one of `names`. */
  function MatchHead(args: seq<string>, names: seq<string>): Option<string>
    requires args != []
  {
    if names == [] then None
    else if args[0] == names[0] && |args| > 1 then Some(args[1])
    else if HasPrefix(args[0], names[0] + "=") then Some(args[0][|names[0]| + 1..])
    else MatchHead(args, names[1..])
  }

  /** execFlag: the value of the first argument that matches. */
  function ExecFlag(args: seq<string>, names: seq<string>): Option<string> {
    if args == [] then None
    else
      var m := MatchHead(args, names);
      if m.Some? then m else ExecFlag(args[1..], names)
  }

  /** The i-th argument is one of the names followed by this value, or a name, an
      equals sign and this value. */
  predicate AnswersAt(args: seq<string>, i: int, names: seq<string>, v: string) {
    && 0 <= i < |args|
    && exists n :: n in names
         && ((args[i] == n && i + 1 < |args| && v == args[i + 1])
             || (HasPrefix(args[i], n + "=") && v == args[i][|n| + 1..]))
  }

  predicate SilentAt(args: seq<string>, i: int, names: seq<string>) {
    && 0 <= i < |args|
    && forall n :: n in names ==> !(args[i] == n && i + 1 < |args|) && !HasPrefix(args[i], n + "=")
  }

  /** The first argument that answers to one of the names has this value. */
  ghost predicate FirstAnswer(args: seq<string>, names: seq<string>, v: string) {
    exists i :: AnswersAt(args, i, names, v) && forall j :: 0 <= j < i ==> SilentAt(args, j, names)
  }

  ghost predicate NoAnswer(args: seq<string>, names: seq<string>) {
    forall i :: 0 <= i < |args| ==> SilentAt(args, i, names)
  }

  lemma {:induction false} MatchMeans(args: seq<string>, names: seq<string>)
    requires args != []
    ensures match MatchHead(args, names)
            case Some(v) => AnswersAt(args, 0, names, v)
            case None => SilentAt(args, 0, names)
  {
    if names != [] {
      MatchMeans(args, names[1..]);
      assert names[0] in names && forall n :: n in names <==> n == names[0] || n in names[1..];
    }
  }

  lemma AnswersLater(args: seq<string>, i: int, names: seq<string>, v: string)
    requires args != [] && 0 <= i < |args| - 1
    ensures AnswersAt(args[1..], i, names, v) <==> AnswersAt(args, i + 1, names, v)
    ensures SilentAt(args[1..], i, names) <==> SilentAt(args, i + 1, names)
  {
  }

  /** What a search finds is the value of the first argument that answers, and it
      finds nothing exactly when none does. */
  lemma {:induction false} SearchMeans(args: seq<string>, names: seq<string>)
    ensures match ExecFlag(args, names)
            case Some(v) => FirstAnswer(args, names, v)
            case None => NoAnswer(args, names)
  {
    if args != [] {
      MatchMeans(args, names);
      if MatchHead(args, names).None? {
        SearchMeans(args[1..], names);
        forall i | 0 <= i < |args| - 1 ensures SilentAt(args[1..], i, names) <==> SilentAt(args, i + 1, names) {
          AnswersLater(args, i, names, "");
        }
        if ExecFlag(args, names).Some? {
          var v := ExecFlag(args, names).value;
          var i :| AnswersAt(args[1..], i, names, v) && forall j :: 0 <= j < i ==> SilentAt(args[1..], j, names);
          AnswersLater(args, i, names, v);
          forall j | 0 <= j < i + 1 ensures SilentAt(args, j, names) {
            if j > 0 { assert SilentAt(args[1..], j - 1, names); }
          }
        } else {
          forall j | 0 <= j < |args| ensures SilentAt(args, j, names) {
            if j > 0 { assert SilentAt(args[1..], j - 1, names); }
          }
        }
      } else {
        assert AnswersAt(args, 0, names, MatchHead(args, names).value);
      }
    }
  }

  method FindFlag(args: seq<string>, names: seq<string>) returns (r: Option<string>)
    ensures r == ExecFlag(args, names)
    ensures match r
            case Some(v) => FirstAnswer(args, names, v)
            case None => NoAnswer(args, names)
  {
    SearchMeans(args, names);
    for i := 0 to |args|
      invariant ExecFlag(args[i..], names) == ExecFlag(args, names)
    {
      var a := args[i];
      for j := 0 to |names|
        invariant MatchHead(args[i..], names[j..]) == MatchHead(args[i..], names)
      {
        var n := names[j];
        if a == n && i + 1 < |args| {
          return Some(args[i + 1]);
        }
        if HasPrefix(a, n + "=") {
          return Some(a[|n| + 1..]);
        }
      }
    }
    return None;
  }

  const IDENTITY_FLAGS := {"-r", "--role", "--role-arn", "--profile"}

  /** refuseUnsupportedArgs: the first flag outside the allowlist. */
  function Refusal(args: seq<string>, allowed: set<string>): Option<ExecError> {
    if args == [] then None
    else if !Dashed(args[0]) then Refusal(args[1..], allowed)
    else if FlagName(args[0]) in allowed then
      if '=' !in args[0] && |args| > 1 then Refusal(args[2..], allowed) else Refusal(args[1..], allowed)
    else if FlagName(args[0]) in IDENTITY_FLAGS then Some(IdentityFlag(FlagName(args[0])))
    else Some(UnsupportedFlag(FlagName(args[0])))
  }

  method RefuseUnsupportedArgs(args: seq<string>, allowed: set<string>) returns (r: Option<ExecError>)
    ensures r == Refusal(args, allowed)
  {
    var i := 0;
    while i < |args|
      invariant 0 <= i <= |args|
      invariant Refusal(args[i..], allowed) == Refusal(args, allowed)
    {
      var a := args[i];
      if !Dashed(a) {
        i := i + 1;
        continue;
      }
      var name := FlagName(a);
      if name in allowed {
        if '=' !in a && i + 1 < |args| {
          assert args[i..][2..] == args[i + 2..];
          i := i + 1;
        }
        i := i + 1;
        continue;
      }
      if name in IDENTITY_FLAGS {
        return Some(IdentityFlag(name));
      }
      return Some(UnsupportedFlag(name));
    }
    return None;
  }

  /** The arguments hasSubcommand treats as positional. */
  function Positionals(args: seq<string>): seq<string> {
    if args == [] then []
    else if !Dashed(args[0]) then [args[0]] + Positionals(args[1..])
    else if '=' in args[0] then Positionals(args[1..])
    else if |args| == 1 then []
    else Positionals(args[2..])
  }

  predicate OccursAt(want: seq<string>, s: seq<string>, i: int) {
    0 <= i <= |s| - |want| && s[i..i + |want|] == want
  }

  predicate Occurs(want: seq<string>, s: seq<string>) {
    exists i | 0 <= i <= |s| :: OccursAt(want, s, i)
  }

  lemma PositionalsFrom(args: seq<string>, i: nat)
    requires i < |args|
    ensures Positionals(args[i..]) ==
            if !Dashed(args[i]) then [args[i]] + Positionals(args[i + 1..])
            else if '=' in args[i] then Positionals(args[i + 1..])
            else Positionals(if i + 2 < |args| then args[i + 2..] else [])
  {
    assert args[i..][1..] == args[i + 1..];
    if i + 2 < |args| { assert args[i..][2..] == args[i + 2..]; }
  }

  method PositionalArgs(args: seq<string>) returns (positional: seq<string>)
    ensures positional == Positionals(args)
  {
    positional := [];
    var i := 0;
    while i < |args|
      invariant 0 <= i
      invariant positional + Positionals(if i < |args| then args[i..] else []) == Positionals(args)
    {
      PositionalsFrom(args, i);
      if Dashed(args[i]) {
        if '=' !in args[i] {
          i := i + 1;
        }
        i := i + 1;
        continue;
      }
      positional := positional + [args[i]];
      i := i + 1;
    }
  }

  method HasSubcommand(args: seq<string>, want: seq<string>) returns (r: bool)
    ensures r <==> Occurs(want, Positionals(args))
  {
    var positional := PositionalArgs(args);
    var i := 0;
    while i + |want| <= |positional|
      invariant 0 <= i
      invariant forall j :: 0 <= j < i ==> !OccursAt(want, positional, j)
    {
      if positional[i..i + |want|] == want {
        assert OccursAt(want, positional, i);
        return true;
      }
      i := i + 1;
    }
    assert forall j :: OccursAt(want, positional, j) ==> j + |want| <= |positional|;
    return false;
  }

  // ------------------------------------------------------------- translation

  function IsSpace(c: char): bool {
    c in {' ', '\t', '\n', '\r', '\U{000B}', '\U{000C}'}
  }

  function TrimLeft(s: string): string {
    if s != "" && IsSpace(s[0]) then TrimLeft(s[1..]) else s
  }

  function TrimRight(s: string): string {
    if s != "" && IsSpace(s[|s| - 1]) then TrimRight(s[..|s| - 1]) else s
  }

  function TrimSpace(s: string): string {
    TrimRight(TrimLeft(s))
  }

  function AfterLastSlash(s: string): string {
    if s == "" || s[|s| - 1] == '/' then "" else AfterLastSlash(s[..|s| - 1]) + [s[|s| - 1]]
  }

  /** path.Base. */
  function Base(s: string): string {
    if s == "" then "."
    else
      var last := AfterLastSlash(TrimSlashes(s));
      if last == "" then "/" else last
  }

  predicate White(c: char) {
    c == ' ' || c == '\t' || c == '\n' || c == '\r' || c == '\U{000B}' || c == '\U{000C}'
  }

  ghost predicate Blank(s: string) {
    forall c :: c in s ==> White(c)
  }

  lemma {:induction false} TrimLeftMeans(s: string) returns (lead: string)
    ensures s == lead + TrimLeft(s) && Blank(lead)
    ensures TrimLeft(s) != "" ==> !White(TrimLeft(s)[0])
  {
    lead := "";
    if s != "" && IsSpace(s[0]) {
      lead := TrimLeftMeans(s[1..]);
      lead := [s[0]] + lead;
    }
  }

  lemma {:induction false} TrimRightMeans(s: string) returns (tail: string)
    ensures s == TrimRight(s) + tail && Blank(tail)
    ensures TrimRight(s) != "" ==> !White(TrimRight(s)[|TrimRight(s)| - 1])
  {
    tail := "";
    if s != "" && IsSpace(s[|s| - 1]) {
      var rest := TrimRightMeans(s[..|s| - 1]);
      tail := rest + [s[|s| - 1]];
      assert s == s[..|s| - 1] + [s[|s| - 1]];
    }
  }

  /** TrimSpace takes white space off both ends, all of it and nothing else. */
  lemma TrimSpaceMeans(s: string) returns (lead: string, tail: string)
    ensures s == lead + TrimSpace(s) + tail && Blank(lead) && Blank(tail)
    ensures var t := TrimSpace(s); t != "" ==> !White(t[0]) && !White(t[|t| - 1])
  {
    lead := TrimLeftMeans(s);
    tail := TrimRightMeans(TrimLeft(s));
    if TrimSpace(s) != "" { assert TrimSpace(s)[0] == TrimLeft(s)[0]; }
  }

  /** Base is what follows the last slash, trailing slashes apart. */
  lemma BaseMeans(s: string) returns (dir: string)
    requires TrimSlashes(s) != ""
    ensures TrimSlashes(s) == dir + Base(s) && Base(s) != "" && '/' !in Base(s)
    ensures dir != "" ==> dir[|dir| - 1] == '/'
  {
    dir := LastElement(TrimSlashes(s));
  }

  lemma {:induction false} LastElement(s: string) returns (dir: string)
    ensures s == dir + AfterLastSlash(s) && '/' !in AfterLastSlash(s)
    ensures dir != "" ==> dir[|dir| - 1] == '/'
    ensures s != "" && s[|s| - 1] != '/' ==> AfterLastSlash(s) != ""
  {
    if s == "" || s[|s| - 1] == '/' {
      dir := s;
    } else {
      dir := LastElement(s[..|s| - 1]);
    }
  }

  function AwsCredential(clusterName: string, region: string): Credential {
    if region == "" then Credential(Some(AwsAuth(clusterName)), None)
    else Credential(None, Some(ExecProvider(AUTH_COMMAND, ["aws", "--cluster-name", clusterName],
                                            map["AWS_REGION" := region], API_VERSION)))
  }

  function OrEmpty(o: Option<string>): string {
    if o.Some? then o.value else ""
  }

  const IAM_ALLOWED := {"-i", "--cluster-id", "--region"}
  const AWS_ALLOWED := {"--region", "--cluster-name", "--cluster-id", "--output"}

  function TranslateIAMAuthenticator(args: seq<string>): Result<Credential, ExecError> {
    var refused := Refusal(args, IAM_ALLOWED);
    if refused.Some? then Err(refused.value)
    else
      var name := ExecFlag(args, ["-i", "--cluster-id"]);
      if name.None? then Err(NoClusterName)
      else Ok(AwsCredential(name.value, OrEmpty(ExecFlag(args, ["--region"]))))
  }

  function TranslateAWSCLI(args: seq<string>): Result<Credential, ExecError> {
    if !Occurs(["eks", "get-token"], Positionals(args)) then Err(NotGetToken)
    else
      var refused := Refusal(args, AWS_ALLOWED);
      if refused.Some? then Err(refused.value)
      else
        var name := ExecFlag(args, ["--cluster-name", "--cluster-id"]);
        if name.None? then Err(NoClusterName)
        else Ok(AwsCredential(name.value, OrEmpty(ExecFlag(args, ["--region"]))))
  }

  /** The environment with this variable set, if there is a value for it. */
  function WithVariable(env: map<string, string>, key: string, v: Option<string>): map<string, string> {
    if v.Some? then env[key := v.value] else env
  }

  function TargetEnv(server: Option<string>, environment: Option<string>): map<string, string> {
    WithVariable(WithVariable(map[], SERVER_APP, server), ENVIRONMENT_NAME, environment)
  }

  function AzureCredential(env: map<string, string>): Credential {
    Credential(None, Some(ExecProvider(AUTH_COMMAND, ["azure"], env, API_VERSION)))
  }

  function TranslateKubelogin(args: seq<string>): Result<Credential, ExecError> {
    Ok(AzureCredential(TargetEnv(ExecFlag(args, ["--server-id"]), ExecFlag(args, ["--environment"]))))
  }

  function TranslateExec(e: ExecBlock): Result<Credential, ExecError> {
    if e.apiVersion != "" && e.apiVersion != API_VERSION && e.apiVersion != API_VERSION_V1 then Err(BadApiVersion)
    else
      var cmd := Base(TrimSpace(e.command));
      if cmd == "aws-iam-authenticator" || cmd == "heptio-authenticator-aws" then TranslateIAMAuthenticator(e.args)
      else if cmd == "aws" then TranslateAWSCLI(e.args)
      else if cmd == "kubelogin" then TranslateKubelogin(e.args)
      else Err(NoEquivalent)
  }

  // ------------------------------------------------------- what outcomes mean

  /** A credential is one of two shapes, never both and never neither, and the
      exec shape runs our own command with nothing but our own arguments. */
  ghost predicate WellShaped(c: Credential) {
    && c.aws.Some? != c.exec.Some?
    && (c.exec.Some? ==>
      && c.exec.value.command == AUTH_COMMAND
      && c.exec.value.apiVersion == API_VERSION
      && ((exists n :: c.exec.value.args == ["aws", "--cluster-name", n] && c.exec.value.env.Keys == {"AWS_REGION"})
         || (c.exec.value.args == ["azure"]
            && c.exec.value.env.Keys <= {SERVER_APP, ENVIRONMENT_NAME})))
  }

  lemma TargetEnvReads(server: Option<string>, environment: Option<string>)
    ensures var env := TargetEnv(server, environment);
            && env.Keys <= {SERVER_APP, ENVIRONMENT_NAME}
            && (SERVER_APP in env <==> server.Some?) && (server.Some? ==> env[SERVER_APP] == server.value)
            && (ENVIRONMENT_NAME in env <==> environment.Some?)
            && (environment.Some? ==> env[ENVIRONMENT_NAME] == environment.value)
  {
    assert |SERVER_APP| != |ENVIRONMENT_NAME|;
  }

  lemma AzureWellShaped(env: map<string, string>)
    requires env.Keys <= {SERVER_APP, ENVIRONMENT_NAME}
    ensures WellShaped(AzureCredential(env))
  {
  }

  lemma KubeloginWellShaped(args: seq<string>)
    ensures TranslateKubelogin(args).Ok? && WellShaped(TranslateKubelogin(args).value)
  {
    var server, environment := ExecFlag(args, ["--server-id"]), ExecFlag(args, ["--environment"]);
    TargetEnvReads(server, environment);
    AzureWellShaped(TargetEnv(server, environment));
  }

  lemma IAMWellShaped(args: seq<string>)
    requires TranslateIAMAuthenticator(args).Ok?
    ensures WellShaped(TranslateIAMAuthenticator(args).value)
  {
  }

  lemma AWSCLIWellShaped(args: seq<string>)
    requires TranslateAWSCLI(args).Ok?
    ensures WellShaped(TranslateAWSCLI(args).value)
  {
  }

  lemma SuccessIsWellShaped(e: ExecBlock)
    requires TranslateExec(e).Ok?
    ensures WellShaped(TranslateExec(e).value)
  {
    var cmd := Base(TrimSpace(e.command));
    if cmd == "aws-iam-authenticator" || cmd == "heptio-authenticator-aws" {
      IAMWellShaped(e.args);
    } else if cmd == "aws" {
      AWSCLIWellShaped(e.args);
    } else {
      KubeloginWellShaped(e.args);
    }
  }

  const TRANSLATED := {"aws-iam-authenticator", "heptio-authenticator-aws", "aws", "kubelogin"}

  /** The credential names this cluster and, if there is one, this region. */
  ghost predicate NamesCluster(c: Credential, name: string, region: string) {
    && WellShaped(c) && (region == "" <==> c.aws.Some?)
    && (c.aws.Some? ==> c.aws.value.clusterName == name)
    && (c.exec.Some? ==>
           c.exec.value.args == ["aws", "--cluster-name", name] && c.exec.value.env == map["AWS_REGION" := region])
  }

  /** The region is what the first --region says, if any does. */
  ghost predicate RegionOf(args: seq<string>, region: string) {
    FirstAnswer(args, ["--region"], region) || (NoAnswer(args, ["--region"]) && region == "")
  }

  /** What a translation to AWS comes to: the first refused flag; or no cluster
      named; or a credential for the cluster first named, in the region named. */
  ghost predicate AwsOutcome(args: seq<string>, names: seq<string>, allowed: set<string>,
                             r: Result<Credential, ExecError>) {
    match r
    case Ok(c) =>
      Refusal(args, allowed).None? && exists name, region ::
        FirstAnswer(args, names, name) && RegionOf(args, region) && NamesCluster(c, name, region)
    case Err(NoClusterName) => Refusal(args, allowed).None? && NoAnswer(args, names)
    case Err(IdentityFlag(f)) => Blames(args, allowed, f) && f in IDENTITY_FLAGS
    case Err(UnsupportedFlag(f)) => Blames(args, allowed, f) && f !in IDENTITY_FLAGS
    case Err(_) => false
  }

  /** The flag is there and not on the allowlist. */
  ghost predicate Blames(args: seq<string>, allowed: set<string>, f: string) {
    f !in allowed && exists a :: a in args && Dashed(a) && FlagName(a) == f
  }

  lemma {:induction false} RefusalBlames(args: seq<string>, allowed: set<string>)
    ensures match Refusal(args, allowed)
            case None => true
            case Some(IdentityFlag(f)) => Blames(args, allowed, f) && f in IDENTITY_FLAGS
            case Some(UnsupportedFlag(f)) => Blames(args, allowed, f) && f !in IDENTITY_FLAGS
            case Some(_) => false
    decreases |args|
  {
    if args != [] {
      assert args[0] in args;
      if Dashed(args[0]) && FlagName(args[0]) in allowed && '=' !in args[0] && |args| > 1 {
        RefusalBlames(args[2..], allowed);
        assert forall a :: a in args[2..] ==> a in args;
      } else if !Dashed(args[0]) || FlagName(args[0]) in allowed {
        RefusalBlames(args[1..], allowed);
        assert forall a :: a in args[1..] ==> a in args;
      }
    }
  }

  lemma AwsCarries(args: seq<string>, names: seq<string>, allowed: set<string>, name: string, region: Option<string>)
    requires Refusal(args, allowed).None? && FirstAnswer(args, names, name)
    requires match region
             case Some(v) => FirstAnswer(args, ["--region"], v)
             case None => NoAnswer(args, ["--region"])
    ensures AwsOutcome(args, names, allowed, Ok(AwsCredential(name, OrEmpty(region))))
  {
    assert RegionOf(args, OrEmpty(region));
    CredentialNames(name, OrEmpty(region));
  }

  lemma CredentialNames(name: string, region: string)
    ensures NamesCluster(AwsCredential(name, region), name, region)
  {
    AwsWellShaped(name, region);
  }

  lemma AwsWellShaped(name: string, region: string)
    ensures WellShaped(AwsCredential(name, region))
  {
  }

  /** The environment variable is set exactly if the flag is there, to its value. */
  ghost predicate Carried(args: seq<string>, names: seq<string>, env: map<string, string>, key: string) {
    if key in env then FirstAnswer(args, names, env[key]) else NoAnswer(args, names)
  }

  /** What a translation of kubelogin comes to: always the one shape, carrying what
      identifies the target and nothing else. */
  ghost predicate KubeloginCarries(args: seq<string>, r: Result<Credential, ExecError>) {
    && r.Ok? && WellShaped(r.value) && r.value.exec.Some? && r.value.exec.value.args == ["azure"]
    && Carried(args, ["--server-id"], r.value.exec.value.env, SERVER_APP)
    && Carried(args, ["--environment"], r.value.exec.value.env, ENVIRONMENT_NAME)
  }

  lemma KubeloginOutcome(args: seq<string>)
    ensures KubeloginCarries(args, TranslateKubelogin(args))
  {
    KubeloginWellShaped(args);
    TargetEnvReads(ExecFlag(args, ["--server-id"]), ExecFlag(args, ["--environment"]));
    SearchMeans(args, ["--server-id"]);
    SearchMeans(args, ["--environment"]);
  }

  /** What a translation of this command comes to. */
  ghost predicate OutcomeFor(cmd: string, args: seq<string>, r: Result<Credential, ExecError>) {
    if cmd == "aws-iam-authenticator" || cmd == "heptio-authenticator-aws" then
      AwsOutcome(args, ["-i", "--cluster-id"], IAM_ALLOWED, r)
    else if cmd == "aws" then
      if Occurs(["eks", "get-token"], Positionals(args))
        then AwsOutcome(args, ["--cluster-name", "--cluster-id"], AWS_ALLOWED, r)
      else r == Err(NotGetToken)
    else if cmd == "kubelogin" then KubeloginCarries(args, r)
    else r == Err(NoEquivalent)
  }

  /** Every translation of a supported version comes to what its command calls for. */
  lemma TranslationHasOutcome(e: ExecBlock)
    requires e.apiVersion in {"", API_VERSION, API_VERSION_V1}
    ensures OutcomeFor(Base(TrimSpace(e.command)), e.args, TranslateExec(e))
  {
    KubeloginOutcome(e.args);
    AwsOutcomeIs(e.args, ["-i", "--cluster-id"], IAM_ALLOWED);
    AwsOutcomeIs(e.args, ["--cluster-name", "--cluster-id"], AWS_ALLOWED);
  }

  /** Refuse, then find the cluster, then the region. */
  lemma AwsOutcomeIs(args: seq<string>, names: seq<string>, allowed: set<string>)
    ensures var refused, name := Refusal(args, allowed), ExecFlag(args, names);
            AwsOutcome(args, names, allowed,
                       if refused.Some? then Err(refused.value)
                       else if name.None? then Err(NoClusterName)
                       else Ok(AwsCredential(name.value, OrEmpty(ExecFlag(args, ["--region"])))))
  {
    if Refusal(args, allowed).Some? {
      RefusalBlames(args, allowed);
    } else {
      SearchMeans(args, names);
      if ExecFlag(args, names).Some? { FoundCarries(args, names, allowed, ExecFlag(args, names).value); }
    }
  }

  lemma FoundCarries(args: seq<string>, names: seq<string>, allowed: set<string>, name: string)
    requires Refusal(args, allowed).None? && FirstAnswer(args, names, name)
    ensures AwsOutcome(args, names, allowed, Ok(AwsCredential(name, OrEmpty(ExecFlag(args, ["--region"])))))
  {
    SearchMeans(args, ["--region"]);
    AwsCarries(args, names, allowed, name, ExecFlag(args, ["--region"]));
  }

  // ----------------------------------------------------------------- methods

  method FromIAMAuthenticator(args: seq<string>) returns (r: Result<Credential, ExecError>)
    ensures r == TranslateIAMAuthenticator(args)
    ensures AwsOutcome(args, ["-i", "--cluster-id"], IAM_ALLOWED, r)
  {
    var refused := RefuseUnsupportedArgs(args, IAM_ALLOWED);
    RefusalBlames(args, IAM_ALLOWED);
    if refused.Some? {
      return Err(refused.value);
    }
    var name := FindFlag(args, ["-i", "--cluster-id"]);
    if name.None? {
      return Err(NoClusterName);
    }
    var region := FindFlag(args, ["--region"]);
    AwsCarries(args, ["-i", "--cluster-id"], IAM_ALLOWED, name.value, region);
    return Ok(AwsCredential(name.value, OrEmpty(region)));
  }

  method FromAWSCLI(args: seq<string>) returns (r: Result<Credential, ExecError>)
    ensures r == TranslateAWSCLI(args)
    ensures r == Err(NotGetToken) <==> !Occurs(["eks", "get-token"], Positionals(args))
    ensures r != Err(NotGetToken) ==> AwsOutcome(args, ["--cluster-name", "--cluster-id"], AWS_ALLOWED, r)
  {
    var getsToken := HasSubcommand(args, ["eks", "get-token"]);
    if !getsToken {
      return Err(NotGetToken);
    }
    var refused := RefuseUnsupportedArgs(args, AWS_ALLOWED);
    RefusalBlames(args, AWS_ALLOWED);
    if refused.Some? {
      return Err(refused.value);
    }
    var name := FindFlag(args, ["--cluster-name", "--cluster-id"]);
    if name.None? {
      return Err(NoClusterName);
    }
    var region := FindFlag(args, ["--region"]);
    AwsCarries(args, ["--cluster-name", "--cluster-id"], AWS_ALLOWED, name.value, region);
    return Ok(AwsCredential(name.value, OrEmpty(region)));
  }

  /** The environment carries the target's identity only, never the caller's. */
  method FromKubelogin(args: seq<string>) returns (r: Result<Credential, ExecError>)
    ensures r == TranslateKubelogin(args)
    ensures KubeloginCarries(args, r)
  {
    var env: map<string, string> := map[];
    var server := FindFlag(args, ["--server-id"]);
    env := WithVariable(env, SERVER_APP, server);
    var environment := FindFlag(args, ["--environment"]);
    env := WithVariable(env, ENVIRONMENT_NAME, environment);
    KubeloginOutcome(args);
    return Ok(AzureCredential(env));
  }

  method Translate(e: ExecBlock) returns (r: Result<Credential, ExecError>)
    ensures r == TranslateExec(e)
    ensures r == Err(BadApiVersion) <==> e.apiVersion !in {"", API_VERSION, API_VERSION_V1}
    ensures r == Err(NoEquivalent) <==>
      e.apiVersion in {"", API_VERSION, API_VERSION_V1} && Base(TrimSpace(e.command)) !in TRANSLATED
    ensures r.Ok? ==> WellShaped(r.value)
    ensures e.apiVersion in {"", API_VERSION, API_VERSION_V1} ==> OutcomeFor(Base(TrimSpace(e.command)), e.args, r)
  {
    if e.apiVersion != "" && e.apiVersion != API_VERSION && e.apiVersion != API_VERSION_V1 {
      return Err(BadApiVersion);
    }
    var cmd := Base(TrimSpace(e.command));
    if TranslateExec(e).Ok? { SuccessIsWellShaped(e); }
    if cmd == "aws-iam-authenticator" || cmd == "heptio-authenticator-aws" {
      r := FromIAMAuthenticator(e.args);
    } else if cmd == "aws" {
      r := FromAWSCLI(e.args);
    } else if cmd == "kubelogin" {
      r := FromKubelogin(e.args);
    } else {
      r := Err(NoEquivalent);
    }
  }
}
