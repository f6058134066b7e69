/** How long a registered credential has left. */
module Expiry {
  import opened Results
  import opened Exec
  import opened Kubeconfig

  const SECOND := 1_000_000_000
  const DAY := 24 * 3600 * SECOND

  datatype Bucket = Expired | Lt24h | Lt7d | Lt30d | Fresh | TokenBucket | ExecBucket | Unreadable | Absent

  function Dated(notAfter: int, now: int): Bucket {
    var left := notAfter - now;
    if left <= 0 then Expired
    else if left < DAY then Lt24h
    else if left < 7 * DAY then Lt7d
    else if left < 30 * DAY then Lt30d
    else Fresh
  }

  /** credentialExpiry's bucket. */
  function CredentialExpiry(lib: Library, config: string, now: int): Bucket {
    if TrimSpace(config) == "" then Absent
    else
      match lib.decodeJson(config)
      case None => Unreadable
      case Some(cfg) =>
        if cfg.aws.Some? || cfg.exec.Some? then ExecBucket
        else if cfg.tls.certData == "" then TokenBucket
        else
          match lib.notAfter(cfg.tls.certData)
          case None => Unreadable
          case Some(t) => Dated(t, now)
  }

  /** The buckets, by what is written and by the hours left: blank; unreadable; a
      command's; a token's; or a certificate's, by when it ends. */
  lemma BucketsByHours(lib: Library, config: string, now: int)
    ensures var b := CredentialExpiry(lib, config, now);
            && (b == Absent <==> TrimSpace(config) == "")
            && (b == ExecBucket <==> Holds(lib, config) && Commands(lib, config))
            && (b == TokenBucket <==> Holds(lib, config) && !Commands(lib, config) && CertOf(lib, config) == "")
            && (Age(b).Some? <==> Dates(lib, config))
            && (Dates(lib, config) ==>
                  var hours := 3600 * 1_000_000_000;
                  var left := lib.notAfter(CertOf(lib, config)).value - now;
                  && (b == Expired <==> left <= 0)
                  && (b == Lt24h <==> 0 < left < 24 * hours)
                  && (b == Lt7d <==> 24 * hours <= left < 168 * hours)
                  && (b == Lt30d <==> 168 * hours <= left < 720 * hours)
                  && (b == Fresh <==> 720 * hours <= left))
  {
  }

  /** There is a configuration to read. */
  predicate Holds(lib: Library, config: string) {
    TrimSpace(config) != "" && lib.decodeJson(config).Some?
  }

  predicate Commands(lib: Library, config: string)
    requires Holds(lib, config)
  {
    var cfg := lib.decodeJson(config).value;
    cfg.aws.Some? || cfg.exec.Some?
  }

  function CertOf(lib: Library, config: string): string
    requires Holds(lib, config)
  {
    lib.decodeJson(config).value.tls.certData
  }

  /** It is a certificate's, and the certificate can be read. */
  predicate Dates(lib: Library, config: string) {
    Holds(lib, config) && !Commands(lib, config)
    && CertOf(lib, config) != "" && lib.notAfter(CertOf(lib, config)).Some?
  }

  /** Position on the ageing scale, later is worse; None for undated buckets. */
  function Age(b: Bucket): Option<nat> {
    match b
    case Fresh => Some(0)
    case Lt30d => Some(1)
    case Lt7d => Some(2)
    case Lt24h => Some(3)
    case Expired => Some(4)
    case _ => None
  }

  /** As time passes a written configuration only ages: an undated bucket never
      changes and a dated one only moves towards expired. */
  lemma ExpiryOnlyAges(lib: Library, config: string, now: int, later: int)
    requires now <= later
    ensures var before, after := CredentialExpiry(lib, config, now), CredentialExpiry(lib, config, later);
            match (Age(before), Age(after))
            case (Some(b), Some(a)) => b <= a
            case _ => before == after
  {
  }

  /** Every dated credential does expire, from one moment on and not before. */
  lemma ExpiredFromNotAfter(lib: Library, config: string, now: int) returns (t: int)
    requires Age(CredentialExpiry(lib, config, now)).Some?
    ensures forall at :: CredentialExpiry(lib, config, at) == Expired <==> at >= t
  {
    t := lib.notAfter(lib.decodeJson(config).value.tls.certData).value;
  }

  /** What is written for a credential of some kind is read back as that kind. */
  lemma ClassifiesKind(lib: Library, cfg: ArgoConfig, kind: Kind, now: int)
    requires Exactly(kind, cfg)
    requires lib.decodeJson(lib.encodeJson(cfg)) == Some(cfg) && TrimSpace(lib.encodeJson(cfg)) != ""
    ensures var b := CredentialExpiry(lib, lib.encodeJson(cfg), now);
            && (b == ExecBucket <==> kind == ExecPlugin)
            && (b == TokenBucket <==> kind == Token)
            && ((b == Unreadable || Age(b).Some?) <==> kind == Certificate)
            && b != Absent
  {
  }

  /** Classification agrees with translation: what parseKubeconfig wrote is read
      back as exactly the kind of credential it copied, and never as absent. */
  lemma ParseThenClassify(lib: Library, raw: string, allowExec: bool, now: int)
      returns (kc: Config, c: ClusterEntry, u: UserEntry)
    requires Parse(lib, raw, allowExec).Ok?
    requires var cfg := Parse(lib, raw, allowExec).value.config;
             lib.decodeJson(lib.encodeJson(cfg)) == Some(cfg) && TrimSpace(lib.encodeJson(cfg)) != ""
    ensures lib.decodeYaml(raw) == Some(kc) && RightPair(kc, c, u)
    ensures var p := Parse(lib, raw, allowExec).value;
            var b := CredentialExpiry(lib, lib.encodeJson(p.config), now);
            && (b == ExecBucket <==> KindOf(u) == ExecPlugin)
            && (b == ExecBucket <==> p.execCommand != "")
            && (b == ExecBucket ==> allowExec)
            && (b == TokenBucket <==> KindOf(u) == Token)
            && ((b == Unreadable || Age(b).Some?) <==> KindOf(u) == Certificate)
            && b != Absent
  {
    kc, c, u := ParseIsFaithful(lib, raw, allowExec);
    ClassifiesKind(lib, Parse(lib, raw, allowExec).value.config, KindOf(u), now);
  }
}
