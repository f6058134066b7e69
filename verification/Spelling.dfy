/** The same exec arguments spelt differently: what the scanners agree on. */
module Spelling {
  import opened Results
  import opened Text
  import opened Exec

  /** No separately written flag value begins with '-'. */
  ghost predicate NoDashedValues(args: seq<string>) {
    forall i :: 0 <= i < |args| - 1 && Bare(args[i]) ==> !Dashed(args[i + 1])
  }

  /** The same arguments with every `flag value` pair written `flag=value`. */
  function Joined(args: seq<string>): seq<string> {
    if args == [] then []
    else if Bare(args[0]) && |args| > 1 then [args[0] + "=" + args[1]] + Joined(args[2..])
    else [args[0]] + Joined(args[1..])
  }

  /** One pair rewritten. */
  function JoinAt(args: seq<string>, i: nat): seq<string>
    requires i + 1 < |args|
  {
    args[..i] + [args[i] + "=" + args[i + 1]] + args[i + 2..]
  }

  lemma {:induction false} FlagNameOfJoined(f: string, v: string)
    requires '=' !in f
    ensures FlagName(f + "=" + v) == f && FlagName(f) == f
    ensures '=' in f + "=" + v
  {
    if f == "" {
      assert (f + "=" + v)[0] == '=';
    } else {
      assert (f + "=" + v)[1..] == f[1..] + "=" + v;
      assert f[0] in f && forall c :: c in f[1..] ==> c in f;
      FlagNameOfJoined(f[1..], v);
      assert f == [f[0]] + f[1..];
    }
    assert (f + "=" + v)[|f|] == '=';
  }

  lemma PrefixOfJoined(f: string, v: string, n: string)
    requires '=' !in f && '=' !in n
    ensures HasPrefix(f + "=" + v, n + "=") <==> f == n
    ensures f + "=" + v != n
    ensures (f + "=" + v)[|f| + 1..] == v
  {
    var a := f + "=" + v;
    FlagNameOfJoined(f, v);
    if HasPrefix(a, n + "=") {
      var rest := a[|n| + 1..];
      assert a == n + "=" + rest;
      FlagNameOfJoined(n, rest);
    }
  }

  lemma JoinedPrefix(a: string, n: string)
    ensures HasPrefix(a, n + "=") ==> '=' in a && HasPrefix(a, n)
  {
    if HasPrefix(a, n + "=") {
      assert a[|n|] == (n + "=")[|n|];
      assert n == (n + "=")[..|n|] == a[..|n|];
    }
  }

  lemma {:induction false} MatchJoined(args: seq<string>, rest: seq<string>, names: seq<string>)
    requires |args| > 1 && Bare(args[0])
    requires forall n :: n in names ==> Bare(n)
    ensures MatchHead([args[0] + "=" + args[1]] + rest, names) == MatchHead(args, names)
  {
    if names != [] {
      assert names[0] in names;
      PrefixOfJoined(args[0], args[1], names[0]);
      JoinedPrefix(args[0], names[0]);
      MatchJoined(args, rest, names[1..]);
    }
  }

  lemma {:induction false} NoMatch(args: seq<string>, names: seq<string>)
    requires args != [] && !Dashed(args[0])
    requires forall n :: n in names ==> Bare(n)
    ensures MatchHead(args, names) == None
  {
    if names != [] {
      assert names[0] in names;
      JoinedPrefix(args[0], names[0]);
      NoMatch(args, names[1..]);
    }
  }

  /** Only the head and whether anything follows it matter to MatchHead when it
      does not take the next argument. */
  lemma {:induction false} MatchSingle(a: string, rest: seq<string>, rest': seq<string>, names: seq<string>)
    requires !Bare(a) || (rest == [] && rest' == [])
    requires forall n :: n in names ==> Bare(n)
    ensures MatchHead([a] + rest, names) == MatchHead([a] + rest', names)
  {
    if names != [] {
      assert names[0] in names;
      MatchSingle(a, rest, rest', names[1..]);
    }
  }

  lemma Tails(args: seq<string>)
    requires NoDashedValues(args) && args != []
    ensures NoDashedValues(args[1..])
    ensures |args| > 1 ==> NoDashedValues(args[2..])
  {
  }

  lemma {:induction false} ExecFlagJoined(args: seq<string>, names: seq<string>)
    requires NoDashedValues(args)
    requires forall n :: n in names ==> Bare(n)
    ensures ExecFlag(Joined(args), names) == ExecFlag(args, names)
    decreases |args|
  {
    if args != [] {
      Tails(args);
      if Bare(args[0]) && |args| > 1 {
        ExecFlagJoined(args[2..], names);
        MatchJoined(args, Joined(args[2..]), names);
        assert Joined(args)[1..] == Joined(args[2..]);
        NoMatch(args[1..], names);
        assert args[1..][1..] == args[2..];
      } else {
        ExecFlagJoined(args[1..], names);
        assert Joined(args)[1..] == Joined(args[1..]);
        assert args == [args[0]] + args[1..];
        MatchSingle(args[0], args[1..], Joined(args[1..]), names);
      }
    }
  }

  lemma {:induction false} RefusalJoined(args: seq<string>, allowed: set<string>)
    requires NoDashedValues(args)
    ensures Refusal(Joined(args), allowed) == Refusal(args, allowed)
    decreases |args|
  {
    if args != [] {
      Tails(args);
      if Bare(args[0]) && |args| > 1 {
        RefusalJoined(args[2..], allowed);
        FlagNameOfJoined(args[0], args[1]);
        assert Joined(args)[1..] == Joined(args[2..]);
        assert (args[0] + "=" + args[1])[0] == '-';
      } else {
        RefusalJoined(args[1..], allowed);
        assert Joined(args)[1..] == Joined(args[1..]);
      }
    }
  }

  lemma {:induction false} PositionalsJoined(args: seq<string>)
    ensures Positionals(Joined(args)) == Positionals(args)
    decreases |args|
  {
    if args != [] {
      if Bare(args[0]) && |args| > 1 {
        PositionalsJoined(args[2..]);
        FlagNameOfJoined(args[0], args[1]);
        assert Joined(args)[1..] == Joined(args[2..]);
        assert (args[0] + "=" + args[1])[0] == '-';
      } else {
        PositionalsJoined(args[1..]);
        assert Joined(args)[1..] == Joined(args[1..]);
      }
    }
  }

  /** The searches a translation makes. */
  const SEARCHED: seq<seq<string>> :=
    [["-i", "--cluster-id"], ["--cluster-name", "--cluster-id"], ["--region"], ["--server-id"], ["--environment"]]

  lemma SearchedAreBare(names: seq<string>)
    requires names in SEARCHED
    ensures forall n :: n in names ==> Bare(n)
  {
  }

  /** All that a translation asks of its arguments. */
  ghost predicate ScanAlike(a: seq<string>, b: seq<string>) {
    && Refusal(a, IAM_ALLOWED) == Refusal(b, IAM_ALLOWED) && Refusal(a, AWS_ALLOWED) == Refusal(b, AWS_ALLOWED)
    && Positionals(a) == Positionals(b)
    && forall names :: names in SEARCHED ==> ExecFlag(a, names) == ExecFlag(b, names)
  }

  lemma AlikeTranslateAlike(e: ExecBlock, args: seq<string>)
    requires ScanAlike(args, e.args)
    ensures TranslateExec(e.(args := args)) == TranslateExec(e)
  {
    assert forall i :: 0 <= i < |SEARCHED| ==> ExecFlag(args, SEARCHED[i]) == ExecFlag(e.args, SEARCHED[i]);
  }

  /** Writing all pairs as `flag=value` never changes the outcome. */
  lemma TranslationOfJoined(e: ExecBlock)
    requires NoDashedValues(e.args)
    ensures TranslateExec(e.(args := Joined(e.args))) == TranslateExec(e)
  {
    var args := e.args;
    RefusalJoined(args, IAM_ALLOWED);
    RefusalJoined(args, AWS_ALLOWED);
    PositionalsJoined(args);
    forall names | names in SEARCHED ensures ExecFlag(Joined(args), names) == ExecFlag(args, names) {
      SearchedAreBare(names);
      ExecFlagJoined(args, names);
    }
    AlikeTranslateAlike(e, Joined(args));
  }

  /** Rewriting one pair keeps the hypothesis. */
  lemma JoinKeepsHypothesis(args: seq<string>, i: nat)
    requires NoDashedValues(args) && i + 1 < |args| && Bare(args[i])
    ensures NoDashedValues(JoinAt(args, i))
  {
  }

  /** Joining at `i` drops along with the first `n` arguments. */
  lemma JoinAtTail(args: seq<string>, i: nat, n: nat)
    requires i + 1 < |args| && n <= i
    ensures JoinAt(args, i)[n..] == JoinAt(args[n..], i - n)
  {
  }

  /** Rewriting one pair keeps the fully joined form. */
  lemma {:induction false} JoinOne(args: seq<string>, i: nat)
    requires NoDashedValues(args) && i + 1 < |args| && Bare(args[i])
    ensures Joined(JoinAt(args, i)) == Joined(args)
    decreases i
  {
    var joined := JoinAt(args, i);
    Tails(args);
    if i == 0 {
      FlagNameOfJoined(args[0], args[1]);
      assert joined == [args[0] + "=" + args[1]] + args[2..];
      assert joined[1..] == args[2..];
    } else if Bare(args[0]) {
      assert i != 1;
      assert args[2..][i - 2] == args[i];
      JoinOne(args[2..], i - 2);
      JoinAtTail(args, i, 2);
      assert joined[0] == args[0] && joined[1] == args[1];
    } else {
      assert args[1..][i - 1] == args[i];
      JoinOne(args[1..], i - 1);
      JoinAtTail(args, i, 1);
      assert joined[0] == args[0];
    }
  }

  // ------------------------------------------------------ one pair by itself

  /** The pair at `i` stands by itself: its value does not look like a flag, and
      its flag is not where the value of another one would be. */
  ghost predicate StandsAlone(args: seq<string>, i: nat) {
    i + 1 < |args| && Bare(args[i]) && !Dashed(args[i + 1]) && (i == 0 || !Bare(args[i - 1]))
  }

  lemma AloneLater(args: seq<string>, i: nat, n: nat)
    requires StandsAlone(args, i) && n <= i
    ensures StandsAlone(args[n..], i - n) && JoinAt(args, i)[n..] == JoinAt(args[n..], i - n)
    ensures n < i ==> JoinAt(args, i)[..n + 1] == args[..n + 1]
  {
    JoinAtTail(args, i, n);
  }

  lemma JoinHead(args: seq<string>)
    requires StandsAlone(args, 0)
    ensures JoinAt(args, 0) == [args[0] + "=" + args[1]] + args[2..] && JoinAt(args, 0)[1..] == args[2..]
    ensures var a := args[0] + "=" + args[1]; FlagName(a) == FlagName(args[0]) == args[0] && '=' in a && Dashed(a)
  {
    FlagNameOfJoined(args[0], args[1]);
    assert (args[0] + "=" + args[1])[0] == '-';
  }

  lemma {:induction false} RefusalPair(args: seq<string>, i: nat, allowed: set<string>)
    requires StandsAlone(args, i)
    ensures Refusal(JoinAt(args, i), allowed) == Refusal(args, allowed)
    decreases i
  {
    if i == 0 {
      JoinHead(args);
      assert args[1..][1..] == args[2..];
    } else {
      AloneLater(args, i, 0);
      AloneLater(args, i, 1);
      RefusalPair(args[1..], i - 1, allowed);
      if Bare(args[0]) {
        AloneLater(args, i, 2);
        RefusalPair(args[2..], i - 2, allowed);
      }
    }
  }

  lemma {:induction false} PositionalsPair(args: seq<string>, i: nat)
    requires StandsAlone(args, i)
    ensures Positionals(JoinAt(args, i)) == Positionals(args)
    decreases i
  {
    if i == 0 {
      JoinHead(args);
    } else {
      AloneLater(args, i, 0);
      AloneLater(args, i, 1);
      PositionalsPair(args[1..], i - 1);
      if Bare(args[0]) {
        AloneLater(args, i, 2);
        PositionalsPair(args[2..], i - 2);
      }
    }
  }

  lemma {:induction false} MatchSame(args: seq<string>, args': seq<string>, names: seq<string>)
    requires |args| > 1 && |args'| > 1 && args[0] == args'[0] && (Bare(args[0]) ==> args[1] == args'[1])
    requires forall n :: n in names ==> Bare(n)
    ensures MatchHead(args, names) == MatchHead(args', names)
  {
    if names != [] {
      assert names[0] in names;
      MatchSame(args, args', names[1..]);
    }
  }

  lemma {:induction false} ExecFlagPair(args: seq<string>, i: nat, names: seq<string>)
    requires StandsAlone(args, i)
    requires forall n :: n in names ==> Bare(n)
    ensures ExecFlag(JoinAt(args, i), names) == ExecFlag(args, names)
    decreases i
  {
    if i == 0 {
      JoinHead(args);
      MatchJoined(args, args[2..], names);
      NoMatch(args[1..], names);
      assert args[1..][1..] == args[2..];
    } else {
      AloneLater(args, i, 0);
      AloneLater(args, i, 1);
      ExecFlagPair(args[1..], i - 1, names);
      MatchSame(args, JoinAt(args, i), names);
    }
  }

  /** Spelling independence: any one `flag value` pair that stands by itself may be
      written `flag=value`. Where no value of the list looks like a flag every pair
      does, and repeating this reaches every mixture of spellings. */
  lemma SpellingIndependent(e: ExecBlock, i: nat)
    requires StandsAlone(e.args, i)
    ensures TranslateExec(e.(args := JoinAt(e.args, i))) == TranslateExec(e)
  {
    var args := e.args;
    RefusalPair(args, i, IAM_ALLOWED);
    RefusalPair(args, i, AWS_ALLOWED);
    PositionalsPair(args, i);
    forall names | names in SEARCHED ensures ExecFlag(JoinAt(args, i), names) == ExecFlag(args, names) {
      SearchedAreBare(names);
      ExecFlagPair(args, i, names);
    }
    AlikeTranslateAlike(e, JoinAt(args, i));
  }

  lemma UndashedStandAlone(args: seq<string>, i: nat)
    requires NoDashedValues(args) && i + 1 < |args| && Bare(args[i])
    ensures StandsAlone(args, i) && NoDashedValues(JoinAt(args, i))
  {
    JoinKeepsHypothesis(args, i);
    if i > 0 { assert Dashed(args[i]); }
  }

  /** Any two spellings of the same pairs translate alike. */
  lemma AnyTwoSpellings(e: ExecBlock, args: seq<string>)
    requires NoDashedValues(e.args) && NoDashedValues(args)
    requires Joined(args) == Joined(e.args)
    ensures TranslateExec(e.(args := args)) == TranslateExec(e)
  {
    TranslationOfJoined(e);
    TranslationOfJoined(e.(args := args));
  }

  /** What one search must be spared for the two spellings of the pair at `i` to give
      it one answer. If an earlier argument answers, that it does not take the pair's
      flag for its value; if none does, that the flag answers itself, or that the
      value, read as an argument, answers nothing that what follows would not. */
  predicate Spared(args: seq<string>, i: nat, names: seq<string>)
    requires i + 1 < |args|
    decreases i
  {
    if i == 0 then
      args[0] in names || MatchHead(args[1..], names) in {None, ExecFlag(args[2..], names)}
    else if MatchHead(args, names).Some? then !(i == 1 && args[0] in names)
    else Spared(args[1..], i - 1, names)
  }

  lemma {:induction false} NamedMatches(args: seq<string>, names: seq<string>)
    requires |args| > 1 && forall n :: n in names ==> Bare(n)
    ensures args[0] in names ==> MatchHead(args, names) == Some(args[1])
    ensures Bare(args[0]) && args[0] !in names ==> MatchHead(args, names) == None
  {
    if names != [] {
      assert names[0] in names;
      JoinedPrefix(args[0], names[0]);
      NamedMatches(args, names[1..]);
    }
  }

  /** Whether the next argument is joined to another matters only to an argument
      that takes it for its value. */
  lemma {:induction false} MatchUnnamed(args: seq<string>, args': seq<string>, names: seq<string>)
    requires |args| > 1 && |args'| > 1 && args[0] == args'[0] && args[0] !in names
    ensures MatchHead(args, names) == MatchHead(args', names)
  {
    if names != [] { MatchUnnamed(args, args', names[1..]); }
  }

  /** The exact condition, search by search: the two spellings of one pair give the
      same answer if and only if the search is spared. */
  lemma {:induction false} SearchAgreesExactly(args: seq<string>, i: nat, names: seq<string>)
    requires i + 1 < |args| && Bare(args[i]) && forall n :: n in names ==> Bare(n)
    ensures ExecFlag(JoinAt(args, i), names) == ExecFlag(args, names) <==> Spared(args, i, names)
    decreases i
  {
    var joined := JoinAt(args, i);
    if i == 0 {
      assert joined == [args[0] + "=" + args[1]] + args[2..] && joined[1..] == args[2..] == args[1..][1..];
      MatchJoined(args, args[2..], names);
      NamedMatches(args, names);
    } else {
      JoinAtTail(args, i, 1);
      SearchAgreesExactly(args[1..], i - 1, names);
      NamedMatches(args, names);
      NamedMatches(joined, names);
      if args[0] !in names { MatchUnnamed(args, joined, names); }
      if i == 1 { assert joined[1] == args[1] + "=" + args[2] && |joined[1]| > |args[1]|; }
    }
  }

  /** The hypothesis is needed: a value that looks like a flag is skipped by the
      allowlist walk but found by the search, so the two spellings differ. */
  lemma DashedValueBreaksSpelling(x: string)
    ensures TranslateIAMAuthenticator(["--region", "-i=" + x]) == Ok(AwsCredential(x, "-i=" + x))
    ensures TranslateIAMAuthenticator(["--region" + "=" + ("-i=" + x)]) == Err(NoClusterName)
  {
    FlagsDiffer();
    assert "-i" + "=" + x == "-i=" + x;
    SkippedButFound("--region", "-i", "--cluster-id", x, IAM_ALLOWED);
    JoinedIsNotFound("--region", "-i=" + x, "-i", "--cluster-id", IAM_ALLOWED);
  }

  lemma FlagsDiffer()
    ensures Bare("--region") && Bare("-i") && Bare("--cluster-id")
    ensures "--region" != "-i" && "--region" != "--cluster-id"
  {
  }

  /** A separate value spelt like another flag is found by the search for that
      flag, although the allowlist walk passes over it. */
  lemma SkippedButFound(f: string, m: string, n: string, x: string, allowed: set<string>)
    requires Bare(f) && Bare(m) && Bare(n) && f != m && f != n && f in allowed
    ensures var args := [f, m + "=" + x];
            && Refusal(args, allowed) == None
            && ExecFlag(args, [m, n]) == Some(x)
            && ExecFlag(args, [f]) == Some(m + "=" + x)
  {
    var v := m + "=" + x;
    var args := [f, v];
    FlagNameOfJoined(f, "");
    assert args[1..] == [v] && args[2..] == [];
    JoinedPrefix(f, m);
    JoinedPrefix(f, n);
    MatchPair(args, m, n);
    MatchPair([v], m, n);
    PrefixOfJoined(m, x, m);
  }

  /** A lone `flag=value` answers no search for other flags. */
  lemma JoinedIsNotFound(f: string, v: string, m: string, n: string, allowed: set<string>)
    requires Bare(f) && Bare(m) && Bare(n) && f != m && f != n && f in allowed
    ensures Refusal([f + "=" + v], allowed) == None
    ensures ExecFlag([f + "=" + v], [m, n]) == None
  {
    var args := [f + "=" + v];
    FlagNameOfJoined(f, v);
    assert args[1..] == [];
    assert args[0][0] == '-';
    MatchPair(args, m, n);
    PrefixOfJoined(f, v, m);
    PrefixOfJoined(f, v, n);
  }

  lemma MatchPair(args: seq<string>, m: string, n: string)
    requires args != []
    ensures MatchHead(args, [m, n]) ==
            if args[0] == m && |args| > 1 then Some(args[1])
            else if HasPrefix(args[0], m + "=") then Some(args[0][|m| + 1..])
            else if args[0] == n && |args| > 1 then Some(args[1])
            else if HasPrefix(args[0], n + "=") then Some(args[0][|n| + 1..])
            else None
  {
    assert [m, n][1..] == [n] && [n][1..] == [];
    assert MatchHead(args, []) == None;
    assert MatchHead(args, [n]) ==
           if args[0] == n && |args| > 1 then Some(args[1])
           else if HasPrefix(args[0], n + "=") then Some(args[0][|n| + 1..])
           else None;
  }

  /** The arguments refuseUnsupportedArgs passes over as positional. */
  function Walked(args: seq<string>, allowed: set<string>): seq<string> {
    if args == [] then []
    else if !Dashed(args[0]) then [args[0]] + Walked(args[1..], allowed)
    else if FlagName(args[0]) in allowed && '=' !in args[0] && |args| > 1 then Walked(args[2..], allowed)
    else Walked(args[1..], allowed)
  }

  /** On arguments the allowlist accepts, both index-skipping walks see the same
      positional arguments. */
  lemma {:induction false} WalksAgree(args: seq<string>, allowed: set<string>)
    requires Refusal(args, allowed) == None
    ensures Walked(args, allowed) == Positionals(args)
    decreases |args|
  {
    if args != [] {
      if Dashed(args[0]) && '=' !in args[0] && |args| > 1 {
        WalksAgree(args[2..], allowed);
      } else {
        WalksAgree(args[1..], allowed);
      }
    }
  }

  /** Arguments are accepted when every flag written down is on the allowlist, so no flag
      naming an identity reaches ArgoCD, exactly when values do not look like flags. */
  lemma {:induction false} AcceptedFlagsAllowed(args: seq<string>, allowed: set<string>)
    requires NoDashedValues(args)
    ensures Refusal(args, allowed) == None <==> forall a :: a in args && Dashed(a) ==> FlagName(a) in allowed
    decreases |args|
  {
    if args != [] {
      Tails(args);
      assert args == [args[0]] + args[1..];
      assert forall a :: a in args <==> a == args[0] || a in args[1..];
      if Dashed(args[0]) && FlagName(args[0]) in allowed && '=' !in args[0] && |args| > 1 {
        AcceptedFlagsAllowed(args[2..], allowed);
        assert !Dashed(args[1]);
        assert forall a :: a in args[1..] <==> a == args[1] || a in args[2..];
      } else {
        AcceptedFlagsAllowed(args[1..], allowed);
      }
    }
  }
}
