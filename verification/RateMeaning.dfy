/** Which request gets which limit, and when it is let through, in literal paths and seconds. */
module RateMeaning {
  import opened Wrappers
  import opened Text
  import opened TextMeaning
  import opened RateLimiter
  import opened RateLimiterLaws

  // ---- Paths ----------------------------------------------------------------------------

  ghost predicate Begins(path: string, prefix: string) {
    exists rest :: path == prefix + rest
  }

  lemma BeginsMeaning(path: string, prefix: string)
    ensures StartsWith(path, prefix) <==> Begins(path, prefix)
  {
    StartsWithMeaning(path, prefix);
  }

  /** Health checks and the documentation are not limited. */
  lemma ExemptPaths(path: string)
    ensures IsExempt(path) <==>
              Begins(path, "/health") || Begins(path, "/api/health") || path == "/docs" || path == "/openapi.json"
              || path == "/favicon.ico"
  {
    StartsWithMeaning(path, "/health");
    StartsWithMeaning(path, "/api/health");
  }

  lemma StartsAlike(path: string, p: string, k: nat)
    requires k < |p|
    ensures StartsWith(path, p) ==> k < |path| && path[k] == p[k]
  {
    if StartsWith(path, p) {
      assert path[..|p|][k] == path[k];
    }
  }

  /** Which letters a listed prefix puts at positions 10, 14 and 17. */
  lemma PrefixesApart(path: string)
    ensures StartsWith(path, "/api/auth/mfa/verify") ==> |path| > 14 && path[10] == 'm' && path[14] == 'v'
    ensures StartsWith(path, "/api/auth/mfa/setup/confirm") ==> |path| > 14 && path[10] == 'm' && path[14] == 's'
    ensures StartsWith(path, "/api/auth/github") ==> |path| > 10 && path[10] == 'g'
    ensures StartsWith(path, "/api/auth/google") ==> |path| > 10 && path[10] == 'g'
    ensures StartsWith(path, "/api/auth/verify-email") ==> |path| > 17 && path[10] == 'v' && path[17] == 'e'
    ensures StartsWith(path, "/api/auth/resend-verification") ==> |path| > 17 && path[10] == 'r' && path[17] == 'v'
    ensures StartsWith(path, "/api/auth/verify-phone") ==> |path| > 17 && path[10] == 'v' && path[17] == 'p'
    ensures StartsWith(path, "/api/auth/resend-phone-verification") ==> |path| > 17 && path[10] == 'r' && path[17] == 'p'
    ensures path == "/api/auth/login" ==> path[10] == 'l'
    ensures path == "/api/auth/signup" ==> path[10] == 's'
  {
    StartsAlike(path, "/api/auth/mfa/verify", 10);
    StartsAlike(path, "/api/auth/mfa/verify", 14);
    StartsAlike(path, "/api/auth/mfa/setup/confirm", 10);
    StartsAlike(path, "/api/auth/mfa/setup/confirm", 14);
    StartsAlike(path, "/api/auth/github", 10);
    StartsAlike(path, "/api/auth/google", 10);
    StartsAlike(path, "/api/auth/verify-email", 10);
    StartsAlike(path, "/api/auth/verify-email", 17);
    StartsAlike(path, "/api/auth/resend-verification", 10);
    StartsAlike(path, "/api/auth/resend-verification", 17);
    StartsAlike(path, "/api/auth/verify-phone", 10);
    StartsAlike(path, "/api/auth/verify-phone", 17);
    StartsAlike(path, "/api/auth/resend-phone-verification", 10);
    StartsAlike(path, "/api/auth/resend-phone-verification", 17);
    hide StartsWith;
  }

  /** The two exact paths and the eight prefixes with a limit of their own; everything else shares one. */
  lemma LimitedPaths(path: string)
    ensures Resolve(path) == Rule(Login, 10) <==> path == "/api/auth/login"
    ensures Resolve(path) == Rule(Signup, 5) <==> path == "/api/auth/signup"
    ensures Resolve(path) == Rule(MfaVerify, 10) <==> Begins(path, "/api/auth/mfa/verify")
    ensures Resolve(path) == Rule(MfaSetup, 5) <==> Begins(path, "/api/auth/mfa/setup/confirm")
    ensures Resolve(path) == Rule(OAuth, 20) <==> Begins(path, "/api/auth/github") || Begins(path, "/api/auth/google")
    ensures Resolve(path) == Rule(VerifyEmail, 10) <==> Begins(path, "/api/auth/verify-email")
    ensures Resolve(path) == Rule(ResendVerification, 5) <==> Begins(path, "/api/auth/resend-verification")
    ensures Resolve(path) == Rule(VerifyPhone, 10) <==> Begins(path, "/api/auth/verify-phone")
    ensures Resolve(path) == Rule(ResendPhone, 5) <==> Begins(path, "/api/auth/resend-phone-verification")
    ensures Resolve(path) == Rule(Default, 100) <==>
              && path != "/api/auth/login" && path != "/api/auth/signup"
              && !Begins(path, "/api/auth/mfa/verify")
              && !Begins(path, "/api/auth/mfa/setup/confirm")
              && !Begins(path, "/api/auth/github")
              && !Begins(path, "/api/auth/google")
              && !Begins(path, "/api/auth/verify-email")
              && !Begins(path, "/api/auth/resend-verification")
              && !Begins(path, "/api/auth/verify-phone")
              && !Begins(path, "/api/auth/resend-phone-verification")
  {
    BeginsMeaning(path, "/api/auth/mfa/verify");
    BeginsMeaning(path, "/api/auth/mfa/setup/confirm");
    BeginsMeaning(path, "/api/auth/github");
    BeginsMeaning(path, "/api/auth/google");
    BeginsMeaning(path, "/api/auth/verify-email");
    BeginsMeaning(path, "/api/auth/resend-verification");
    BeginsMeaning(path, "/api/auth/verify-phone");
    BeginsMeaning(path, "/api/auth/resend-phone-verification");
    PrefixesApart(path);
    hide StartsWith, Begins;
  }

  // ---- Decisions ------------------------------------------------------------------------

  /** The admissions of one client and category less than a minute before `now`. */
  function InLastMinute(history: seq<Admission>, client: string, category: Category, now: real): set<int> {
    set i | 0 <= i < |history| && history[i].key.client == client && history[i].key.category == category
            && now - history[i].at < 60.0
  }

  lemma {:induction false} RecentCount(history: seq<Admission>, k: Key, now: real)
    ensures |Recent(Times(history, k), now)| == |InLastMinute(history, k.client, k.category, now)|
  {
    if history != [] {
      var last := |history| - 1;
      RecentCount(history[..last], k, now);
      hide Recent, Times;
      TimesLast(history, k, now);
      var before := InLastMinute(history[..last], k.client, k.category, now);
      assert last !in before;
      if history[last].key == k && now - history[last].at < 60.0 {
        assert InLastMinute(history, k.client, k.category, now) == before + {last};
      } else {
        assert InLastMinute(history, k.client, k.category, now) == before;
      }
    }
  }

  lemma TimesLast(history: seq<Admission>, k: Key, now: real)
    requires history != []
    ensures var last := history[|history| - 1];
            |Recent(Times(history, k), now)| == |Recent(Times(history[..|history| - 1], k), now)|
                                               + if last.key == k && now - last.at < 60.0 then 1 else 0
  {
    var last := history[|history| - 1];
    RecentAppend(Times(history[..|history| - 1], k), if last.key == k then [last.at] else [], now);
    assert Recent([last.at], now) == (if now - last.at < 60.0 then [last.at] else []) + Recent([last.at][1..], now);
    assert Recent([], now) == [];
  }

  function ClientOf(r: Request): string {
    if r.client.Some? then r.client.value else "unknown"
  }

  /** In every run, a limited request that is not turned away for capacity is admitted exactly while its
      client has had fewer admissions of that category in the last minute than the path's limit. */
  lemma AdmittedExactly(rs: seq<Request>, r: Request, maxKeys: int)
    requires Ordered(rs + [r]) && !IsExempt(r.path)
    ensures var s := After(rs, maxKeys); var v := Serve(s.table, r, maxKeys).verdict;
            v != AtCapacity ==>
              v == if |InLastMinute(s.history, ClientOf(r), Resolve(r.path).category, r.now)| < Resolve(r.path).limit
                   then Admitted else OverLimit
  {
    hide Recent, Times, IsExempt, Resolve, After, Serve, InLastMinute;
    AgreesWithIdeal(rs, r, maxKeys);
    RecentCount(After(rs, maxKeys).history, KeyOf(r), r.now);
  }

  /** The history these counts speak of is exactly the admitted requests, each under its own client and
      category and at its own time. */
  lemma HistoryExactly(rs: seq<Request>, r: Request, maxKeys: int)
    ensures var s := After(rs, maxKeys);
            After(rs + [r], maxKeys).history ==
              if Serve(s.table, r, maxKeys).verdict == Admitted
              then s.history + [Admission(Key(ClientOf(r), Resolve(r.path).category), r.now)] else s.history
  {
    hide Serve, Resolve;
    assert (rs + [r])[..|rs|] == rs;
  }
}
