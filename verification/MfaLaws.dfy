/** Over every serial run: no time step, no recovery code and no email code is accepted twice. */
module MfaLaws {
  import opened Wrappers
  import opened Totp
  import opened Mfa

  datatype Request =
    | StartSetup(secret: string, expires: nat, recent: bool)
    | ConfirmSetup(code: string, now: nat, hashes: seq<string>)
    | Verify(code: string, now: nat, challengeOk: bool)
    | Disable(code: string, now: nat, workspaceRequires: bool)
    | UpdateMethod(way: Method)
    | SetupEmail(recent: bool, hashes: seq<string>)
    | SendEmailCode(emailCode: EmailCode)

  datatype Step = Step(secret: string, counter: nat)

  /** The account beside what has been issued for it and accepted from it so far. */
  datatype Sys = Sys(
    account: Account,
    secrets: set<string>,
    hashes: set<string>,
    accepted: seq<Step>,
    consumed: seq<string>,
    mailed: set<string>,
    emailed: seq<string>)

  function Handle(crypto: Crypto, a: Account, r: Request): Answer {
    match r
    case StartSetup(secret, expires, recent) => Started(a, secret, expires, recent)
    case ConfirmSetup(code, now, hashes) => Confirmed(crypto, a, code, now, hashes)
    case Verify(code, now, ok) => Verified(crypto, a, code, now, ok)
    case Disable(code, now, required) => Removed(crypto, a, code, now, required)
    case UpdateMethod(way) => Switched(a, way)
    case SetupEmail(recent, hashes) => EmailEnrolled(a, recent, hashes)
    case SendEmailCode(emailCode) => Answer(a.(emailCode := Some(emailCode)), Done)
  }

  /** The secrets and recovery hashes generated while handling a request. */
  function NewSecrets(r: Request): set<string> {
    if r.StartSetup? then {r.secret} else {}
  }

  function NewHashes(r: Request): seq<string> {
    if r.ConfirmSetup? || r.SetupEmail? then r.hashes else []
  }

  function NewCodes(r: Request): set<string> {
    if r.SendEmailCode? then {r.emailCode.hash} else {}
  }

  ghost predicate AllDifferent<T>(s: seq<T>) {
    forall i, j :: 0 <= i < j < |s| ==> s[i] != s[j]
  }

  ghost function Elements(s: seq<string>): set<string> {
    set x | x in s
  }

  /** Random secrets and salted hashes never repeat. */
  ghost predicate Fresh(s: Sys, r: Request) {
    && NewSecrets(r) !! s.secrets && Elements(NewHashes(r)) !! s.hashes && AllDifferent(NewHashes(r))
    && NewCodes(r) !! s.mailed
  }

  ghost function After(crypto: Crypto, s: Sys, r: Request): Sys {
    var answer := Handle(crypto, s.account, r);
    Sys(answer.account,
        s.secrets + NewSecrets(r),
        s.hashes + Elements(NewHashes(r)),
        if answer.outcome.ByStep? then s.accepted + [Step(answer.outcome.secret, answer.outcome.counter)] else s.accepted,
        if answer.outcome.ByRecovery? then s.consumed + [answer.outcome.hash] else s.consumed,
        s.mailed + NewCodes(r),
        if answer.outcome.ByEmail? then s.emailed + [answer.outcome.hash] else s.emailed)
  }

  ghost function Run(crypto: Crypto, way: Method, rs: seq<Request>): Sys {
    if rs == [] then Sys(Account(false, way, None, None, [], None, None), {}, {}, [], [], {}, [])
    else After(crypto, Run(crypto, way, rs[..|rs| - 1]), rs[|rs| - 1])
  }

  ghost predicate AllFresh(crypto: Crypto, way: Method, rs: seq<Request>) {
    forall i :: 0 <= i < |rs| ==> Fresh(Run(crypto, way, rs[..i]), rs[i])
  }

  // ---- The invariant --------------------------------------------------------------------

  ghost predicate StepsIncrease(accepted: seq<Step>) {
    forall i, j :: 0 <= i < j < |accepted| && accepted[i].secret == accepted[j].secret ==>
      accepted[i].counter < accepted[j].counter
  }

  ghost predicate Below(accepted: seq<Step>, secret: string, last: nat) {
    forall i :: 0 <= i < |accepted| && accepted[i].secret == secret ==> accepted[i].counter <= last
  }

  ghost predicate Unused(accepted: seq<Step>, secret: string) {
    forall i :: 0 <= i < |accepted| ==> accepted[i].secret != secret
  }

  ghost predicate StepInv(s: Sys) {
    && StepsIncrease(s.accepted)
    && (forall i :: 0 <= i < |s.accepted| ==> s.accepted[i].secret in s.secrets)
    && (s.account.secret.Some? ==>
          s.account.secret.value in s.secrets && s.account.lastCounter.Some?
          && Below(s.accepted, s.account.secret.value, s.account.lastCounter.value))
    && (s.account.setup.Some? ==>
          s.account.setup.value.secret in s.secrets && Unused(s.accepted, s.account.setup.value.secret)
          && s.account.secret != Some(s.account.setup.value.secret))
  }

  ghost predicate RecoveryInv(s: Sys) {
    && AllDifferent(s.account.recovery) && AllDifferent(s.consumed)
    && (forall h :: h in s.account.recovery ==> h in s.hashes && h !in s.consumed)
    && (forall h :: h in s.consumed ==> h in s.hashes)
  }

  /** The code that is out has been mailed and not been used. */
  ghost predicate EmailInv(s: Sys) {
    && AllDifferent(s.emailed)
    && (forall h :: h in s.emailed ==> h in s.mailed)
    && (s.account.emailCode.Some? ==>
          s.account.emailCode.value.hash in s.mailed && s.account.emailCode.value.hash !in s.emailed)
  }

  lemma StepKeepsEmail(crypto: Crypto, s: Sys, r: Request)
    requires EmailInv(s) && Fresh(s, r)
    ensures EmailInv(After(crypto, s, r))
  {
    hide TotpStep, RecoveryMatch, Elements;
    var v := After(crypto, s, r);
    if v.emailed != s.emailed {
      assert v.emailed == s.emailed + [s.account.emailCode.value.hash];
    }
  }

  lemma CheckKeepsSteps(crypto: Crypto, s: Sys, code: string, now: nat)
    requires StepInv(s)
    ensures var answer := Checked(crypto, s.account, code, now);
            var accepted := if answer.outcome.ByStep? then s.accepted + [Step(answer.outcome.secret, answer.outcome.counter)]
                            else s.accepted;
            StepInv(s.(account := answer.account, accepted := accepted))
  {
    hide TotpStep, RecoveryMatch, EmailMatches;
  }

  lemma EnrolKeepsSteps(crypto: Crypto, s: Sys, r: Request)
    requires StepInv(s) && Fresh(s, r) && (r.StartSetup? || r.ConfirmSetup?)
    ensures StepInv(After(crypto, s, r))
  {
    hide TotpStep, Elements, AllDifferent;
  }

  lemma StepKeepsSteps(crypto: Crypto, s: Sys, r: Request)
    requires StepInv(s) && Fresh(s, r)
    ensures StepInv(After(crypto, s, r))
  {
    hide TotpStep, RecoveryMatch, EmailMatches, Checked, Elements, AllDifferent;
    match r
    case StartSetup(_, _, _) => EnrolKeepsSteps(crypto, s, r);
    case ConfirmSetup(_, _, _) => EnrolKeepsSteps(crypto, s, r);
    case Verify(code, now, _) => CheckKeepsSteps(crypto, s, code, now);
    case Disable(code, now, _) => CheckKeepsSteps(crypto, s, code, now);
    case _ =>
  }

  lemma ConsumeKeepsRecovery(crypto: Crypto, s: Sys, code: string)
    requires RecoveryInv(s)
    ensures var answer := Consumed(crypto, s.account, code);
            var consumed := if answer.outcome.ByRecovery? then s.consumed + [answer.outcome.hash] else s.consumed;
            RecoveryInv(s.(account := answer.account, consumed := consumed))
  {
    hide RecoveryMatch;
    var answer := Consumed(crypto, s.account, code);
    if RecoveryMatch(crypto, s.account.recovery, code).Some? {
      var i := RecoveryMatch(crypto, s.account.recovery, code).value;
      var left := s.account.recovery[..i] + s.account.recovery[i + 1..];
      assert s.account.recovery[i] in s.account.recovery;
      forall h | h in left ensures h in s.account.recovery && h != s.account.recovery[i] {
        var j :| 0 <= j < |left| && left[j] == h;
        assert h == s.account.recovery[if j < i then j else j + 1];
      }
      assert AllDifferent(left) by {
        forall j, k | 0 <= j < k < |left| ensures left[j] != left[k] {
          assert left[j] == s.account.recovery[if j < i then j else j + 1];
          assert left[k] == s.account.recovery[if k < i then k else k + 1];
        }
      }
    }
  }

  lemma CheckKeepsRecovery(crypto: Crypto, s: Sys, code: string, now: nat)
    requires RecoveryInv(s)
    ensures var answer := Checked(crypto, s.account, code, now);
            var consumed := if answer.outcome.ByRecovery? then s.consumed + [answer.outcome.hash] else s.consumed;
            RecoveryInv(s.(account := answer.account, consumed := consumed))
  {
    hide TotpStep, RecoveryMatch, EmailMatches, Consumed;
    ConsumeKeepsRecovery(crypto, s, code);
  }

  lemma StepKeepsRecovery(crypto: Crypto, s: Sys, r: Request)
    requires RecoveryInv(s) && Fresh(s, r)
    ensures RecoveryInv(After(crypto, s, r))
  {
    hide TotpStep, RecoveryMatch, EmailMatches, Checked;
    match r
    case Verify(code, now, _) => CheckKeepsRecovery(crypto, s, code, now);
    case Disable(code, now, _) => CheckKeepsRecovery(crypto, s, code, now);
    case _ =>
  }

  lemma {:induction false} RunKeeps(crypto: Crypto, way: Method, rs: seq<Request>)
    requires AllFresh(crypto, way, rs)
    ensures StepInv(Run(crypto, way, rs)) && RecoveryInv(Run(crypto, way, rs)) && EmailInv(Run(crypto, way, rs))
  {
    hide After, Fresh;
    if rs != [] {
      var front := rs[..|rs| - 1];
      assert forall i :: 0 <= i < |front| ==> front[..i] == rs[..i] && front[i] == rs[i];
      RunKeeps(crypto, way, front);
      StepKeepsSteps(crypto, Run(crypto, way, front), rs[|rs| - 1]);
      StepKeepsRecovery(crypto, Run(crypto, way, front), rs[|rs| - 1]);
      StepKeepsEmail(crypto, Run(crypto, way, front), rs[|rs| - 1]);
    }
  }

  // ---- Main results ---------------------------------------------------------------------

  /** For one enrolled secret the accepted time steps strictly increase, so none is accepted twice
      (section 5.2 of RFC 6238). */
  lemma NoStepTwice(crypto: Crypto, way: Method, rs: seq<Request>, i: nat, j: nat)
    requires AllFresh(crypto, way, rs)
    requires i < j < |Run(crypto, way, rs).accepted|
    requires Run(crypto, way, rs).accepted[i].secret == Run(crypto, way, rs).accepted[j].secret
    ensures Run(crypto, way, rs).accepted[i].counter < Run(crypto, way, rs).accepted[j].counter
  {
    hide Run, RecoveryInv;
    RunKeeps(crypto, way, rs);
  }

  /** Each stored recovery hash lets at most one request through. */
  lemma NoRecoveryCodeTwice(crypto: Crypto, way: Method, rs: seq<Request>, i: nat, j: nat)
    requires AllFresh(crypto, way, rs)
    requires i < j < |Run(crypto, way, rs).consumed|
    ensures Run(crypto, way, rs).consumed[i] != Run(crypto, way, rs).consumed[j]
  {
    hide Run, StepInv;
    RunKeeps(crypto, way, rs);
  }

  /** Each code sent by email lets at most one request through. */
  lemma NoEmailCodeTwice(crypto: Crypto, way: Method, rs: seq<Request>, i: nat, j: nat)
    requires AllFresh(crypto, way, rs)
    requires i < j < |Run(crypto, way, rs).emailed|
    ensures Run(crypto, way, rs).emailed[i] != Run(crypto, way, rs).emailed[j]
  {
    hide Run, StepInv, RecoveryInv;
    RunKeeps(crypto, way, rs);
  }

  /** Every accepted step was the least one of the window producing the code, for a secret issued to this account. */
  lemma AcceptedStepIsHit(crypto: Crypto, way: Method, rs: seq<Request>, code: string, now: nat, challengeOk: bool)
    requires AllFresh(crypto, way, rs)
    ensures var s := Run(crypto, way, rs);
            var outcome := Verified(crypto, s.account, code, now, challengeOk).outcome;
            outcome.ByStep? ==> outcome.secret in s.secrets
                                && Hit(crypto, outcome.secret, code, now, VALID_WINDOW, outcome.counter)
                                && Below(s.accepted, outcome.secret, outcome.counter)
                                && forall k :: 0 <= k < |s.accepted| ==> s.accepted[k] != Step(outcome.secret, outcome.counter)
  {
    hide Run, RecoveryInv, TotpStep, Hit, EmailMatches, RecoveryMatch;
    RunKeeps(crypto, way, rs);
    var s := Run(crypto, way, rs);
    if s.account.secret.Some? {
      StepIsLeastHit(crypto, s.account.secret.value, code, now, VALID_WINDOW);
    }
  }

  /** The time step a code stands for: the least step of the window that produces it. */
  ghost predicate StandsFor(crypto: Crypto, secret: string, code: string, now: nat, c: nat) {
    Hit(crypto, secret, code, now, VALID_WINDOW, c)
    && forall d :: Hit(crypto, secret, code, now, VALID_WINDOW, d) ==> c <= d
  }

  ghost predicate SomeStep(crypto: Crypto, a: Account, code: string, now: nat) {
    a.way == AuthenticatorApp && a.secret.Some? && exists c: nat :: StandsFor(crypto, a.secret.value, code, now, c)
  }

  ghost predicate UnusedStep(crypto: Crypto, a: Account, code: string, now: nat) {
    a.way == AuthenticatorApp && a.secret.Some? && exists c: nat ::
      StandsFor(crypto, a.secret.value, code, now, c) && (a.lastCounter.Some? ==> a.lastCounter.value < c)
  }

  ghost predicate StoredRecoveryCode(crypto: Crypto, a: Account, code: string) {
    |Normalized(code)| == 8 && exists i :: 0 <= i < |a.recovery| && crypto.matches(Normalized(code), a.recovery[i])
  }

  /** Sign-in lets a code through exactly when the factor is on, the challenge is valid and the code is
      a live email code, an unused time step, or a stored recovery code that is no time step. */
  lemma LetThroughExactly(crypto: Crypto, a: Account, code: string, now: nat, challengeOk: bool)
    ensures Verified(crypto, a, code, now, challengeOk).outcome != Refused <==>
              && a.enabled && challengeOk && (a.way == AuthenticatorApp ==> a.secret.Some?)
              && (|| (a.way == Email && EmailMatches(crypto, a, code, now))
                  || UnusedStep(crypto, a, code, now)
                  || (StoredRecoveryCode(crypto, a, code) && !SomeStep(crypto, a, code, now)))
  {
    hide Hit, TotpStep, EmailMatches, Normalized, FirstMatch;
    if a.secret.Some? {
      StepIsLeastHit(crypto, a.secret.value, code, now, VALID_WINDOW);
      if TotpStep(crypto, a.secret.value, code, now, VALID_WINDOW).Some? {
        assert StandsFor(crypto, a.secret.value, code, now, TotpStep(crypto, a.secret.value, code, now, VALID_WINDOW).value);
      }
    }
  }

  /** No request turns the factor off without such a proof. */
  lemma OnlyProofDisables(crypto: Crypto, a: Account, r: Request)
    requires a.enabled && !Handle(crypto, a, r).account.enabled
    ensures r.Disable? && !r.workspaceRequires
    ensures (a.way == Email && EmailMatches(crypto, a, r.code, r.now))
            || UnusedStep(crypto, a, r.code, r.now)
            || (StoredRecoveryCode(crypto, a, r.code) && !SomeStep(crypto, a, r.code, r.now))
  {
    hide Hit, TotpStep, EmailMatches, Normalized, FirstMatch, SomeStep, UnusedStep, StoredRecoveryCode, RecoveryMatch;
    if r.Disable? {
      LetThroughExactly(crypto, a, r.code, r.now, true);
    }
  }
}
