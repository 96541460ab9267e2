/** What each second-factor request accepts, and the row it leaves, in plain numbers and characters. */
module FactorMeaning {
  import opened Wrappers
  import opened Text
  import opened Totp
  import opened Mfa

  // ---- Codes as typed -------------------------------------------------------------------

  /** The positions before `k` that are kept. */
  function KeptBefore(s: string, k: nat, keep: char -> bool): set<int>
    requires k <= |s|
  {
    set i | 0 <= i < k && keep(s[i])
  }

  lemma {:induction false} KeptCount(s: string, keep: char -> bool)
    ensures |Kept(s, keep)| == |KeptBefore(s, |s|, keep)|
    ensures forall k :: 0 <= k < |s| && keep(s[k]) ==> KeptAt(s, Kept(s, keep), k, keep)
  {
    if s != "" {
      var last := |s| - 1;
      var front := s[..last];
      KeptCount(front, keep);
      KeptSnoc(front, s[last], keep);
      assert s == front + [s[last]];
      hide Kept;
      KeptBeforeFront(s, keep);
      forall k | 0 <= k < |s| && keep(s[k]) ensures KeptAt(s, Kept(s, keep), k, keep) {
        if k < last {
          assert front[k] == s[k] && KeptAt(front, Kept(front, keep), k, keep);
        }
      }
    }
  }

  /** A kept character stands after those kept before it. */
  ghost predicate KeptAt(s: string, t: string, k: int, keep: char -> bool)
    requires 0 <= k < |s|
  {
    |KeptBefore(s, k, keep)| < |t| && t[|KeptBefore(s, k, keep)|] == s[k]
  }

  lemma KeptBeforeFront(s: string, keep: char -> bool)
    requires s != ""
    ensures var last := |s| - 1;
            && (forall k :: 0 <= k <= last ==> KeptBefore(s, k, keep) == KeptBefore(s[..last], k, keep))
            && |KeptBefore(s, |s|, keep)| == |KeptBefore(s, last, keep)| + if keep(s[last]) then 1 else 0
  {
    var last := |s| - 1;
    var before := KeptBefore(s, last, keep);
    assert last !in before;
    if keep(s[last]) {
      assert KeptBefore(s, |s|, keep) == before + {last};
    } else {
      assert KeptBefore(s, |s|, keep) == before;
    }
  }

  lemma KeptOne(c: char, keep: char -> bool)
    ensures Kept("", keep) == "" && Kept([c], keep) == if keep(c) then [c] else ""
  {
    assert [c][1..] == "";
    assert Kept([c][1..], keep) == "";
  }

  lemma {:induction false} KeptSnoc(s: string, c: char, keep: char -> bool)
    ensures Kept(s + [c], keep) == Kept(s, keep) + if keep(c) then [c] else ""
  {
    if s == "" {
      assert s + [c] == [c];
      KeptOne(c, keep);
    } else {
      KeptSnoc(s[1..], c, keep);
      KeptCons(s, keep);
      KeptCons(s + [c], keep);
      hide Kept;
      assert (s + [c])[1..] == s[1..] + [c] && (s + [c])[0] == s[0];
    }
  }

  lemma KeptCons(s: string, keep: char -> bool)
    requires s != ""
    ensures Kept(s, keep) == (if keep(s[0]) then [s[0]] else "") + Kept(s[1..], keep)
  {
  }

  /** Blanks, tabs, line ends and the four separators below the blank. */
  predicate White(c: char) {
    c as int == 32 || 9 <= c as int <= 13 || 28 <= c as int <= 31
  }

  /** `t` is what is left of `s` without its white space. */
  ghost predicate WithoutWhite(s: string, t: string) {
    |t| == |KeptBefore(s, |s|, c => !White(c))|
    && forall k :: 0 <= k < |s| && !White(s[k]) ==>
         |KeptBefore(s, k, c => !White(c))| < |t| && t[|KeptBefore(s, k, c => !White(c))|] == s[k]
  }

  lemma SqueezedMeaning(code: string)
    ensures WithoutWhite(code, Squeezed(code))
  {
    var ours, theirs := c => !White(c), (c: char) => !Space(c);
    assert forall c: char :: ours(c) == theirs(c);
    forall k | 0 <= k <= |code| ensures KeptBefore(code, k, ours) == KeptBefore(code, k, theirs) { }
    KeptCount(code, theirs);
    forall k | 0 <= k < |code| && !White(code[k])
      ensures |KeptBefore(code, k, ours)| < |Squeezed(code)| && Squeezed(code)[|KeptBefore(code, k, ours)|] == code[k] {
      assert KeptAt(code, Kept(code, theirs), k, theirs);
    }
  }

  /** Letters and digits of a recovery code, letters as capitals. */
  function Capital(c: char): char {
    if 'a' <= c <= 'z' then (c as int - 'a' as int + 'A' as int) as char else c
  }

  predicate LetterOrDigit(c: char) {
    'a' <= c <= 'z' || 'A' <= c <= 'Z' || '0' <= c <= '9'
  }

  ghost predicate CapitalsOf(s: string, t: string) {
    |t| == |KeptBefore(s, |s|, c => LetterOrDigit(c))|
    && forall k :: 0 <= k < |s| && LetterOrDigit(s[k]) ==>
         |KeptBefore(s, k, c => LetterOrDigit(c))| < |t| && t[|KeptBefore(s, k, c => LetterOrDigit(c))|] == Capital(s[k])
  }

  lemma NormalizedMeaning(code: string)
    ensures CapitalsOf(code, Normalized(code))
  {
    var ours, theirs := c => LetterOrDigit(c), (c: char) => Alnum(c);
    var upper := seq(|code|, i requires 0 <= i < |code| => UpperChar(code[i]));
    forall k | 0 <= k <= |code| ensures KeptBefore(code, k, ours) == KeptBefore(upper, k, theirs) { }
    KeptCount(upper, theirs);
    forall k | 0 <= k < |code| && LetterOrDigit(code[k])
      ensures |KeptBefore(code, k, ours)| < |Normalized(code)| && Normalized(code)[|KeptBefore(code, k, ours)|] == Capital(code[k]) {
      assert KeptAt(upper, Kept(upper, theirs), k, theirs);
    }
  }

  // ---- Time steps -----------------------------------------------------------------------

  /** Step `c` produces the six digits typed, and is the current half minute or a neighbour of it. */
  ghost predicate Produces(crypto: Crypto, secret: string, code: string, now: nat, c: int) {
    0 <= c && -1 <= c - now / 30 <= 1 && |Squeezed(code)| == 6
    && (forall i :: 0 <= i < 6 ==> '0' <= Squeezed(code)[i] <= '9') && Hotp(crypto, secret, c) == Squeezed(code)
  }

  /** The least such step. */
  ghost predicate CodeOf(crypto: Crypto, secret: string, code: string, now: nat, c: nat) {
    Produces(crypto, secret, code, now, c) && forall d :: Produces(crypto, secret, code, now, d) ==> c <= d
  }

  lemma ProducesIsHit(crypto: Crypto, secret: string, code: string, now: nat, c: int)
    ensures Produces(crypto, secret, code, now, c) <==> Hit(crypto, secret, code, now, VALID_WINDOW, c)
  {
    hide Hotp, Squeezed;
    var s := Squeezed(code);
    if SixDigits(s) {
      assert forall i :: 0 <= i < 6 ==> s[i] in s;
    }
  }

  lemma StepMeaning(crypto: Crypto, secret: string, code: string, now: nat)
    ensures match TotpStep(crypto, secret, code, now, VALID_WINDOW)
            case Some(c) => CodeOf(crypto, secret, code, now, c)
            case None => forall c :: !Produces(crypto, secret, code, now, c)
  {
    hide Hotp, Squeezed, TotpStep, Hit, Produces;
    StepIsLeastHit(crypto, secret, code, now, VALID_WINDOW);
    forall c ensures Produces(crypto, secret, code, now, c) <==> Hit(crypto, secret, code, now, VALID_WINDOW, c) {
      ProducesIsHit(crypto, secret, code, now, c);
    }
  }

  // ---- The three proofs -----------------------------------------------------------------

  ghost predicate LiveEmailCode(crypto: Crypto, a: Account, code: string, now: nat) {
    a.way == Email && a.emailCode.Some? && now <= a.emailCode.value.expires && crypto.matches(code, a.emailCode.value.hash)
  }

  /** The code of an enrolled authenticator. */
  ghost predicate AuthenticatorCode(crypto: Crypto, a: Account, code: string, now: nat, c: nat) {
    a.way == AuthenticatorApp && a.secret.Some? && CodeOf(crypto, a.secret.value, code, now, c)
  }

  /** An eight-character code whose first matching stored hash is number `i`. */
  ghost predicate RecoveryCode(crypto: Crypto, a: Account, code: string, i: int) {
    && |Normalized(code)| == 8 && 0 <= i < |a.recovery| && crypto.matches(Normalized(code), a.recovery[i])
    && forall j :: 0 <= j < i ==> !crypto.matches(Normalized(code), a.recovery[j])
  }

  /** Neither of the two first proofs: only then are recovery codes tried. */
  ghost predicate NoFirstProof(crypto: Crypto, a: Account, code: string, now: nat) {
    !LiveEmailCode(crypto, a, code, now) && forall c: nat :: !AuthenticatorCode(crypto, a, code, now, c)
  }

  lemma RecoveryMeaning(crypto: Crypto, a: Account, code: string, i: nat)
    ensures RecoveryMatch(crypto, a.recovery, code) == Some(i) <==> RecoveryCode(crypto, a, code, i)
  {
    hide Normalized;
  }

  /** A sign-in is answered, and its row written, in exactly these ways: refused outright unless the factor
      is on with a valid challenge; by the email code, which is then gone; by a time step newer than the
      last, which is then recorded; refused for an older step; by the first matching recovery code, which
      is then removed; and refused for anything else. */
  lemma SignInMeaning(crypto: Crypto, a: Account, code: string, now: nat, challengeOk: bool)
    ensures var r := Verified(crypto, a, code, now, challengeOk);
            var open := a.enabled && challengeOk && (a.way == AuthenticatorApp ==> a.secret.Some?);
            && (!open ==> r == Answer(a, Refused))
            && (open && LiveEmailCode(crypto, a, code, now) ==>
                  r == Answer(Account(a.enabled, a.way, a.secret, a.setup, a.recovery, a.lastCounter, None),
                              ByEmail(a.emailCode.value.hash)))
            && (forall c: nat :: open && AuthenticatorCode(crypto, a, code, now, c) ==>
                  r == if a.lastCounter.None? || a.lastCounter.value < c
                       then Answer(Account(a.enabled, a.way, a.secret, a.setup, a.recovery, Some(c), a.emailCode),
                                   ByStep(a.secret.value, c))
                       else Answer(a, Refused))
            && (forall i :: open && NoFirstProof(crypto, a, code, now) && RecoveryCode(crypto, a, code, i) ==>
                  r == Answer(Account(a.enabled, a.way, a.secret, a.setup, a.recovery[..i] + a.recovery[i + 1..],
                                      a.lastCounter, a.emailCode), ByRecovery(a.recovery[i])))
            && (open && NoFirstProof(crypto, a, code, now) && (forall i :: !RecoveryCode(crypto, a, code, i)) ==>
                  r == Answer(a, Refused))
  {
    RecoveryFacts(crypto, a, code);
    StepFacts(crypto, a, code, now);
    hide TotpStep, RecoveryMatch, RecoveryCode, AuthenticatorCode;
  }

  /** At most one recovery code is the first to match. */
  lemma RecoveryFacts(crypto: Crypto, a: Account, code: string)
    ensures match RecoveryMatch(crypto, a.recovery, code)
            case Some(i) => RecoveryCode(crypto, a, code, i) && forall k :: RecoveryCode(crypto, a, code, k) ==> k == i
            case None => forall k :: !RecoveryCode(crypto, a, code, k)
  {
    hide Normalized, RecoveryMatch;
    forall k: nat ensures RecoveryMatch(crypto, a.recovery, code) == Some(k) <==> RecoveryCode(crypto, a, code, k) {
      RecoveryMeaning(crypto, a, code, k);
    }
    forall k: int | RecoveryCode(crypto, a, code, k) ensures 0 <= k { }
    hide RecoveryCode;
    if RecoveryMatch(crypto, a.recovery, code).Some? {
      var i := RecoveryMatch(crypto, a.recovery, code).value;
      assert RecoveryCode(crypto, a, code, i);
    }
  }

  lemma StepFacts(crypto: Crypto, a: Account, code: string, now: nat)
    ensures a.way != AuthenticatorApp || a.secret.None? ==> forall c: nat :: !AuthenticatorCode(crypto, a, code, now, c)
    ensures a.way == AuthenticatorApp && a.secret.Some? ==>
              match TotpStep(crypto, a.secret.value, code, now, VALID_WINDOW)
              case Some(c) => AuthenticatorCode(crypto, a, code, now, c)
                              && forall d: nat :: AuthenticatorCode(crypto, a, code, now, d) ==> d == c
              case None => forall c: nat :: !AuthenticatorCode(crypto, a, code, now, c)
  {
    hide TotpStep, CodeOf;
    if a.secret.Some? {
      StepMeaning(crypto, a.secret.value, code, now);
      OneStep(crypto, a.secret.value, code, now);
    }
  }

  lemma OneStep(crypto: Crypto, secret: string, code: string, now: nat)
    ensures forall c: nat, d: nat :: CodeOf(crypto, secret, code, now, c) && CodeOf(crypto, secret, code, now, d) ==> c == d
    ensures (forall c :: !Produces(crypto, secret, code, now, c)) ==> forall c: nat :: !CodeOf(crypto, secret, code, now, c)
  {
    hide Produces;
    forall c: nat, d: nat | CodeOf(crypto, secret, code, now, c) && CodeOf(crypto, secret, code, now, d) ensures c == d {
      assert c <= d && d <= c;
    }
  }

  /** Removal asks for the proof that sign-in asks for, and then leaves nothing of the factor: it is off,
      without secret, pending secret, recovery codes or counter, and a used email code is gone. */
  lemma RemovalMeaning(crypto: Crypto, a: Account, code: string, now: nat, workspaceRequires: bool)
    ensures var r, proof := Removed(crypto, a, code, now, workspaceRequires), Verified(crypto, a, code, now, true);
            if workspaceRequires then r == Answer(a, Refused)
            else r == if proof.outcome == Refused then proof
                      else Answer(Account(false, a.way, None, None, [], None, proof.account.emailCode), proof.outcome)
  {
    hide TotpStep, RecoveryMatch, EmailMatches;
  }

  // ---- Enrolling and switching ----------------------------------------------------------

  /** Enrolling starts only while the factor is off and sign-in is recent, and only remembers a secret. */
  lemma EnrolmentMeaning(crypto: Crypto, a: Account, secret: string, expires: nat, recent: bool, way: Method, hashes: seq<string>)
    ensures Started(a, secret, expires, recent) ==
              if !a.enabled && recent
              then Answer(Account(a.enabled, a.way, a.secret, Some(Pending(secret, expires)), a.recovery, a.lastCounter, a.emailCode), Done)
              else Answer(a, Refused)
    ensures Switched(a, way) ==
              if way == Email || a.secret.Some?
              then Answer(Account(a.enabled, way, a.secret, a.setup, a.recovery, a.lastCounter, a.emailCode), Done)
              else Answer(a, Refused)
    ensures EmailEnrolled(a, recent, hashes) ==
              if recent && !(a.enabled && a.way == Email)
              then Answer(Account(true, Email, None, None, hashes, None, a.emailCode), Done)
              else Answer(a, Refused)
  {
  }

  /** A pending secret that has not expired becomes the secret with the step that proved it; an expired
      one is forgotten; anything else changes nothing. */
  lemma ConfirmationMeaning(crypto: Crypto, a: Account, code: string, now: nat, hashes: seq<string>)
    ensures var r := Confirmed(crypto, a, code, now, hashes);
            && (a.setup.None? ==> r == Answer(a, Refused))
            && (a.setup.Some? && now > a.setup.value.expires ==>
                  r == Answer(Account(a.enabled, a.way, a.secret, None, a.recovery, a.lastCounter, a.emailCode), Refused))
            && (a.setup.Some? && now <= a.setup.value.expires ==>
                  && (forall c: nat :: CodeOf(crypto, a.setup.value.secret, code, now, c) ==>
                        r == Answer(Account(true, a.way, Some(a.setup.value.secret), None, hashes, Some(c), a.emailCode),
                                    ByStep(a.setup.value.secret, c)))
                  && ((forall c: nat :: !CodeOf(crypto, a.setup.value.secret, code, now, c)) ==> r == Answer(a, Refused)))
  {
    hide CodeOf, TotpStep;
    if a.setup.Some? {
      StepMeaning(crypto, a.setup.value.secret, code, now);
      OneStep(crypto, a.setup.value.secret, code, now);
    }
  }
}
