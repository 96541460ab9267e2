/** backend/main.py and backend/auth.py: enrolling, checking, switching and removing a second factor. */
module Mfa {
  import opened Wrappers
  import opened Totp

  const VALID_WINDOW := 1

  datatype Method = AuthenticatorApp | Email
  datatype Pending = Pending(secret: string, expires: nat)
  datatype EmailCode = EmailCode(hash: string, expires: nat)

  /** The columns of a user row that concern the second factor; `None` is NULL. */
  datatype Account = Account(
    enabled: bool,
    way: Method,
    secret: Option<string>,
    setup: Option<Pending>,
    recovery: seq<string>,
    lastCounter: Option<nat>,
    emailCode: Option<EmailCode>)

  /** Why a request was let through, or that it was not. */
  datatype Outcome =
    | Refused
    | Done                                  // a change that proves no factor
    | ByStep(secret: string, counter: nat)
    | ByEmail(hash: string)
    | ByRecovery(hash: string)

  datatype Answer = Answer(account: Account, outcome: Outcome)

  function EmailMatches(crypto: Crypto, a: Account, code: string, now: nat): bool {
    a.emailCode.Some? && a.emailCode.value.expires >= now && crypto.matches(code, a.emailCode.value.hash)
  }

  function Consumed(crypto: Crypto, a: Account, code: string): Answer {
    match RecoveryMatch(crypto, a.recovery, code)
    case None => Answer(a, Refused)
    case Some(i) => Answer(a.(recovery := a.recovery[..i] + a.recovery[i + 1..]), ByRecovery(a.recovery[i]))
  }

  /** The factor check shared by sign-in and removal: email code or time step first, then a recovery
      code; a time step already passed is refused without trying the recovery codes. */
  function Checked(crypto: Crypto, a: Account, code: string, now: nat): Answer {
    if a.way == Email then
      if EmailMatches(crypto, a, code, now) then Answer(a.(emailCode := None), ByEmail(a.emailCode.value.hash))
      else Consumed(crypto, a, code)
    else if a.secret.None? then Consumed(crypto, a, code)
    else match TotpStep(crypto, a.secret.value, code, now, VALID_WINDOW)
      case None => Consumed(crypto, a, code)
      case Some(c) =>
        if a.lastCounter.Some? && c <= a.lastCounter.value then Answer(a, Refused)
        else Answer(a.(lastCounter := Some(c)), ByStep(a.secret.value, c))
  }

  function Verified(crypto: Crypto, a: Account, code: string, now: nat, challengeOk: bool): Answer {
    if !a.enabled || (a.way == AuthenticatorApp && a.secret.None?) || !challengeOk then Answer(a, Refused)
    else Checked(crypto, a, code, now)
  }

  function Removed(crypto: Crypto, a: Account, code: string, now: nat, workspaceRequires: bool): Answer {
    if !a.enabled || (a.way == AuthenticatorApp && a.secret.None?) || workspaceRequires then Answer(a, Refused)
    else
      var checked := Checked(crypto, a, code, now);
      if checked.outcome == Refused then checked
      else Answer(checked.account.(enabled := false, secret := None, setup := None, recovery := [], lastCounter := None),
                  checked.outcome)
  }

  function Started(a: Account, secret: string, expires: nat, recent: bool): Answer {
    if a.enabled || !recent then Answer(a, Refused)
    else Answer(a.(setup := Some(Pending(secret, expires))), Done)
  }

  function Confirmed(crypto: Crypto, a: Account, code: string, now: nat, hashes: seq<string>): Answer {
    if a.setup.None? then Answer(a, Refused)
    else if a.setup.value.expires < now then Answer(a.(setup := None), Refused)
    else match TotpStep(crypto, a.setup.value.secret, code, now, VALID_WINDOW)
      case None => Answer(a, Refused)
      case Some(c) =>
        Answer(a.(enabled := true, secret := Some(a.setup.value.secret), setup := None, recovery := hashes,
                  lastCounter := Some(c)),
               ByStep(a.setup.value.secret, c))
  }

  function Switched(a: Account, way: Method): Answer {
    if way == AuthenticatorApp && a.secret.None? then Answer(a, Refused) else Answer(a.(way := way), Done)
  }

  function EmailEnrolled(a: Account, recent: bool, hashes: seq<string>): Answer {
    if (a.enabled && a.way == Email) || !recent then Answer(a, Refused)
    else Answer(a.(enabled := true, way := Email, recovery := hashes, secret := None, setup := None, lastCounter := None), Done)
  }

  class User {
    var mfaEnabled: bool
    var mfaMethod: Method
    var mfaSecret: Option<string>
    var mfaSetup: Option<Pending>
    var mfaRecoveryCodeHashes: seq<string>
    var mfaLastUsedCounter: Option<nat>
    var emailOtp: Option<EmailCode>

    function Row(): Account
      reads this
    {
      Account(mfaEnabled, mfaMethod, mfaSecret, mfaSetup, mfaRecoveryCodeHashes, mfaLastUsedCounter, emailOtp)
    }

    method ConsumeRecoveryCode(crypto: Crypto, code: string) returns (outcome: Outcome)
      modifies this
      ensures Answer(Row(), outcome) == Consumed(crypto, old(Row()), code)
    {
      var normalized := Normalized(code);
      if |normalized| != 8 {
        return Refused;
      }
      var hashes := mfaRecoveryCodeHashes;
      for index := 0 to |hashes|
        invariant Row() == old(Row())
        invariant forall j :: 0 <= j < index ==> !crypto.matches(normalized, hashes[j])
      {
        if crypto.matches(normalized, hashes[index]) {
          mfaRecoveryCodeHashes := hashes[..index] + hashes[index + 1..];
          return ByRecovery(hashes[index]);
        }
      }
      return Refused;
    }

    method Check(crypto: Crypto, code: string, now: nat) returns (outcome: Outcome)
      modifies this
      ensures Answer(Row(), outcome) == Checked(crypto, old(Row()), code, now)
    {
      if mfaMethod == Email {
        if EmailMatches(crypto, Row(), code, now) {
          var used := emailOtp.value.hash;
          emailOtp := None;
          return ByEmail(used);
        }
      } else if mfaSecret.Some? {
        var counter := VerifyTotpCode(crypto, mfaSecret.value, code, now, VALID_WINDOW);
        if counter.Some? {
          if mfaLastUsedCounter.Some? && counter.value <= mfaLastUsedCounter.value {
            return Refused;
          }
          mfaLastUsedCounter := counter;
          return ByStep(mfaSecret.value, counter.value);
        }
      }
      outcome := ConsumeRecoveryCode(crypto, code);
    }

    method VerifyChallenge(crypto: Crypto, code: string, now: nat, challengeOk: bool) returns (outcome: Outcome)
      modifies this
      ensures Answer(Row(), outcome) == Verified(crypto, old(Row()), code, now, challengeOk)
    {
      if !mfaEnabled || (mfaMethod == AuthenticatorApp && mfaSecret.None?) || !challengeOk {
        return Refused;
      }
      outcome := Check(crypto, code, now);
    }

    method Disable(crypto: Crypto, code: string, now: nat, workspaceRequires: bool) returns (outcome: Outcome)
      modifies this
      ensures Answer(Row(), outcome) == Removed(crypto, old(Row()), code, now, workspaceRequires)
    {
      if !mfaEnabled || (mfaMethod == AuthenticatorApp && mfaSecret.None?) || workspaceRequires {
        return Refused;
      }
      outcome := Check(crypto, code, now);
      if outcome != Refused {
        mfaEnabled := false;
        mfaSecret := None;
        mfaSetup := None;
        mfaRecoveryCodeHashes := [];
        mfaLastUsedCounter := None;
      }
    }

    method StartSetup(secret: string, expires: nat, recent: bool) returns (outcome: Outcome)
      modifies this
      ensures Answer(Row(), outcome) == Started(old(Row()), secret, expires, recent)
    {
      if mfaEnabled || !recent {
        return Refused;
      }
      mfaSetup := Some(Pending(secret, expires));
      return Done;
    }

    method ConfirmSetup(crypto: Crypto, code: string, now: nat, hashes: seq<string>) returns (outcome: Outcome)
      modifies this
      ensures Answer(Row(), outcome) == Confirmed(crypto, old(Row()), code, now, hashes)
    {
      if mfaSetup.None? {
        return Refused;
      }
      if mfaSetup.value.expires < now {
        mfaSetup := None;
        return Refused;
      }
      var secret := mfaSetup.value.secret;
      var counter := VerifyTotpCode(crypto, secret, code, now, VALID_WINDOW);
      if counter.None? {
        return Refused;
      }
      mfaEnabled := true;
      mfaSecret := Some(secret);
      mfaSetup := None;
      mfaRecoveryCodeHashes := hashes;
      mfaLastUsedCounter := counter;
      return ByStep(secret, counter.value);
    }

    method UpdateMethod(way: Method) returns (outcome: Outcome)
      modifies this
      ensures Answer(Row(), outcome) == Switched(old(Row()), way)
    {
      if way == AuthenticatorApp && mfaSecret.None? {
        return Refused;
      }
      mfaMethod := way;
      return Done;
    }

    method SetupEmail(recent: bool, hashes: seq<string>) returns (outcome: Outcome)
      modifies this
      ensures Answer(Row(), outcome) == EmailEnrolled(old(Row()), recent, hashes)
    {
      if (mfaEnabled && mfaMethod == Email) || !recent {
        return Refused;
      }
      mfaEnabled := true;
      mfaMethod := Email;
      mfaRecoveryCodeHashes := hashes;
      mfaSecret := None;
      mfaSetup := None;
      mfaLastUsedCounter := None;
      return Done;
    }
  }
}
