/** backend/auth.py: one-time codes and recovery codes. HMAC and bcrypt are parameters. */
module Totp {
  import opened Wrappers
  import opened Text

  newtype Byte = x: int | 0 <= x < 256

  type Digest = d: seq<Byte> | |d| == 20 witness seq(20, i => 0 as Byte)

  /** `hmac` is HMAC-SHA-1 of a counter under a secret; `matches` is bcrypt's comparison of a code with a stored hash. */
  datatype Crypto = Crypto(hmac: (string, nat) -> Digest, matches: (string, string) -> bool)

  const MODULUS := 1_000_000
  const STEP_SECONDS := 30

  // ---- HOTP -----------------------------------------------------------------------------

  /** Four bytes read as a big-endian unsigned integer. */
  function BigEndian(b: seq<Byte>): int
    requires |b| == 4
  {
    b[0] as int * 0x100_0000 + b[1] as int * 0x1_0000 + b[2] as int * 0x100 + b[3] as int
  }

  /** The low nibble of the last byte chooses four bytes, whose top bit is masked away. */
  function Truncate(digest: Digest): (r: int)
    ensures 0 <= r < 0x8000_0000
  {
    var offset := digest[19] as int % 16;
    BigEndian(digest[offset..offset + 4]) % 0x8000_0000
  }

  function Pow10(k: nat): int {
    if k == 0 then 1 else 10 * Pow10(k - 1)
  }

  /** `n` in decimal, zero-padded to `width`. */
  function Decimal(n: nat, width: nat): (r: string)
    ensures |r| == width && forall c <- r :: Digit(c)
  {
    if width == 0 then "" else Decimal(n / 10, width - 1) + [('0' as int + n % 10) as char]
  }

  /** The number a string of digits stands for. */
  function Value(s: string): int {
    if s == "" then 0 else 10 * Value(s[..|s| - 1]) + (s[|s| - 1] as int - '0' as int)
  }

  function Hotp(crypto: Crypto, secret: string, counter: nat): string
  {
    Decimal(Truncate(crypto.hmac(secret, counter)) % MODULUS, 6)
  }

  /** Section 5.3 of RFC 4226 masks the first byte; the program masks the whole word. */
  lemma TruncateIsDynamicTruncation(digest: Digest)
    ensures var o := digest[19] as int % 16;
            && o + 3 < |digest|
            && Truncate(digest) == (digest[o] as int % 128) * 0x100_0000 + digest[o + 1] as int * 0x1_0000
                                   + digest[o + 2] as int * 0x100 + digest[o + 3] as int
  {
    var o := digest[19] as int % 16;
    var b := digest[o..o + 4];
    assert b[0] == digest[o] && b[1] == digest[o + 1] && b[2] == digest[o + 2] && b[3] == digest[o + 3];
    MaskWord(b[0] as int, b[1] as int * 0x1_0000 + b[2] as int * 0x100 + b[3] as int);
  }

  lemma MaskWord(top: int, rest: int)
    requires 0 <= top < 256 && 0 <= rest < 0x100_0000
    ensures (top * 0x100_0000 + rest) % 0x8000_0000 == (top % 128) * 0x100_0000 + rest
  {
    var kept := (top % 128) * 0x100_0000 + rest;
    if top < 128 {
      assert top * 0x100_0000 + rest == kept;
    } else {
      assert top % 128 == top - 128;
      assert top * 0x100_0000 + rest == kept + 0x8000_0000;
    }
  }

  lemma {:induction false} DecimalValue(n: nat, width: nat)
    requires n < Pow10(width)
    ensures Value(Decimal(n, width)) == n
  {
    if width > 0 {
      DecimalValue(n / 10, width - 1);
      var s := Decimal(n, width);
      assert s[..|s| - 1] == Decimal(n / 10, width - 1);
    }
  }

  /** Six digits that stand for the truncated digest modulo a million. */
  lemma HotpIsSixDigits(crypto: Crypto, secret: string, counter: nat)
    ensures var code := Hotp(crypto, secret, counter);
            && |code| == 6 && (forall c <- code :: Digit(c))
            && Value(code) == Truncate(crypto.hmac(secret, counter)) % MODULUS
  {
    assert Pow10(6) == MODULUS by {
      assert Pow10(3) == 1000;
      assert Pow10(6) == 1000 * Pow10(3);
    }
    DecimalValue(Truncate(crypto.hmac(secret, counter)) % MODULUS, 6);
  }

  // ---- verify_totp_code -----------------------------------------------------------------

  predicate Space(c: char) {
    c == ' ' || '\t' <= c <= '\r' || '\U{1c}' <= c <= '\U{1f}'
  }

  function Kept(s: string, keep: char -> bool): string {
    if s == "" then "" else (if keep(s[0]) then [s[0]] else "") + Kept(s[1..], keep)
  }

  /** `"".join(code.split())`. */
  function Squeezed(code: string): string {
    Kept(code, (c: char) => !Space(c))
  }

  predicate SixDigits(s: string) {
    |s| == 6 && forall c <- s :: Digit(c)
  }

  /** The first time step in `lo..hi` whose code is the one given; negative steps are skipped. */
  function FirstStep(crypto: Crypto, secret: string, normalized: string, lo: int, hi: int): Option<nat>
    decreases hi - lo
  {
    if lo >= hi then None
    else if lo >= 0 && Hotp(crypto, secret, lo) == normalized then Some(lo)
    else FirstStep(crypto, secret, normalized, lo + 1, hi)
  }

  function TotpStep(crypto: Crypto, secret: string, code: string, seconds: nat, window: nat): Option<nat> {
    if !SixDigits(Squeezed(code)) then None else
    var current := seconds / STEP_SECONDS;
    FirstStep(crypto, secret, Squeezed(code), current - window, current + window + 1)
  }

  /** Time step `c` is one of those the window allows and its code is the one given. */
  ghost predicate Hit(crypto: Crypto, secret: string, code: string, seconds: nat, window: nat, c: int) {
    var current := seconds / STEP_SECONDS;
    SixDigits(Squeezed(code)) && 0 <= c && current - window <= c <= current + window
    && Hotp(crypto, secret, c) == Squeezed(code)
  }

  lemma {:induction false} FirstStepIsLeast(crypto: Crypto, secret: string, normalized: string, lo: int, hi: int, c: int)
    requires lo <= c < hi && 0 <= c && Hotp(crypto, secret, c) == normalized
    ensures var r := FirstStep(crypto, secret, normalized, lo, hi);
            r.Some? && lo <= r.value <= c && Hotp(crypto, secret, r.value) == normalized
    decreases hi - lo
  {
    if !(lo >= 0 && Hotp(crypto, secret, lo) == normalized) {
      FirstStepIsLeast(crypto, secret, normalized, lo + 1, hi, c);
    }
  }

  lemma {:induction false} FirstStepHits(crypto: Crypto, secret: string, normalized: string, lo: int, hi: int)
    ensures var r := FirstStep(crypto, secret, normalized, lo, hi);
            r.Some? ==> lo <= r.value < hi && Hotp(crypto, secret, r.value) == normalized
    decreases hi - lo
  {
    if lo < hi && !(lo >= 0 && Hotp(crypto, secret, lo) == normalized) {
      FirstStepHits(crypto, secret, normalized, lo + 1, hi);
    }
  }

  /** A code is accepted exactly when some step of the window produces it, and then for the least such step. */
  lemma StepIsLeastHit(crypto: Crypto, secret: string, code: string, seconds: nat, window: nat)
    ensures match TotpStep(crypto, secret, code, seconds, window)
            case Some(c) => Hit(crypto, secret, code, seconds, window, c)
                            && forall d :: Hit(crypto, secret, code, seconds, window, d) ==> c <= d
            case None => forall d :: !Hit(crypto, secret, code, seconds, window, d)
  {
    hide Hotp, Squeezed;
    var current := seconds / STEP_SECONDS;
    FirstStepHits(crypto, secret, Squeezed(code), current - window, current + window + 1);
    forall d | Hit(crypto, secret, code, seconds, window, d)
      ensures TotpStep(crypto, secret, code, seconds, window).Some? && TotpStep(crypto, secret, code, seconds, window).value <= d
    {
      FirstStepIsLeast(crypto, secret, Squeezed(code), current - window, current + window + 1, d);
    }
  }

  method VerifyTotpCode(crypto: Crypto, secret: string, code: string, seconds: nat, window: nat) returns (r: Option<nat>)
    ensures r == TotpStep(crypto, secret, code, seconds, window)
  {
    hide Hotp, Squeezed;
    var normalized := Squeezed(code);
    if !SixDigits(normalized) {
      return None;
    }
    var current := seconds / STEP_SECONDS;
    var counter: int := current - window;
    while counter < current + window + 1
      invariant current - window <= counter <= current + window + 1
      invariant TotpStep(crypto, secret, code, seconds, window)
             == FirstStep(crypto, secret, normalized, counter, current + window + 1)
    {
      if counter >= 0 && Hotp(crypto, secret, counter) == normalized {
        return Some(counter);
      }
      counter := counter + 1;
    }
    return None;
  }

  // ---- Recovery codes -------------------------------------------------------------------

  function UpperChar(c: char): char {
    if LowerLetter(c) then ((c as int) - 32) as char else c
  }

  /** Upper case, letters and digits only. */
  function Normalized(code: string): string {
    Kept(seq(|code|, i requires 0 <= i < |code| => UpperChar(code[i])), (c: char) => Alnum(c))
  }

  /** The position of the first stored hash that the code matches. */
  function FirstMatch(crypto: Crypto, hashes: seq<string>, normalized: string): (r: Option<nat>)
    ensures r.Some? ==> r.value < |hashes| && crypto.matches(normalized, hashes[r.value])
                        && forall j :: 0 <= j < r.value ==> !crypto.matches(normalized, hashes[j])
    ensures r.None? ==> forall j :: 0 <= j < |hashes| ==> !crypto.matches(normalized, hashes[j])
  {
    if hashes == [] then None
    else if crypto.matches(normalized, hashes[0]) then Some(0)
    else match FirstMatch(crypto, hashes[1..], normalized)
         case None => None
         case Some(i) => Some(i + 1)
  }

  function RecoveryMatch(crypto: Crypto, hashes: seq<string>, code: string): (r: Option<nat>)
    ensures r.Some? ==> r.value < |hashes|
  {
    if |Normalized(code)| != 8 then None else FirstMatch(crypto, hashes, Normalized(code))
  }
}
