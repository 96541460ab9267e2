/** backend/main.py: the in-process sliding-window rate limiter, with pruning and eviction. */
module RateLimiter {
  import opened Wrappers
  import opened Text

  const WINDOW := 60.0

  datatype Category =
    | Login | Signup | MfaVerify | MfaSetup | OAuth | VerifyEmail | ResendVerification
    | VerifyPhone | ResendPhone | Default

  datatype Rule = Rule(category: Category, limit: nat)
  datatype Key = Key(client: string, category: Category)
  datatype Request = Request(client: Option<string>, path: string, now: real)

  /** Timestamps of the admitted requests still tracked, oldest first. */
  type Table = map<Key, seq<real>>

  datatype Verdict = Exempt | Admitted | OverLimit | AtCapacity
  datatype Served = Served(table: Table, verdict: Verdict)

  predicate IsExempt(path: string) {
    StartsWith(path, "/health") || StartsWith(path, "/api/health")
    || path == "/docs" || path == "/openapi.json" || path == "/favicon.ico"
  }

  /** The first matching branch decides: two exact paths, then prefixes. */
  function Resolve(path: string): Rule {
    if path == "/api/auth/login" then Rule(Login, 10)
    else if path == "/api/auth/signup" then Rule(Signup, 5)
    else if StartsWith(path, "/api/auth/mfa/verify") then Rule(MfaVerify, 10)
    else if StartsWith(path, "/api/auth/mfa/setup/confirm") then Rule(MfaSetup, 5)
    else if StartsWith(path, "/api/auth/github") || StartsWith(path, "/api/auth/google") then Rule(OAuth, 20)
    else if StartsWith(path, "/api/auth/verify-email") then Rule(VerifyEmail, 10)
    else if StartsWith(path, "/api/auth/resend-verification") then Rule(ResendVerification, 5)
    else if StartsWith(path, "/api/auth/verify-phone") then Rule(VerifyPhone, 10)
    else if StartsWith(path, "/api/auth/resend-phone-verification") then Rule(ResendPhone, 5)
    else Rule(Default, 100)
  }

  function KeyOf(r: Request): Key {
    Key(r.client.GetOr("unknown"), Resolve(r.path).category)
  }

  /** A missing key reads as the empty list, as in a `defaultdict(list)`. */
  function Lookup(table: Table, k: Key): seq<real> {
    if k in table then table[k] else []
  }

  /** The timestamps of `ts` that are less than one window old. */
  function Recent(ts: seq<real>, now: real): seq<real> {
    if ts == [] then [] else
    (if now - ts[0] < WINDOW then [ts[0]] else []) + Recent(ts[1..], now)
  }

  predicate Expired(ts: seq<real>, now: real) {
    ts == [] || now - ts[|ts| - 1] >= WINDOW
  }

  function Evicted(table: Table, now: real): Table {
    map k | k in table && !Expired(table[k], now) :: table[k]
  }

  /** What one request does to the table, and the answer it gets. */
  function Serve(table: Table, r: Request, maxKeys: int): Served {
    if IsExempt(r.path) then Served(table, Exempt) else
    var k := KeyOf(r);
    var swept := if |table| >= maxKeys && k !in table then Evicted(table, r.now) else table;
    if |swept| >= maxKeys && k !in swept then Served(swept, AtCapacity) else
    var live := Recent(Lookup(swept, k), r.now);
    if |live| >= Resolve(r.path).limit then Served(swept[k := live], OverLimit)
    else Served(swept[k := live + [r.now]], Admitted)
  }

  lemma {:induction false} RecentAppend(a: seq<real>, b: seq<real>, now: real)
    ensures Recent(a + b, now) == Recent(a, now) + Recent(b, now)
  {
    if a == [] {
      assert a + b == b;
    } else {
      assert (a + b)[1..] == a[1..] + b;
      RecentAppend(a[1..], b, now);
    }
  }

  class Middleware {
    var requestCounts: Table
    const maxKeys: int

    constructor (maxKeys: int)
      ensures requestCounts == map[] && this.maxKeys == maxKeys
    {
      requestCounts := map[];
      this.maxKeys := maxKeys;
    }

    /** First collects the keys to drop, then drops them one by one. */
    method Evict(now: real)
      modifies this
      ensures requestCounts == Evicted(old(requestCounts), now)
    {
      var pending := requestCounts.Keys;
      var expired: set<Key> := {};
      while pending != {}
        invariant pending <= requestCounts.Keys
        invariant requestCounts == old(requestCounts)
        invariant forall k <- requestCounts.Keys - pending :: k in expired <==> Expired(requestCounts[k], now)
        invariant expired <= requestCounts.Keys - pending
      {
        var k :| k in pending;
        if Expired(requestCounts[k], now) {
          expired := expired + {k};
        }
        pending := pending - {k};
      }
      ghost var doomed := expired;
      while expired != {}
        invariant expired <= doomed
        invariant requestCounts == old(requestCounts) - (doomed - expired)
      {
        var k :| k in expired;
        requestCounts := requestCounts - {k};
        expired := expired - {k};
      }
    }

    method Handle(r: Request) returns (verdict: Verdict)
      modifies this
      ensures Served(requestCounts, verdict) == Serve(old(requestCounts), r, maxKeys)
    {
      if IsExempt(r.path) {
        return Exempt;
      }
      var rule := Resolve(r.path);
      var k := KeyOf(r);
      if |requestCounts| >= maxKeys && k !in requestCounts {
        Evict(r.now);
        if |requestCounts| >= maxKeys {
          return AtCapacity;
        }
      }
      var stamps := Lookup(requestCounts, k);
      var live: seq<real> := [];
      var i := 0;
      while i < |stamps|
        invariant 0 <= i <= |stamps|
        invariant live == Recent(stamps[..i], r.now)
        invariant requestCounts == (if |old(requestCounts)| >= maxKeys && k !in old(requestCounts)
                                    then Evicted(old(requestCounts), r.now) else old(requestCounts))
      {
        RecentAppend(stamps[..i], [stamps[i]], r.now);
        assert stamps[..i + 1] == stamps[..i] + [stamps[i]];
        if r.now - stamps[i] < WINDOW {
          live := live + [stamps[i]];
        }
        i := i + 1;
      }
      assert stamps[..i] == stamps;
      requestCounts := requestCounts[k := live];
      if |live| >= rule.limit {
        return OverLimit;
      }
      requestCounts := requestCounts[k := requestCounts[k] + [r.now]];
      return Admitted;
    }
  }
}
