/** The evicting, pruning limiter against the ideal one that remembers every admission. */
module RateLimiterLaws {
  import opened RateLimiter

  datatype Admission = Admission(key: Key, at: real)

  /** The real table beside the full history of what it admitted. */
  datatype State = State(table: Table, history: seq<Admission>)

  /** The limit belonging to a category, whichever path led to it. */
  function LimitOf(c: Category): nat {
    match c
    case Login => 10 case Signup => 5 case MfaVerify => 10 case MfaSetup => 5 case OAuth => 20
    case VerifyEmail => 10 case ResendVerification => 5 case VerifyPhone => 10 case ResendPhone => 5
    case Default => 100
  }

  function Times(history: seq<Admission>, k: Key): seq<real> {
    if history == [] then [] else
    var last := history[|history| - 1];
    Times(history[..|history| - 1], k) + if last.key == k then [last.at] else []
  }

  /** The limiter with no table bound, no pruning and no eviction. */
  function IdealVerdict(history: seq<Admission>, r: Request): Verdict {
    if IsExempt(r.path) then Exempt
    else if |Recent(Times(history, KeyOf(r)), r.now)| >= Resolve(r.path).limit then OverLimit
    else Admitted
  }

  function Recorded(history: seq<Admission>, r: Request, v: Verdict): seq<Admission> {
    if v == Admitted then history + [Admission(KeyOf(r), r.now)] else history
  }

  function Next(s: State, r: Request, maxKeys: int): State {
    var served := Serve(s.table, r, maxKeys);
    State(served.table, Recorded(s.history, r, served.verdict))
  }

  function After(rs: seq<Request>, maxKeys: int): State {
    if rs == [] then State(map[], [])
    else Next(After(rs[..|rs| - 1], maxKeys), rs[|rs| - 1], maxKeys)
  }

  function IdealHistory(rs: seq<Request>): seq<Admission> {
    if rs == [] then [] else
    var before := IdealHistory(rs[..|rs| - 1]);
    Recorded(before, rs[|rs| - 1], IdealVerdict(before, rs[|rs| - 1]))
  }

  /** The clock never goes backwards. */
  ghost predicate Ordered(rs: seq<Request>) {
    forall i, j :: 0 <= i < j < |rs| ==> rs[i].now <= rs[j].now
  }

  /** The clients and categories admitted within the last window. */
  ghost function ActiveKeys(history: seq<Admission>, now: real): set<Key> {
    set a <- history | Recent(Times(history, a.key), now) != [] :: a.key
  }

  // ---- Per-key invariant ----------------------------------------------------------------

  ghost predicate Sorted(ts: seq<real>, clock: real) {
    (forall i, j :: 0 <= i < j < |ts| ==> ts[i] <= ts[j]) && forall i :: 0 <= i < |ts| ==> ts[i] <= clock
  }

  /** The two lists can no longer be told apart by a request at `clock` or later. */
  ghost predicate Alike(a: seq<real>, b: seq<real>, clock: real) {
    forall t :: clock <= t ==> Recent(a, t) == Recent(b, t)
  }

  /** Any `limit + 1` consecutive entries span at least one window. */
  ghost predicate Spaced(ts: seq<real>, limit: nat) {
    forall i :: 0 <= i && i + limit < |ts| ==> ts[i + limit] - ts[i] >= WINDOW
  }

  ghost predicate KeyOk(s: State, k: Key, clock: real) {
    var tracked := Lookup(s.table, k);
    var all := Times(s.history, k);
    && Sorted(tracked, clock) && |tracked| <= LimitOf(k.category) && (k in s.table ==> tracked != [])
    && Sorted(all, clock) && Spaced(all, LimitOf(k.category))
    && Alike(tracked, all, clock)
  }

  ghost predicate Good(s: State, maxKeys: int, clock: real) {
    && (forall k :: KeyOk(s, k, clock))
    && |s.table| <= if maxKeys < 0 then 0 else maxKeys
  }

  // ---- Facts about Recent ---------------------------------------------------------------

  lemma {:induction false} RecentIn(ts: seq<real>, now: real)
    ensures |Recent(ts, now)| <= |ts|
    ensures forall x :: x in Recent(ts, now) <==> x in ts && now - x < WINDOW
  {
    if ts != [] {
      RecentIn(ts[1..], now);
    }
  }

  lemma {:induction false} RecentSorted(ts: seq<real>, now: real, clock: real)
    requires Sorted(ts, clock)
    ensures Sorted(Recent(ts, now), clock)
  {
    if ts != [] {
      RecentSorted(ts[1..], now, clock);
      RecentIn(ts[1..], now);
      var rest := Recent(ts[1..], now);
      assert forall i :: 0 <= i < |rest| ==> rest[i] in ts[1..];
    }
  }

  lemma {:induction false} RecentTwice(ts: seq<real>, now: real, later: real)
    requires now <= later
    ensures Recent(Recent(ts, now), later) == Recent(ts, later)
  {
    if ts != [] {
      RecentTwice(ts[1..], now, later);
      if now - ts[0] < WINDOW {
        var live := [ts[0]] + Recent(ts[1..], now);
        assert live == Recent(ts, now) && live[1..] == Recent(ts[1..], now);
      } else {
        assert Recent(ts, now) == Recent(ts[1..], now);
        assert Recent(ts, later) == Recent(ts[1..], later);
      }
    }
  }

  /** On a sorted list the entries from a recent one onwards are all recent. */
  lemma {:induction false} RecentTail(ts: seq<real>, now: real, j: nat)
    requires Sorted(ts, now) && j < |ts| && now - ts[j] < WINDOW
    ensures |Recent(ts, now)| >= |ts| - j
  {
    if j > 0 {
      RecentTail(ts[1..], now, j - 1);
    } else if |ts| > 1 {
      RecentTail(ts[1..], now, 0);
    }
  }

  /** A sorted list has expired exactly when nothing in it is recent. */
  lemma ExpiredMeans(ts: seq<real>, now: real, clock: real)
    requires Sorted(ts, clock)
    ensures Expired(ts, now) <==> Recent(ts, now) == []
  {
    RecentIn(ts, now);
    var live := Recent(ts, now);
    assert live != [] ==> live[0] in live;
    assert !Expired(ts, now) ==> ts[|ts| - 1] in live;
  }

  // ---- What each way of touching a list keeps -------------------------------------------

  lemma ExpiredAlikeEmpty(a: seq<real>, b: seq<real>, clock: real, now: real)
    requires clock <= now && Sorted(a, clock) && Alike(a, b, clock) && Expired(a, now)
    ensures Alike([], b, now)
  {
    forall t | now <= t ensures Recent([], t) == Recent(b, t) {
      ExpiredMeans(a, t, clock);
    }
  }

  lemma PrunedAlike(a: seq<real>, b: seq<real>, clock: real, now: real)
    requires clock <= now && Alike(a, b, clock)
    ensures Alike(Recent(a, now), b, now)
  {
    forall t | now <= t ensures Recent(Recent(a, now), t) == Recent(b, t) {
      RecentTwice(a, now, t);
    }
  }

  lemma AppendedAlike(a: seq<real>, b: seq<real>, now: real)
    requires Alike(a, b, now)
    ensures Alike(a + [now], b + [now], now)
  {
    forall t | now <= t ensures Recent(a + [now], t) == Recent(b + [now], t) {
      RecentAppend(a, [now], t);
      RecentAppend(b, [now], t);
    }
  }

  lemma AppendedSpaced(ts: seq<real>, limit: nat, now: real)
    requires Sorted(ts, now) && Spaced(ts, limit) && |Recent(ts, now)| < limit
    ensures Spaced(ts + [now], limit)
  {
    var more := ts + [now];
    forall i | 0 <= i && i + limit < |more| ensures more[i + limit] - more[i] >= WINDOW {
      if i + limit == |ts| && now - ts[i] < WINDOW {
        RecentTail(ts, now, i);
        assert false;
      }
    }
  }

  lemma RuleOfCategory(path: string)
    ensures Resolve(path).limit == LimitOf(Resolve(path).category)
  {
  }

  lemma TimesRecorded(history: seq<Admission>, r: Request, k: Key)
    ensures Times(history + [Admission(KeyOf(r), r.now)], k)
         == Times(history, k) + if k == KeyOf(r) then [r.now] else []
  {
    var more := history + [Admission(KeyOf(r), r.now)];
    assert more[..|more| - 1] == history;
  }

  // ---- One request keeps the invariant --------------------------------------------------

  function Swept(table: Table, r: Request, maxKeys: int): Table {
    if |table| >= maxKeys && KeyOf(r) !in table then Evicted(table, r.now) else table
  }

  lemma LaterOk(s: State, k: Key, clock: real, now: real)
    requires KeyOk(s, k, clock) && clock <= now
    ensures KeyOk(s, k, now)
  {
    hide Recent, Times;
  }

  lemma SweptOk(s: State, r: Request, maxKeys: int, k: Key, clock: real)
    requires KeyOk(s, k, clock) && clock <= r.now
    ensures KeyOk(State(Swept(s.table, r, maxKeys), s.history), k, r.now)
  {
    hide Recent, Times, KeyOf;
    LaterOk(s, k, clock, r.now);
    if k in s.table && k !in Swept(s.table, r, maxKeys) {
      ExpiredAlikeEmpty(s.table[k], Times(s.history, k), clock, r.now);
    }
  }

  lemma TouchedOk(s: State, r: Request, limit: nat)
    requires KeyOk(s, KeyOf(r), r.now) && limit == LimitOf(KeyOf(r).category)
    ensures var k := KeyOf(r); var live := Recent(Lookup(s.table, k), r.now);
            if |live| >= limit then KeyOk(State(s.table[k := live], s.history), k, r.now)
            else KeyOk(State(s.table[k := live + [r.now]], s.history + [Admission(k, r.now)]), k, r.now)
  {
    hide Recent, Times, KeyOf;
    var k := KeyOf(r);
    var tracked := Lookup(s.table, k);
    var all := Times(s.history, k);
    var live := Recent(tracked, r.now);
    RecentIn(tracked, r.now);
    RecentSorted(tracked, r.now, r.now);
    PrunedAlike(tracked, all, r.now, r.now);
    assert limit > 0;
    if |live| < limit {
      TimesRecorded(s.history, r, k);
      assert live == Recent(all, r.now);
      AppendedAlike(live, all, r.now);
      AppendedSpaced(all, limit, r.now);
    }
  }

  lemma StepKeepsKey(s: State, r: Request, maxKeys: int, k: Key, clock: real)
    requires KeyOk(s, k, clock) && clock <= r.now
    ensures KeyOk(Next(s, r, maxKeys), k, r.now)
  {
    hide Recent, Times, IsExempt, Evicted, KeyOk, LimitOf, Resolve;
    var swept := State(Swept(s.table, r, maxKeys), s.history);
    LaterOk(s, k, clock, r.now);
    SweptOk(s, r, maxKeys, k, clock);
    RuleOfCategory(r.path);
    if IsExempt(r.path) {
      assert Next(s, r, maxKeys) == s;
    } else if k == KeyOf(r) {
      TouchedOk(swept, r, Resolve(r.path).limit);
    } else {
      TimesRecorded(s.history, r, k);
      OtherKeyOk(swept, Next(s, r, maxKeys), k, r.now);
    }
  }

  lemma OtherKeyOk(s: State, t: State, k: Key, clock: real)
    requires KeyOk(s, k, clock)
    requires (k in s.table <==> k in t.table) && Lookup(s.table, k) == Lookup(t.table, k)
    requires Times(s.history, k) == Times(t.history, k)
    ensures KeyOk(t, k, clock)
  {
    hide Recent, Times;
  }

  // ---- The size of the table ------------------------------------------------------------

  lemma StepKeepsSize(s: State, r: Request, maxKeys: int, bound: nat)
    requires bound == (if maxKeys < 0 then 0 else maxKeys) && |s.table| <= bound
    ensures |Next(s, r, maxKeys).table| <= bound
  {
    hide Recent, Times, IsExempt, Expired, Resolve;
    var swept := Swept(s.table, r, maxKeys);
    assert swept.Keys <= s.table.Keys;
    FewerKeys(swept, s.table);
    var table := Next(s, r, maxKeys).table;
    assert table == s.table || table == swept || table.Keys == swept.Keys + {KeyOf(r)};
  }

  lemma FewerKeys(a: Table, b: Table)
    requires a.Keys <= b.Keys
    ensures |a| <= |b|
  {
    var extra := b.Keys - a.Keys;
    assert b.Keys == a.Keys + extra;
    assert |a.Keys| == |a| && |b.Keys| == |b|;
  }

  // ---- Every run ------------------------------------------------------------------------

  lemma {:induction false} RunKeeps(rs: seq<Request>, maxKeys: int, clock: real)
    requires Ordered(rs) && forall i :: 0 <= i < |rs| ==> rs[i].now <= clock
    ensures Good(After(rs, maxKeys), maxKeys, clock)
  {
    hide KeyOk, Next;
    if rs == [] {
      forall k ensures KeyOk(State(map[], []), k, clock) {
        EmptyOk(k, clock);
      }
    } else {
      var r := rs[|rs| - 1];
      var before := After(rs[..|rs| - 1], maxKeys);
      RunKeeps(rs[..|rs| - 1], maxKeys, r.now);
      StepKeepsSize(before, r, maxKeys, if maxKeys < 0 then 0 else maxKeys);
      forall k ensures KeyOk(After(rs, maxKeys), k, clock) {
        StepKeepsKey(before, r, maxKeys, k, r.now);
        LaterOk(Next(before, r, maxKeys), k, r.now, clock);
      }
    }
  }

  lemma EmptyOk(k: Key, clock: real)
    ensures KeyOk(State(map[], []), k, clock)
  {
  }

  // ---- Main results ---------------------------------------------------------------------

  /** However often the table was pruned and swept, a request not refused for capacity gets the
      answer the limiter with unbounded memory gives. */
  lemma AgreesWithIdeal(rs: seq<Request>, r: Request, maxKeys: int)
    requires Ordered(rs + [r])
    ensures var s := After(rs, maxKeys); var v := Serve(s.table, r, maxKeys).verdict;
            v == AtCapacity || v == IdealVerdict(s.history, r)
  {
    hide Recent, Times, IsExempt, Resolve, After;
    LastIsLatest(rs, r);
    RunKeeps(rs, maxKeys, r.now);
    var s := After(rs, maxKeys);
    var k := KeyOf(r);
    assert KeyOk(s, k, r.now);
    SweptOk(s, r, maxKeys, k, r.now);
    assert Alike(Lookup(Swept(s.table, r, maxKeys), k), Times(s.history, k), r.now);
  }

  lemma LastIsLatest(rs: seq<Request>, r: Request)
    requires Ordered(rs + [r])
    ensures Ordered(rs) && forall i :: 0 <= i < |rs| ==> rs[i].now <= r.now
  {
    var all := rs + [r];
    assert forall i :: 0 <= i < |rs| ==> all[i] == rs[i];
    assert all[|rs|] == r;
  }

  /** Sweeping leaves exactly the keys admitted within the last window. */
  lemma SweepKeepsActive(rs: seq<Request>, now: real, maxKeys: int)
    requires Ordered(rs) && forall i :: 0 <= i < |rs| ==> rs[i].now <= now
    ensures var s := After(rs, maxKeys); Evicted(s.table, now).Keys == ActiveKeys(s.history, now)
  {
    hide Recent, Times, After, Expired, KeyOk;
    RunKeeps(rs, maxKeys, now);
    var s := After(rs, maxKeys);
    forall k ensures k in Evicted(s.table, now) <==> k in ActiveKeys(s.history, now) {
      ActiveMeans(s, k, now);
    }
  }

  lemma ActiveMeans(s: State, k: Key, now: real)
    requires KeyOk(s, k, now)
    ensures k in Evicted(s.table, now) <==> k in ActiveKeys(s.history, now)
  {
    hide Recent, Times, Expired;
    ExpiredMeans(Lookup(s.table, k), now, now);
    assert Expired([], now) by { ExpiredMeans([], now, now); RecentIn([], now); }
    assert Recent(Lookup(s.table, k), now) == Recent(Times(s.history, k), now);
    RecentIn(Times(s.history, k), now);
    if Times(s.history, k) != [] {
      TimesComeFrom(s.history, k);
    }
  }

  lemma {:induction false} TimesComeFrom(history: seq<Admission>, k: Key)
    requires Times(history, k) != []
    ensures exists a <- history :: a.key == k
  {
    var last := history[|history| - 1];
    if last.key != k {
      TimesComeFrom(history[..|history| - 1], k);
      var a :| a in history[..|history| - 1] && a.key == k;
      assert a in history;
    } else {
      assert last in history;
    }
  }

  /** A request is refused for capacity exactly when its key is not tracked and at least
      `maxKeys` keys were admitted within the last window. */
  lemma CapacityExactly(rs: seq<Request>, r: Request, maxKeys: int)
    requires Ordered(rs + [r])
    ensures var s := After(rs, maxKeys);
            (Serve(s.table, r, maxKeys).verdict == AtCapacity) <==>
            (!IsExempt(r.path) && KeyOf(r) !in s.table && |ActiveKeys(s.history, r.now)| >= maxKeys)
  {
    hide Recent, Times, IsExempt, Resolve, After, Expired, ActiveKeys;
    LastIsLatest(rs, r);
    SweepKeepsActive(rs, r.now, maxKeys);
    var s := After(rs, maxKeys);
    var swept := Evicted(s.table, r.now);
    assert |swept.Keys| == |swept|;
    FewerKeys(swept, s.table);
  }

  /** Any `limit + 1` admissions of one key span at least one window. */
  lemma AdmissionsSpread(rs: seq<Request>, maxKeys: int, k: Key, i: nat)
    requires Ordered(rs)
    requires i + LimitOf(k.category) < |Times(After(rs, maxKeys).history, k)|
    ensures var ts := Times(After(rs, maxKeys).history, k); ts[i + LimitOf(k.category)] - ts[i] >= WINDOW
  {
    hide Recent, Times, After, LimitOf, Alike, Sorted;
    RunKeeps(rs, maxKeys, if rs == [] then 0.0 else rs[|rs| - 1].now);
    assert KeyOk(After(rs, maxKeys), k, if rs == [] then 0.0 else rs[|rs| - 1].now);
  }

  /** The table holds at most `maxKeys` keys, none of them without a timestamp or with more than its limit. */
  lemma TableBounded(rs: seq<Request>, maxKeys: int)
    requires Ordered(rs)
    ensures var table := After(rs, maxKeys).table;
            && |table| <= (if maxKeys < 0 then 0 else maxKeys)
            && forall k <- table :: 1 <= |table[k]| <= LimitOf(k.category)
  {
    hide Recent, Times, After, LimitOf, Alike, Sorted, Spaced;
    var clock := if rs == [] then 0.0 else rs[|rs| - 1].now;
    RunKeeps(rs, maxKeys, clock);
    var table := After(rs, maxKeys).table;
    forall k | k in table ensures 1 <= |table[k]| <= LimitOf(k.category) {
      assert KeyOk(After(rs, maxKeys), k, clock);
    }
  }

  ghost function KeysOf(rs: seq<Request>): set<Key> {
    set r <- rs :: KeyOf(r)
  }

  lemma {:induction false} HistoryKeys(rs: seq<Request>, maxKeys: int)
    ensures forall a <- After(rs, maxKeys).history :: a.key in KeysOf(rs)
  {
    hide KeyOf, Serve;
    if rs != [] {
      HistoryKeys(rs[..|rs| - 1], maxKeys);
      assert rs[|rs| - 1] in rs;
    }
  }

  /** With at most `maxKeys` clients and categories, nothing is ever refused for capacity and the
      whole run is the ideal one. */
  lemma {:induction false} FewKeysRunIdeal(rs: seq<Request>, maxKeys: int)
    requires Ordered(rs) && |KeysOf(rs)| <= maxKeys
    ensures After(rs, maxKeys).history == IdealHistory(rs)
  {
    hide KeyOf, Serve, IdealVerdict;
    if rs != [] {
      var front, r := rs[..|rs| - 1], rs[|rs| - 1];
      assert front + [r] == rs;
      assert KeysOf(front) <= KeysOf(rs);
      SubsetSize(KeysOf(front), KeysOf(rs));
      FewKeysRunIdeal(front, maxKeys);
      AgreesWithIdeal(front, r, maxKeys);
      NotRefused(front, r, maxKeys);
    }
  }

  lemma SubsetSize<T>(a: set<T>, b: set<T>)
    requires a <= b
    ensures |a| <= |b|
    ensures |a| == |b| ==> a == b
  {
    assert b == a + (b - a);
    if |a| == |b| {
      assert |b - a| == 0;
    }
  }

  lemma NotRefused(rs: seq<Request>, r: Request, maxKeys: int)
    requires Ordered(rs + [r]) && |KeysOf(rs + [r])| <= maxKeys
    ensures Serve(After(rs, maxKeys).table, r, maxKeys).verdict != AtCapacity
  {
    hide KeyOf, Serve, After, Times, Recent;
    CapacityExactly(rs, r, maxKeys);
    HistoryKeys(rs, maxKeys);
    var s := After(rs, maxKeys);
    var all := rs + [r];
    assert r in all && forall x <- rs :: x in all;
    assert ActiveKeys(s.history, r.now) <= KeysOf(rs) <= KeysOf(all) && KeyOf(r) in KeysOf(all);
    SubsetSize(ActiveKeys(s.history, r.now), KeysOf(all));
    if |ActiveKeys(s.history, r.now)| >= maxKeys {
      LastIsLatest(rs, r);
      SweepKeepsActive(rs, r.now, maxKeys);
      assert KeyOf(r) in Evicted(s.table, r.now);
    }
  }
}
