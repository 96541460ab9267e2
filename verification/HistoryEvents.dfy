/** worker/history_events.py: the sanitiser between a plan summary and the user's history. */
module HistoryEvents {
  import opened Wrappers
  import opened Text
  import opened Sorting
  import opened Contracts
  import opened PlanSummary
  import opened ExecutionGate

  /** A summary as found in a result: any field may be missing or of the wrong type. */
  datatype RawChange = RawChange(address: Option<string>, kind: Option<string>, actions: Option<seq<string>>)
  datatype RawSummary = RawSummary(
    actions: Option<map<string, Option<int>>>,
    kinds: Option<seq<Option<string>>>,
    changes: Option<seq<Option<RawChange>>>,
    terraformVersion: Option<string>,
    formatVersion: Option<string>)

  datatype SafeSummary = SafeSummary(
    actions: map<string, int>,
    kinds: seq<string>,
    changes: seq<SafeChange>,
    terraformVersion: Option<string>,
    formatVersion: Option<string>)

  const KNOWN_ACTIONS := ["create", "update", "delete", "replace", "read", "no_op"]
  const MAX_COUNT := 1_000_000

  predicate KindChar(c: char) { Alnum(c) || c in "_.-" }

  /** [A-Za-z0-9][A-Za-z0-9_.-]{0,127} */
  predicate SafeResourceKind(s: string) {
    1 <= |s| <= 128 && Alnum(s[0]) && forall c <- s :: KindChar(c)
  }

  /** [0-9][0-9.]{0,31} */
  predicate SafeVersion(s: string) {
    1 <= |s| <= 32 && Digit(s[0]) && forall c <- s :: Digit(c) || c == '.'
  }

  predicate CountOk(n: Option<int>) {
    n.Some? && 0 <= n.value <= MAX_COUNT
  }

  function SafeActions(actions: Option<map<string, Option<int>>>): map<string, int> {
    if actions.None? then map[] else
    map name | name in KNOWN_ACTIONS && name in actions.value && CountOf(actions.value[name]).Some?
      :: CountOf(actions.value[name]).value
  }

  function CountOf(n: Option<int>): Option<int> {
    if CountOk(n) then n else None
  }

  function SafeKinds(kinds: Option<seq<Option<string>>>): set<string> {
    if kinds.None? then {} else set k <- kinds.value | k.Some? && SafeResourceKind(k.value) :: k.value
  }

  function ToHistory(c: Option<RawChange>): seq<SafeChange> {
    if c.Some? && c.value.address.Some? && SafeAddress(c.value.address.value)
       && c.value.kind.Some? && SafeResourceKind(c.value.kind.value)
       && c.value.actions.Some? && Recognise(c.value.actions.value).Some?
    then [SafeChange(c.value.address.value, c.value.kind.value, c.value.actions.value)] else []
  }

  function HistoryChanges(cs: seq<Option<RawChange>>): seq<SafeChange> {
    if cs == [] then [] else HistoryChanges(cs[..|cs| - 1]) + ToHistory(cs[|cs| - 1])
  }

  function SafeText(v: Option<string>): Option<string> {
    if v.Some? && SafeVersion(v.value) then v else None
  }

  ghost function Sanitize(v: RawSummary): SafeSummary {
    SafeSummary(
      SafeActions(v.actions),
      Cut(SortedSeq(SafeKinds(v.kinds)), 100),
      Sort(ChangeLe, HistoryChanges(Cut(v.changes.GetOr([]), 500))),
      SafeText(v.terraformVersion),
      SafeText(v.formatVersion))
  }

  method SafeSummaryOf(v: RawSummary) returns (s: SafeSummary)
    ensures s == Sanitize(v)
  {
    hide SafeAddress, SafeResourceKind;
    var actions: map<string, int> := map[];
    if v.actions.Some? {
      for i := 0 to |KNOWN_ACTIONS|
        invariant actions == map name | name in KNOWN_ACTIONS[..i] && name in v.actions.value
                                 && CountOf(v.actions.value[name]).Some? :: CountOf(v.actions.value[name]).value
      {
        var name := KNOWN_ACTIONS[i];
        assert KNOWN_ACTIONS[..i + 1] == KNOWN_ACTIONS[..i] + [name];
        if name in v.actions.value && CountOk(v.actions.value[name]) {
          actions := actions[name := v.actions.value[name].value];
        }
      }
      assert KNOWN_ACTIONS[..|KNOWN_ACTIONS|] == KNOWN_ACTIONS;
    }
    var kinds := SortSet(SafeKinds(v.kinds));
    SortedSetUnique(kinds, SortedSeq(SafeKinds(v.kinds)), SafeKinds(v.kinds));
    var listed := Cut(v.changes.GetOr([]), 500);
    var changes: seq<SafeChange> := [];
    for i := 0 to |listed|
      invariant changes == HistoryChanges(listed[..i])
    {
      assert listed[..i + 1][..i] == listed[..i];
      changes := changes + ToHistory(listed[i]);
    }
    assert listed[..|listed|] == listed;
    s := SafeSummary(actions, Cut(kinds, 100), Sort(ChangeLe, changes), SafeText(v.terraformVersion), SafeText(v.formatVersion));
  }

  // ---- Feeding a summary back in --------------------------------------------------------

  function RawOf(c: SafeChange): Option<RawChange> {
    Some(RawChange(Some(c.address), Some(c.kind), Some(c.actions)))
  }

  function RawChanges(cs: seq<SafeChange>): seq<Option<RawChange>> {
    seq(|cs|, i requires 0 <= i < |cs| => RawOf(cs[i]))
  }

  function RawKinds(ks: seq<string>): seq<Option<string>> {
    seq(|ks|, i requires 0 <= i < |ks| => Some(ks[i]))
  }

  function Reread(s: SafeSummary): RawSummary {
    RawSummary(Some(map k <- s.actions :: Some(s.actions[k])), Some(RawKinds(s.kinds)), Some(RawChanges(s.changes)),
               s.terraformVersion, s.formatVersion)
  }

  function OfPlan(s: Summary): RawSummary {
    RawSummary(
      Some(map["create" := Some(s.actions.create), "update" := Some(s.actions.update), "delete" := Some(s.actions.delete),
               "replace" := Some(s.actions.replace), "read" := Some(s.actions.read), "no_op" := Some(s.actions.noOp)]),
      Some(RawKinds(s.kinds)), Some(RawChanges(s.changes)), Some(s.terraformVersion), Some(s.formatVersion))
  }

  predicate Kept(c: SafeChange) {
    SafeAddress(c.address) && SafeResourceKind(c.kind) && Recognise(c.actions).Some?
  }

  lemma RereadChange(c: SafeChange)
    ensures ToHistory(RawOf(c)) == if Kept(c) then [c] else []
  {
    hide SafeAddress, SafeResourceKind, Recognise;
  }

  lemma {:induction false} HistoryLength(cs: seq<SafeChange>)
    ensures |HistoryChanges(RawChanges(cs))| <= |cs|
    ensures (forall c <- cs :: Kept(c)) ==> HistoryChanges(RawChanges(cs)) == cs
    ensures (exists c <- cs :: !Kept(c)) ==> |HistoryChanges(RawChanges(cs))| < |cs|
  {
    hide Kept, ToHistory;
    if cs != [] {
      var k := |cs| - 1;
      RereadChange(cs[k]);
      HistoryLength(cs[..k]);
      assert RawChanges(cs)[..k] == RawChanges(cs[..k]);
      assert cs == cs[..k] + [cs[k]];
    }
  }

  lemma {:induction false} HistoryKept(cs: seq<Option<RawChange>>)
    ensures forall c <- HistoryChanges(cs) :: Kept(c)
    ensures |HistoryChanges(cs)| <= |cs|
  {
    hide SafeAddress, SafeResourceKind, Recognise;
    if cs != [] { HistoryKept(cs[..|cs| - 1]); }
  }

  lemma SortKeepsMembers<T(!new)>(le: (T, T) -> bool, s: seq<T>)
    requires TotalOrder(le)
    ensures forall x :: x in Sort(le, s) <==> x in s
  {
    SortSorts(le, s);
    assert forall x :: x in s <==> x in multiset(s);
    assert forall x :: x in Sort(le, s) <==> x in multiset(Sort(le, s));
  }

  /** A sorted, already sanitised list of at most 500 changes is left exactly as it is. */
  lemma ChangesFixed(cs: seq<SafeChange>)
    requires |cs| <= 500 && SortedBy(ChangeLe, cs) && forall c <- cs :: Kept(c)
    ensures Sort(ChangeLe, HistoryChanges(Cut(RawChanges(cs), 500))) == cs
  {
    hide Kept;
    HistoryLength(cs);
    ChangesOrdered();
    SortFixed(ChangeLe, cs);
  }

  lemma KindsFixed(ks: seq<string>, full: set<string>)
    requires ks == Cut(SortedSeq(full), 100) && forall k <- ks :: SafeResourceKind(k)
    ensures Cut(SortedSeq(SafeKinds(Some(RawKinds(ks)))), 100) == ks
  {
    hide SafeResourceKind;
    var kept := SafeKinds(Some(RawKinds(ks)));
    forall k ensures k in kept <==> k in ks {
      if k in ks {
        var i :| 0 <= i < |ks| && ks[i] == k;
        assert RawKinds(ks)[i] == Some(k);
        assert Some(k) in RawKinds(ks);
      }
    }
    assert SortedSetOf(ks, kept);
    SortedSetUnique(ks, SortedSeq(kept), kept);
  }

  lemma ActionsFixed(actions: Option<map<string, Option<int>>>)
    ensures var once := SafeActions(actions);
            SafeActions(Some(map k <- once :: Some(once[k]))) == once
  {
  }

  lemma KindsIdempotent(kinds: Option<seq<Option<string>>>)
    ensures var once := Cut(SortedSeq(SafeKinds(kinds)), 100);
            Cut(SortedSeq(SafeKinds(Some(RawKinds(once)))), 100) == once
  {
    hide SafeResourceKind, SortedSeq;
    var full := SafeKinds(kinds);
    var once := Cut(SortedSeq(full), 100);
    assert SortedSetOf(SortedSeq(full), full);
    forall k | k in once ensures SafeResourceKind(k) {
      assert k in SortedSeq(full) && k in full;
    }
    KindsFixed(once, full);
  }

  lemma ChangesIdempotent(cs: seq<Option<RawChange>>)
    requires |cs| <= 500
    ensures var once := Sort(ChangeLe, HistoryChanges(cs));
            Sort(ChangeLe, HistoryChanges(Cut(RawChanges(once), 500))) == once
  {
    hide Kept, Sort, HistoryChanges;
    HistoryKept(cs);
    ChangesOrdered();
    SortSorts(ChangeLe, HistoryChanges(cs));
    SortKeepsMembers(ChangeLe, HistoryChanges(cs));
    ChangesFixed(Sort(ChangeLe, HistoryChanges(cs)));
  }

  /** Sanitising is idempotent on every input, however malformed. */
  lemma SanitizeIdempotent(v: RawSummary)
    ensures Sanitize(Reread(Sanitize(v))) == Sanitize(v)
  {
    ActionsFixed(v.actions);
    KindsIdempotent(v.kinds);
    ChangesIdempotent(Cut(v.changes.GetOr([]), 500));
    hide SafeActions, SafeKinds, SortedSeq, Sort, HistoryChanges, SafeVersion, RawKinds, RawChanges, ChangeLe;
  }

  // ---- Accepted plans lose nothing ------------------------------------------------------

  lemma {:induction false} SafeChangesShape(cs: seq<Change>)
    ensures forall c <- SafeChanges(cs) :: SafeAddress(c.address) && SafeKind(c.kind) && Recognise(c.actions).Some?
  {
    hide SafeAddress, SafeKind, Recognise;
    if cs != [] { SafeChangesShape(cs[..|cs| - 1]); }
  }

  lemma SafeKindIsResourceKind(s: string)
    requires SafeKind(s)
    ensures SafeResourceKind(s) <==> |s| <= 128
  {
    assert s == s[..8] + s[8..] && s[..8] == "azurerm_";
    forall c | c in s ensures KindChar(c) {
      if c in s[8..] { assert NameChar(c); }
    }
  }

  lemma CutSorted(cs: seq<SafeChange>, n: nat)
    requires SortedBy(ChangeLe, cs)
    ensures SortedBy(ChangeLe, Cut(cs, n))
  {
  }

  lemma PlanChangesShape(s: Summary, doc: Document)
    requires Summarizes(s, doc)
    ensures |s.changes| <= 500 && SortedBy(ChangeLe, s.changes)
    ensures forall c <- s.changes :: SafeAddress(c.address) && SafeKind(c.kind) && Recognise(c.actions).Some?
  {
    hide SafeAddress, SafeKind, Recognise, Tags, Kinds;
    SafeChangesShape(doc.changes);
    ChangesOrdered();
    SortSorts(ChangeLe, SafeChanges(doc.changes));
    SortKeepsMembers(ChangeLe, SafeChanges(doc.changes));
    CutSorted(Sort(ChangeLe, SafeChanges(doc.changes)), 500);
  }

  /** The listed changes survive exactly when every listed type has at most 128 characters. */
  lemma ChangesSurviveExactly(s: Summary, doc: Document)
    requires Summarizes(s, doc)
    ensures Sanitize(OfPlan(s)).changes == s.changes <==> forall c <- s.changes :: |c.kind| <= 128
  {
    hide SafeAddress, SafeKind, Recognise, SafeResourceKind, Summarizes;
    PlanChangesShape(s, doc);
    forall c | c in s.changes ensures Kept(c) <==> |c.kind| <= 128 {
      SafeKindIsResourceKind(c.kind);
    }
    if forall c <- s.changes :: |c.kind| <= 128 {
      ChangesFixed(s.changes);
    } else {
      HistoryLength(s.changes);
      ChangesOrdered();
      SortSorts(ChangeLe, HistoryChanges(RawChanges(s.changes)));
      assert Cut(RawChanges(s.changes), 500) == RawChanges(s.changes);
    }
  }

  /** On a plan the guardrails accept, the four counts that change anything reach the history unchanged. */
  lemma AcceptedCountsSurvive(scope: Scope, doc: Document, inputs: Option<Inputs>, s: Summary)
    requires GuardrailsOk(scope.guardrails) && Accepts(scope, doc, inputs) && Summarizes(s, doc)
    ensures var kept := Sanitize(OfPlan(s)).actions;
            && "create" in kept && kept["create"] == s.actions.create
            && "update" in kept && kept["update"] == s.actions.update
            && "delete" in kept && kept["delete"] == s.actions.delete
            && "replace" in kept && kept["replace"] == s.actions.replace
  {
    hide Accepts, Summarizes, GuardrailsOk, Sort, SortedSeq, SafeActions, HistoryChanges, SafeKinds, SafeVersion, RawKinds, RawChanges;
    CountsWithinLimits(scope, doc, inputs, s);
    var given := OfPlan(s).actions.value;
    KnownCount(given, "create", s.actions.create);
    KnownCount(given, "update", s.actions.update);
    KnownCount(given, "delete", s.actions.delete);
    KnownCount(given, "replace", s.actions.replace);
  }

  lemma KnownCount(given: map<string, Option<int>>, name: string, n: int)
    requires name in KNOWN_ACTIONS && name in given && given[name] == Some(n) && 0 <= n <= MAX_COUNT
    ensures name in SafeActions(Some(given)) && SafeActions(Some(given))[name] == n
  {
  }

  lemma CountsWithinLimits(scope: Scope, doc: Document, inputs: Option<Inputs>, s: Summary)
    requires GuardrailsOk(scope.guardrails) && Accepts(scope, doc, inputs) && Summarizes(s, doc)
    ensures s.actions.create + s.actions.update + s.actions.delete + s.actions.replace <= 500
  {
    hide ChangeOk, Kinds, Tags, CountTags, ResourceTypeOk, ResourceGroupOk, SortedDistinct;
  }
}
