/** worker/execution_gate.py: reducing a Terraform plan to counts, kinds and reviewable changes. */
module PlanSummary {
  import opened Wrappers
  import opened Text
  import opened Sorting

  /** String-valued attributes of a change body, and whether its `condition` is truthy. */
  datatype Body = Body(text: map<string, string>, condition: bool)

  /** One decoded `resource_changes` entry; `NotObject` is an entry that is not a JSON object. */
  datatype Change =
    | NotObject
    | Change(
        mode: Option<string>,
        kind: Option<string>,
        address: Option<string>,
        actions: Option<seq<string>>,
        after: Option<Body>,
        before: Option<Body>)

  /** A configured resource and its `principal_id` expression. */
  datatype Resource = Resource(address: Option<string>, references: seq<string>, constant: bool)

  datatype Document = Document(
    formatVersion: string, terraformVersion: string, changes: seq<Change>, configuration: seq<Resource>)

  datatype Action = Create | Update | Delete | Replace | Read | NoOp
  datatype Counts = Counts(create: nat, update: nat, delete: nat, replace: nat, read: nat, noOp: nat)
  datatype SafeChange = SafeChange(address: string, kind: string, actions: seq<string>)
  datatype Summary = Summary(
    formatVersion: string, terraformVersion: string, actions: Counts, kinds: seq<string>, changes: seq<SafeChange>)

  // ---- One change -----------------------------------------------------------------------

  function Recognise(actions: seq<string>): Option<Action> {
    if actions == ["create"] then Some(Create)
    else if actions == ["update"] then Some(Update)
    else if actions == ["delete"] then Some(Delete)
    else if actions == ["delete", "create"] || actions == ["create", "delete"] then Some(Replace)
    else if actions == ["read"] then Some(Read)
    else if actions == ["no-op"] then Some(NoOp)
    else None
  }

  function Tag(c: Change): Option<Action> {
    if c.Change? && c.actions.Some? then Recognise(c.actions.value) else None
  }

  predicate NameChar(c: char) { LowerLetter(c) || Digit(c) || c == '_' }
  predicate LabelChar(c: char) { Alnum(c) || c == '_' || c == '-' }

  /** azurerm_[a-z0-9_]+ */
  predicate SafeKind(s: string) {
    StartsWith(s, "azurerm_") && |s| > 8 && forall c <- s[8..] :: NameChar(c)
  }

  /** azurerm_[a-z0-9_]+\.[A-Za-z0-9_-]+ */
  predicate SafeAddress(s: string) {
    var parts := Split(s, '.');
    |parts| == 2 && SafeKind(parts[0]) && parts[1] != [] && forall c <- parts[1] :: LabelChar(c)
  }

  function ToSafe(c: Change): Option<SafeChange> {
    if c.Change? && c.address.Some? && SafeAddress(c.address.value) && c.kind.Some? && SafeKind(c.kind.value) && Tag(c).Some?
    then Some(SafeChange(c.address.value, c.kind.value, c.actions.value)) else None
  }

  function SafeOf(c: Change): seq<SafeChange> {
    if ToSafe(c).Some? then [ToSafe(c).value] else []
  }

  function KindOf(c: Change): set<string> {
    if c.Change? && c.kind.Some? && |c.kind.value| <= 128 then {c.kind.value} else {}
  }

  /** The sort key: address, then type, then the action list. */
  predicate ChangeLe(a: SafeChange, b: SafeChange) {
    if a.address != b.address then StringLe(a.address, b.address)
    else if a.kind != b.kind then StringLe(a.kind, b.kind)
    else ListLe(a.actions, b.actions)
  }

  lemma ChangesOrdered()
    ensures TotalOrder(ChangeLe)
  {
    hide StringLe, ListLe;
    forall a, b ensures ChangeLe(a, b) || ChangeLe(b, a)
      ensures ChangeLe(a, b) && ChangeLe(b, a) ==> a == b {
      StringTotal(a.address, b.address);
      StringTotal(a.kind, b.kind);
      ListTotal(a.actions, b.actions);
    }
    forall a, b, c | ChangeLe(a, b) && ChangeLe(b, c) ensures ChangeLe(a, c) {
      ChangeLeTransitive(a, b, c);
    }
  }

  lemma StringChain(a: string, b: string, c: string)
    requires StringLe(a, b) && StringLe(b, c)
    ensures StringLe(a, c) && (a == c ==> a == b)
  {
    StringTransitive(a, b, c);
    StringTotal(a, b);
  }

  lemma ChangeLeTransitive(a: SafeChange, b: SafeChange, c: SafeChange)
    requires ChangeLe(a, b) && ChangeLe(b, c)
    ensures ChangeLe(a, c)
  {
    hide StringLe, ListLe;
    if a.address != b.address && b.address != c.address {
      StringChain(a.address, b.address, c.address);
    } else if a.address == b.address && b.address == c.address {
      if a.kind != b.kind && b.kind != c.kind {
        StringChain(a.kind, b.kind, c.kind);
      } else if a.kind == b.kind && b.kind == c.kind {
        ListTransitive(a.actions, b.actions, c.actions);
      }
    }
  }

  // ---- The specification: what depends only on the multiset of changes -------------------

  function Tags(cs: seq<Change>): seq<Option<Action>> {
    seq(|cs|, i requires 0 <= i < |cs| => Tag(cs[i]))
  }

  function CountTags(tags: multiset<Option<Action>>): Counts {
    Counts(tags[Some(Create)], tags[Some(Update)], tags[Some(Delete)], tags[Some(Replace)], tags[Some(Read)], tags[Some(NoOp)])
  }

  function SafeChanges(cs: seq<Change>): seq<SafeChange> {
    if cs == [] then [] else
    SafeChanges(cs[..|cs| - 1]) + SafeOf(cs[|cs| - 1])
  }

  function Kinds(cs: seq<Change>): set<string> {
    if cs == [] then {} else Kinds(cs[..|cs| - 1]) + KindOf(cs[|cs| - 1])
  }

  function Cut<T>(s: seq<T>, n: nat): seq<T> {
    if |s| <= n then s else s[..n]
  }

  ghost predicate Summarizes(s: Summary, doc: Document) {
    && s.formatVersion == Cut(doc.formatVersion, 32)
    && s.terraformVersion == Cut(doc.terraformVersion, 32)
    && s.actions == CountTags(multiset(Tags(doc.changes)))
    && s.kinds == SortedSeq(Kinds(doc.changes))
    && s.changes == Cut(Sort(ChangeLe, SafeChanges(doc.changes)), 500)
  }

  function BumpCount(n: Counts, t: Option<Action>): Counts {
    match t
    case None => n
    case Some(Create) => n.(create := n.create + 1)
    case Some(Update) => n.(update := n.update + 1)
    case Some(Delete) => n.(delete := n.delete + 1)
    case Some(Replace) => n.(replace := n.replace + 1)
    case Some(Read) => n.(read := n.read + 1)
    case Some(NoOp) => n.(noOp := n.noOp + 1)
  }

  lemma Snoc(cs: seq<Change>, c: Change)
    ensures Tags(cs + [c]) == Tags(cs) + [Tag(c)]
    ensures multiset(Tags(cs + [c])) == multiset(Tags(cs)) + multiset{Tag(c)}
    ensures Kinds(cs + [c]) == Kinds(cs) + KindOf(c)
    ensures SafeChanges(cs + [c]) == SafeChanges(cs) + SafeOf(c)
  {
    hide Tag, KindOf, SafeOf;
    assert (cs + [c])[..|cs|] == cs;
    assert Tags(cs + [c]) == Tags(cs) + [Tag(c)];
  }

  lemma BumpCounts(tags: multiset<Option<Action>>, t: Option<Action>)
    ensures CountTags(tags + multiset{t}) == BumpCount(CountTags(tags), t)
  {
  }

  method SummarizePlanJson(doc: Document) returns (s: Summary)
    ensures Summarizes(s, doc)
  {
    hide Tags, Kinds, SafeChanges, CountTags, SafeAddress, SafeKind, SortedSetOf;
    var counts := Counts(0, 0, 0, 0, 0, 0);
    var kinds: set<string> := {};
    var changes: seq<SafeChange> := [];
    EmptySummary();
    for i := 0 to |doc.changes|
      invariant counts == CountTags(multiset(Tags(doc.changes[..i])))
      invariant kinds == Kinds(doc.changes[..i])
      invariant changes == SafeChanges(doc.changes[..i])
    {
      var c := doc.changes[i];
      Snoc(doc.changes[..i], c);
      assert doc.changes[..i + 1] == doc.changes[..i] + [c];
      BumpCounts(multiset(Tags(doc.changes[..i])), Tag(c));
      if c.Change? {
        if c.kind.Some? && |c.kind.value| <= 128 {
          kinds := kinds + {c.kind.value};
        }
        var tag := if c.actions.Some? then Recognise(c.actions.value) else None;
        if c.address.Some? && SafeAddress(c.address.value) && c.kind.Some? && SafeKind(c.kind.value) && tag.Some? {
          changes := changes + [SafeChange(c.address.value, c.kind.value, c.actions.value)];
        }
        counts := BumpCount(counts, tag);
      }
    }
    assert doc.changes[..|doc.changes|] == doc.changes;
    var sortedKinds := SortSet(kinds);
    SortedSetUnique(sortedKinds, SortedSeq(kinds), kinds);
    s := Summary(Cut(doc.formatVersion, 32), Cut(doc.terraformVersion, 32), counts, sortedKinds,
                 Cut(Sort(ChangeLe, changes), 500));
  }

  lemma EmptySummary()
    ensures CountTags(multiset(Tags([]))) == Counts(0, 0, 0, 0, 0, 0)
    ensures Kinds([]) == {} && SafeChanges([]) == []
  {
  }

  // ---- Order of the plan does not matter ------------------------------------------------

  lemma {:induction false} SplitAt(cs: seq<Change>, k: nat)
    requires k < |cs|
    ensures var rest := cs[..k] + cs[k + 1..];
            && multiset(Tags(cs)) == multiset(Tags(rest)) + multiset{Tag(cs[k])}
            && Kinds(cs) == Kinds(rest) + KindOf(cs[k])
            && multiset(SafeChanges(cs)) == multiset(SafeChanges(rest)) + multiset(SafeOf(cs[k]))
  {
    hide Tag, KindOf, SafeOf, Tags, Kinds, SafeChanges;
    var n := |cs| - 1;
    var rest := cs[..k] + cs[k + 1..];
    assert cs == cs[..n] + [cs[n]];
    Snoc(cs[..n], cs[n]);
    if k == n {
      assert rest == cs[..n];
    } else {
      SplitAt(cs[..n], k);
      var shorter := cs[..n][..k] + cs[..n][k + 1..];
      assert rest == shorter + [cs[n]];
      Snoc(shorter, cs[n]);
    }
  }

  lemma Removed(cs: seq<Change>, k: nat)
    requires k < |cs|
    ensures multiset(cs[..k] + cs[k + 1..]) == multiset(cs) - multiset{cs[k]}
  {
    assert cs == cs[..k] + [cs[k]] + cs[k + 1..];
  }

  lemma {:induction false} PermutationSummary(a: seq<Change>, b: seq<Change>)
    requires multiset(a) == multiset(b)
    ensures multiset(Tags(a)) == multiset(Tags(b))
    ensures Kinds(a) == Kinds(b)
    ensures multiset(SafeChanges(a)) == multiset(SafeChanges(b))
    decreases |a|
  {
    hide Tag, KindOf, SafeOf, Tags, Kinds, SafeChanges;
    assert |multiset(a)| == |a| && |multiset(b)| == |b|;
    if a == [] {
      assert b == [];
    } else {
      assert a[0] in multiset(b);
      var k :| 0 <= k < |b| && b[k] == a[0];
      SplitAt(a, 0);
      SplitAt(b, k);
      Removed(a, 0);
      Removed(b, k);
      PermutationSummary(a[..0] + a[1..], b[..k] + b[k + 1..]);
    }
  }

  /** Any reordering of the changes gives the same summary, cut included. */
  lemma SummaryIgnoresOrder(d: Document, e: Document, s: Summary, t: Summary)
    requires multiset(d.changes) == multiset(e.changes)
    requires d.formatVersion == e.formatVersion && d.terraformVersion == e.terraformVersion
    requires Summarizes(s, d) && Summarizes(t, e)
    ensures s == t
  {
    PermutationSummary(d.changes, e.changes);
    ChangesOrdered();
    SortPermutation(ChangeLe, SafeChanges(d.changes), SafeChanges(e.changes));
  }

  function Recognised(cs: seq<Change>): set<int> {
    set i | 0 <= i < |cs| && Tag(cs[i]).Some?
  }

  /** The six counts add up to the changes whose action list is recognised; the others are counted nowhere. */
  lemma {:induction false} CountsSum(cs: seq<Change>)
    ensures var n := CountTags(multiset(Tags(cs)));
            n.create + n.update + n.delete + n.replace + n.read + n.noOp == |Recognised(cs)|
  {
    hide Tag, Tags, Kinds, SafeChanges, KindOf, SafeOf, CountTags;
    if cs == [] {
      EmptySummary();
    } else {
      var k := |cs| - 1;
      CountsSum(cs[..k]);
      Snoc(cs[..k], cs[k]);
      assert cs[..k] + [cs[k]] == cs;
      BumpCounts(multiset(Tags(cs[..k])), Tag(cs[k]));
      RecognisedSnoc(cs, k);
    }
  }

  lemma RecognisedSnoc(cs: seq<Change>, k: nat)
    requires |cs| == k + 1
    ensures |Recognised(cs)| == |Recognised(cs[..k])| + (if Tag(cs[k]).Some? then 1 else 0)
  {
    hide Tag;
    assert k !in Recognised(cs[..k]);
    if Tag(cs[k]).Some? {
      assert Recognised(cs) == Recognised(cs[..k]) + {k};
    } else {
      assert Recognised(cs) == Recognised(cs[..k]);
    }
  }

  /** The positions of the plan whose action list reads as `t`. */
  function At(cs: seq<Change>, t: Option<Action>): set<int> {
    set i | 0 <= i < |cs| && Tag(cs[i]) == t
  }

  /** A tag is counted once for every position it stands at. */
  lemma {:induction false} CountIsPositions(cs: seq<Change>, t: Option<Action>)
    ensures multiset(Tags(cs))[t] == |At(cs, t)|
  {
    hide Tag, Tags, Kinds, SafeChanges, KindOf, SafeOf;
    if cs == [] {
      assert Tags(cs) == [] by { NoTags(); }
    } else {
      var k := |cs| - 1;
      CountIsPositions(cs[..k], t);
      Snoc(cs[..k], cs[k]);
      assert cs[..k] + [cs[k]] == cs;
      assert k !in At(cs[..k], t);
      assert At(cs, t) == At(cs[..k], t) + if Tag(cs[k]) == t then {k} else {};
    }
  }

  lemma NoTags()
    ensures Tags([]) == []
  {
  }
}
