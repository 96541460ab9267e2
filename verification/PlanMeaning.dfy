/** What a plan summary says about the plan, position by position and character by character. */
module PlanMeaning {
  import opened Wrappers
  import opened Text
  import opened Sorting
  import opened PlanSummary
  import opened TextMeaning

  // ---- The six counts -------------------------------------------------------------------

  /** The positions of the plan that carry exactly this action list. */
  function Listing(cs: seq<Change>, actions: seq<string>): set<int> {
    set i | 0 <= i < |cs| && cs[i].Change? && cs[i].actions == Some(actions)
  }

  /** Each count is the number of positions with its action list; a replacement has two spellings. */
  lemma CountsAreListings(doc: Document, s: Summary)
    requires Summarizes(s, doc)
    ensures s.actions.create == |Listing(doc.changes, ["create"])|
    ensures s.actions.update == |Listing(doc.changes, ["update"])|
    ensures s.actions.delete == |Listing(doc.changes, ["delete"])|
    ensures s.actions.replace == |Listing(doc.changes, ["delete", "create"])| + |Listing(doc.changes, ["create", "delete"])|
    ensures s.actions.read == |Listing(doc.changes, ["read"])|
    ensures s.actions.noOp == |Listing(doc.changes, ["no-op"])|
  {
    TagCounts(doc.changes);
  }

  lemma TagCounts(cs: seq<Change>)
    ensures CountTags(multiset(Tags(cs)))
            == Counts(|Listing(cs, ["create"])|, |Listing(cs, ["update"])|, |Listing(cs, ["delete"])|,
                      |Listing(cs, ["delete", "create"])| + |Listing(cs, ["create", "delete"])|,
                      |Listing(cs, ["read"])|, |Listing(cs, ["no-op"])|)
  {
    hide Tags;
    CountIsPositions(cs, Some(Create));
    CountIsPositions(cs, Some(Update));
    CountIsPositions(cs, Some(Delete));
    CountIsPositions(cs, Some(Replace));
    CountIsPositions(cs, Some(Read));
    CountIsPositions(cs, Some(NoOp));
    TagPositions(cs);
    var a, b := Listing(cs, ["delete", "create"]), Listing(cs, ["create", "delete"]);
    assert a !! b;
    assert |a + b| == |a| + |b|;
  }

  lemma TagPositions(cs: seq<Change>)
    ensures At(cs, Some(Create)) == Listing(cs, ["create"])
    ensures At(cs, Some(Update)) == Listing(cs, ["update"])
    ensures At(cs, Some(Delete)) == Listing(cs, ["delete"])
    ensures At(cs, Some(Replace)) == Listing(cs, ["delete", "create"]) + Listing(cs, ["create", "delete"])
    ensures At(cs, Some(Read)) == Listing(cs, ["read"])
    ensures At(cs, Some(NoOp)) == Listing(cs, ["no-op"])
  {
    ActionWords();
  }

  /** The seven lists are told apart by their length and the first letter of their first word. */
  lemma ActionWords()
    ensures ["create"][0][0] == 'c' && ["update"][0][0] == 'u' && ["delete"][0][0] == 'd'
    ensures ["read"][0][0] == 'r' && ["no-op"][0][0] == 'n'
    ensures ["delete", "create"][0][0] == 'd' && ["create", "delete"][0][0] == 'c'
  {
  }

  // ---- Types and addresses --------------------------------------------------------------

  predicate LowerOrDigit(c: char) {
    'a' <= c <= 'z' || '0' <= c <= '9' || c == '_'
  }

  /** `azurerm_` and at least one more lower-case letter, digit or underscore. */
  predicate PlainKind(t: string) {
    |t| > 8 && t[..8] == "azurerm_" && forall i :: 8 <= i < |t| ==> LowerOrDigit(t[i])
  }

  /** Such a type, one dot, and a label of letters, digits, underscores and hyphens. */
  predicate DotAt(t: string, k: int) {
    0 <= k < |t| - 1 && t[k] == '.' && PlainKind(t[..k])
    && forall i :: k < i < |t| ==> LowerOrDigit(t[i]) || 'A' <= t[i] <= 'Z' || t[i] == '-'
  }

  predicate PlainAddress(t: string) {
    exists k :: 0 <= k < |t| && DotAt(t, k)
  }

  lemma KindCharacters(t: string)
    ensures SafeKind(t) <==> PlainKind(t)
  {
    if SafeKind(t) {
      forall i | 8 <= i < |t| ensures LowerOrDigit(t[i]) {
        assert t[8..][i - 8] == t[i] && t[i] in t[8..];
      }
    }
    if PlainKind(t) {
      forall c | c in t[8..] ensures NameChar(c) {
        var i :| 0 <= i < |t[8..]| && t[8..][i] == c;
        assert t[i + 8] == c;
      }
    }
  }

  lemma AddressCharacters(t: string)
    ensures SafeAddress(t) <==> PlainAddress(t)
  {
    hide Split, DotAt;
    if SafeAddress(t) {
      SafeIsPlain(t);
    }
    if k :| 0 <= k < |t| && DotAt(t, k) {
      PlainIsSafe(t, k);
    }
  }

  lemma SafeIsPlain(t: string)
    requires SafeAddress(t)
    ensures exists k :: 0 <= k < |t| && DotAt(t, k)
  {
    hide Split, SafeKind, PlainKind;
    var a, b := Split(t, '.')[0], Split(t, '.')[1];
    KindCharacters(a);
    TwoParts(t);
    var k := |a|;
    assert t[..k] == a && t[k] == '.';
    forall i | k < i < |t| ensures LowerOrDigit(t[i]) || 'A' <= t[i] <= 'Z' || t[i] == '-' {
      assert t[i] == b[i - k - 1];
      assert LabelChar(b[i - k - 1]);
    }
    assert DotAt(t, k);
  }

  lemma TwoParts(t: string)
    requires |Split(t, '.')| == 2
    ensures t == Split(t, '.')[0] + ['.'] + Split(t, '.')[1]
  {
    hide Split;
    var parts := Split(t, '.');
    JoinSplit(t, '.');
    assert parts[1..] == [parts[1]];
    assert Join(parts[1..], '.') == parts[1];
  }

  lemma PlainIsSafe(t: string, k: int)
    requires 0 <= k < |t| && DotAt(t, k)
    ensures SafeAddress(t)
  {
    hide Split, SafeKind;
    var a, b := t[..k], t[k + 1..];
    assert t == a + ['.'] + b;
    KindCharacters(a);
    NoDot(a);
    assert forall i :: 0 <= i < |b| ==> b[i] == t[k + 1 + i];
    SplitAppend(a, b, '.');
    SplitFree(a, '.');
    SplitFree(b, '.');
    assert Split(t, '.') == [a] + [b];
  }

  lemma NoDot(a: string)
    requires PlainKind(a)
    ensures '.' !in a
  {
    assert forall i :: 0 <= i < 8 ==> a[i] == a[..8][i];
  }

  // ---- The listed changes ---------------------------------------------------------------

  predicate KnownList(actions: seq<string>) {
    actions in [["create"], ["update"], ["delete"], ["delete", "create"], ["create", "delete"], ["read"], ["no-op"]]
  }

  /** A plan entry that is listed, and how. */
  predicate ListedAs(c: Change, x: SafeChange) {
    && c.Change? && c.address == Some(x.address) && PlainAddress(x.address) && c.kind == Some(x.kind) && PlainKind(x.kind)
    && c.actions == Some(x.actions) && KnownList(x.actions)
  }

  function ListedAt(cs: seq<Change>, x: SafeChange): set<int> {
    set i | 0 <= i < |cs| && ListedAs(cs[i], x)
  }

  lemma SafeMeaning(c: Change, x: SafeChange)
    ensures ToSafe(c) == Some(x) <==> ListedAs(c, x)
  {
    hide SafeAddress, SafeKind, PlainAddress, PlainKind;
    if c.Change? && c.address.Some? { AddressCharacters(c.address.value); }
    if c.Change? && c.kind.Some? { KindCharacters(c.kind.value); }
    AddressCharacters(x.address);
    KindCharacters(x.kind);
  }

  lemma {:induction false} SafeCount(cs: seq<Change>, x: SafeChange)
    ensures multiset(SafeChanges(cs))[x] == |ListedAt(cs, x)|
  {
    hide ToSafe, ListedAs;
    if cs != [] {
      var k := |cs| - 1;
      SafeCount(cs[..k], x);
      SafeOne(cs[k], x);
      ListedLast(cs, x);
      hide SafeOf, ListedAt;
      assert SafeChanges(cs) == SafeChanges(cs[..k]) + SafeOf(cs[k]);
      hide SafeChanges;
      MultisetSum(SafeChanges(cs[..k]), SafeOf(cs[k]), x);
    }
  }

  lemma MultisetSum<T>(a: seq<T>, b: seq<T>, x: T)
    ensures multiset(a + b)[x] == multiset(a)[x] + multiset(b)[x]
  {
  }

  lemma SafeOne(c: Change, x: SafeChange)
    ensures multiset(SafeOf(c))[x] == if ListedAs(c, x) then 1 else 0
  {
    hide ToSafe, ListedAs;
    SafeMeaning(c, x);
    if ToSafe(c).Some? {
      assert SafeOf(c) == [ToSafe(c).value];
    } else {
      assert SafeOf(c) == [];
    }
  }

  lemma ListedLast(cs: seq<Change>, x: SafeChange)
    requires cs != []
    ensures |ListedAt(cs, x)| == |ListedAt(cs[..|cs| - 1], x)| + if ListedAs(cs[|cs| - 1], x) then 1 else 0
  {
    hide ListedAs;
    var k := |cs| - 1;
    var before := ListedAt(cs[..k], x);
    assert k !in before;
    if ListedAs(cs[k], x) {
      assert ListedAt(cs, x) == before + {k};
    } else {
      assert ListedAt(cs, x) == before;
    }
  }

  /** By address, then type, then action list, each in code-point order. */
  predicate InOrder(a: SafeChange, b: SafeChange) {
    && StringLe(a.address, b.address)
    && (a.address == b.address ==> StringLe(a.kind, b.kind) && (a.kind == b.kind ==> ListLe(a.actions, b.actions)))
  }

  lemma OrderMeaning(a: SafeChange, b: SafeChange)
    ensures ChangeLe(a, b) <==> InOrder(a, b)
  {
    StringTotal(a.address, b.address);
    StringTotal(a.kind, b.kind);
    StringTotal(a.address, a.address);
    StringTotal(a.kind, a.kind);
  }

  /** The list holds every listed entry as often as the plan does, in order, and at most 500 of them. */
  lemma ChangesAreListed(doc: Document, s: Summary) returns (all: seq<SafeChange>)
    requires Summarizes(s, doc)
    ensures forall x :: multiset(all)[x] == |ListedAt(doc.changes, x)|
    ensures forall i, j :: 0 <= i < j < |all| ==> InOrder(all[i], all[j])
    ensures s.changes == all[..if |all| <= 500 then |all| else 500]
  {
    hide ListedAt, SafeChanges, ChangeLe, InOrder, Tags, Kinds;
    all := Sort(ChangeLe, SafeChanges(doc.changes));
    ChangesOrdered();
    SortSorts(ChangeLe, SafeChanges(doc.changes));
    forall x ensures multiset(all)[x] == |ListedAt(doc.changes, x)| {
      SafeCount(doc.changes, x);
    }
    forall i, j | 0 <= i < j < |all| ensures InOrder(all[i], all[j]) {
      OrderMeaning(all[i], all[j]);
    }
  }

  // ---- Kinds and versions ---------------------------------------------------------------

  lemma {:induction false} KindMember(cs: seq<Change>, x: string)
    ensures x in Kinds(cs) <==> exists i :: 0 <= i < |cs| && cs[i].Change? && cs[i].kind == Some(x) && |x| <= 128
  {
    if cs != [] {
      var k := |cs| - 1;
      KindMember(cs[..k], x);
      if i :| 0 <= i < |cs| && cs[i].Change? && cs[i].kind == Some(x) && |x| <= 128 {
        if i < k { assert cs[..k][i] == cs[i]; }
      }
      if i :| 0 <= i < k && cs[..k][i].Change? && cs[..k][i].kind == Some(x) && |x| <= 128 {
        assert cs[i] == cs[..k][i];
      }
    }
  }

  /** Every type of at most 128 characters once, in order, and versions of at most 32 characters. */
  lemma KindsAreSorted(doc: Document, s: Summary)
    requires Summarizes(s, doc)
    ensures forall x :: x in s.kinds <==>
              exists i :: 0 <= i < |doc.changes| && doc.changes[i].Change? && doc.changes[i].kind == Some(x) && |x| <= 128
    ensures forall i, j :: 0 <= i < j < |s.kinds| ==> StringLe(s.kinds[i], s.kinds[j]) && s.kinds[i] != s.kinds[j]
    ensures s.formatVersion == doc.formatVersion[..if |doc.formatVersion| <= 32 then |doc.formatVersion| else 32]
    ensures s.terraformVersion == doc.terraformVersion[..if |doc.terraformVersion| <= 32 then |doc.terraformVersion| else 32]
  {
    hide Kinds, Tags, SafeChanges;
    forall x ensures x in Kinds(doc.changes) <==>
      exists i :: 0 <= i < |doc.changes| && doc.changes[i].Change? && doc.changes[i].kind == Some(x) && |x| <= 128 {
      KindMember(doc.changes, x);
    }
  }
}
