/** What the sanitiser lets into the history, entry by entry and character by character. */
module HistoryMeaning {
  import opened Wrappers
  import opened Text
  import opened Sorting
  import opened PlanSummary
  import opened PlanMeaning
  import opened HistoryEvents

  predicate LetterOrDigit(c: char) {
    'a' <= c <= 'z' || 'A' <= c <= 'Z' || '0' <= c <= '9'
  }

  /** A letter or digit, then at most 127 letters, digits, underscores, dots and hyphens. */
  predicate PlainToken(t: string) {
    1 <= |t| <= 128 && LetterOrDigit(t[0])
    && forall i :: 0 <= i < |t| ==> LetterOrDigit(t[i]) || t[i] == '_' || t[i] == '.' || t[i] == '-'
  }

  /** A digit, then at most 31 digits and dots. */
  predicate PlainVersion(t: string) {
    1 <= |t| <= 32 && '0' <= t[0] <= '9' && forall i :: 0 <= i < |t| ==> '0' <= t[i] <= '9' || t[i] == '.'
  }

  lemma TokenMeaning(t: string)
    ensures SafeResourceKind(t) <==> PlainToken(t)
  {
    if SafeResourceKind(t) {
      forall i | 0 <= i < |t| ensures LetterOrDigit(t[i]) || t[i] == '_' || t[i] == '.' || t[i] == '-' {
        assert KindChar(t[i]);
      }
    }
    if PlainToken(t) {
      forall c | c in t ensures KindChar(c) {
        var i :| 0 <= i < |t| && t[i] == c;
      }
    }
  }

  lemma VersionMeaning(t: string)
    ensures SafeVersion(t) <==> PlainVersion(t)
  {
    if SafeVersion(t) {
      forall i | 0 <= i < |t| ensures '0' <= t[i] <= '9' || t[i] == '.' {
        assert t[i] in t;
      }
    }
    if PlainVersion(t) {
      forall c | c in t ensures Digit(c) || c == '.' {
        var i :| 0 <= i < |t| && t[i] == c;
      }
    }
  }

  /** The six counts survive one by one, each exactly if it is a number from 0 to a million. */
  lemma KeptCounts(v: RawSummary, name: string)
    ensures name in Sanitize(v).actions <==>
              && name in {"create", "update", "delete", "replace", "read", "no_op"}
              && v.actions.Some? && name in v.actions.value
              && v.actions.value[name].Some? && 0 <= v.actions.value[name].value <= 1_000_000
    ensures name in Sanitize(v).actions ==> v.actions.value[name] == Some(Sanitize(v).actions[name])
  {
    hide SortedSeq, Sort, HistoryChanges, SafeKinds, SafeText;
  }

  /** Types survive exactly if they are plain tokens: once each, in order, the first hundred of them. */
  lemma KeptKinds(v: RawSummary) returns (all: seq<string>)
    ensures forall k :: k in all <==> v.kinds.Some? && Some(k) in v.kinds.value && PlainToken(k)
    ensures forall i, j :: 0 <= i < j < |all| ==> StringLe(all[i], all[j]) && all[i] != all[j]
    ensures Sanitize(v).kinds == all[..if |all| <= 100 then |all| else 100]
  {
    hide SafeResourceKind, PlainToken, Sort, HistoryChanges, SafeActions, SafeText;
    all := SortedSeq(SafeKinds(v.kinds));
    forall k ensures k in all <==> v.kinds.Some? && Some(k) in v.kinds.value && PlainToken(k) {
      TokenMeaning(k);
    }
  }

  /** A raw entry that is kept, and as what. */
  predicate KeptAs(c: Option<RawChange>, x: SafeChange) {
    && c == Some(RawChange(Some(x.address), Some(x.kind), Some(x.actions)))
    && PlainAddress(x.address) && PlainToken(x.kind) && KnownList(x.actions)
  }

  /** Only the first five hundred entries are looked at. */
  function KeptAt(cs: seq<Option<RawChange>>, x: SafeChange): set<int> {
    set i | 0 <= i < |cs| && i < 500 && KeptAs(cs[i], x)
  }

  lemma ChangeMeaning(c: Option<RawChange>, x: SafeChange)
    ensures ToHistory(c) == (if ToHistory(c) == [] then [] else [ToHistory(c)[0]])
    ensures ToHistory(c) == [x] <==> KeptAs(c, x)
  {
    hide SafeAddress, SafeResourceKind, PlainAddress, PlainToken;
    if c.Some? && c.value.address.Some? { AddressCharacters(c.value.address.value); }
    if c.Some? && c.value.kind.Some? { TokenMeaning(c.value.kind.value); }
    AddressCharacters(x.address);
    TokenMeaning(x.kind);
  }

  lemma {:induction false} HistoryCount(cs: seq<Option<RawChange>>, x: SafeChange)
    requires |cs| <= 500
    ensures multiset(HistoryChanges(cs))[x] == |KeptAt(cs, x)|
  {
    hide ToHistory, KeptAs;
    if cs != [] {
      var k := |cs| - 1;
      HistoryCount(cs[..k], x);
      ChangeMeaning(cs[k], x);
      var before := KeptAt(cs[..k], x);
      assert k !in before;
      if KeptAs(cs[k], x) {
        assert KeptAt(cs, x) == before + {k};
      } else {
        assert KeptAt(cs, x) == before;
      }
    }
  }

  /** Changes survive exactly if address, type and action list are plain: as often as they stand among
      the first five hundred, and in order. */
  lemma KeptChanges(v: RawSummary, x: SafeChange)
    ensures var raw := if v.changes.Some? then v.changes.value else [];
            multiset(Sanitize(v).changes)[x] == |KeptAt(raw, x)|
    ensures forall i, j :: 0 <= i < j < |Sanitize(v).changes| ==> InOrder(Sanitize(v).changes[i], Sanitize(v).changes[j])
  {
    hide SafeKinds, SortedSeq, SafeActions, SafeText, HistoryChanges, InOrder, ChangeLe, KeptAs;
    var raw := if v.changes.Some? then v.changes.value else [];
    var listed := Cut(raw, 500);
    assert Sanitize(v).changes == Sort(ChangeLe, HistoryChanges(listed));
    hide Sanitize;
    ChangesOrdered();
    SortSorts(ChangeLe, HistoryChanges(listed));
    HistoryCount(listed, x);
    assert KeptAt(listed, x) == KeptAt(raw, x);
    forall i, j | 0 <= i < j < |Sanitize(v).changes| ensures InOrder(Sanitize(v).changes[i], Sanitize(v).changes[j]) {
      OrderMeaning(Sanitize(v).changes[i], Sanitize(v).changes[j]);
    }
  }

  /** Versions survive exactly if they are plain. */
  lemma KeptVersions(v: RawSummary)
    ensures Sanitize(v).terraformVersion == (if v.terraformVersion.Some? && PlainVersion(v.terraformVersion.value) then v.terraformVersion else None)
    ensures Sanitize(v).formatVersion == (if v.formatVersion.Some? && PlainVersion(v.formatVersion.value) then v.formatVersion else None)
  {
    hide SafeKinds, SortedSeq, Sort, SafeActions, HistoryChanges, SafeVersion, PlainVersion;
    if v.terraformVersion.Some? { VersionMeaning(v.terraformVersion.value); }
    if v.formatVersion.Some? { VersionMeaning(v.formatVersion.value); }
  }
}
