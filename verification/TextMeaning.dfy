/** What the text helpers mean, stated on the characters themselves. */
module TextMeaning {
  import opened Text
  import opened Sorting
  import Contracts

  /** `word` in any mixture of letter cases: each character is the word's own, or its capital. */
  predicate Spells(s: string, word: string) {
    |s| == |word| && forall i :: 0 <= i < |s| ==>
      s[i] == word[i]
      || ('A' <= s[i] <= 'Z' && 'a' <= word[i] <= 'z' && s[i] as int - 'A' as int == word[i] as int - 'a' as int)
  }

  predicate NoCapitals(s: string) {
    forall i :: 0 <= i < |s| ==> !('A' <= s[i] <= 'Z')
  }

  /** Lower case spells the same word without capitals, and nothing else does. */
  lemma LowerSpells(s: string, word: string)
    ensures Lower(s) == word <==> Spells(s, word) && NoCapitals(word)
  {
    if Spells(s, word) && NoCapitals(word) {
      forall i | 0 <= i < |s| ensures Lower(s)[i] == word[i] { }
      assert Lower(s) == word;
    }
  }

  lemma StartsWithMeaning(s: string, p: string)
    ensures StartsWith(s, p) <==> exists rest :: s == p + rest
  {
    if StartsWith(s, p) {
      assert s == p + s[|p|..];
    }
    if rest :| s == p + rest {
      assert (p + rest)[..|p|] == p;
    }
  }

  lemma EndsWithMeaning(s: string, p: string)
    ensures EndsWith(s, p) <==> exists before :: s == before + p
  {
    if EndsWith(s, p) {
      assert s == s[..|s| - |p|] + p;
    }
    if before :| s == before + p {
      assert |before| == |s| - |p|;
      assert (before + p)[|before|..] == p;
    }
  }

  ghost predicate Inside(s: string, p: string) {
    exists before, after :: s == before + p + after
  }

  lemma {:induction false} ContainsMeaning(s: string, p: string)
    ensures Contains(s, p) <==> Inside(s, p)
  {
    if Contains(s, p) {
      if StartsWith(s, p) {
        assert s == [] + p + s[|p|..];
      } else {
        ContainsMeaning(s[1..], p);
        var before, after :| s[1..] == before + p + after;
        assert s == ([s[0]] + before) + p + after;
      }
    }
    if before, after :| s == before + p + after {
      if before == [] {
        assert s[..|p|] == p;
      } else {
        ContainsMeaning(s[1..], p);
        assert s[1..] == before[1..] + p + after;
      }
    }
  }

  /** What is stripped is the longest tail made of that character alone. */
  lemma {:induction false} RStripMeaning(s: string, c: char)
    ensures var r := RStrip(s, c);
            && |r| <= |s| && s[..|r|] == r && (r != [] ==> r[|r| - 1] != c)
            && forall i :: |r| <= i < |s| ==> s[i] == c
  {
    if s != [] && s[|s| - 1] == c {
      RStripMeaning(s[..|s| - 1], c);
    }
  }

  /** Segments hold no separator, and joined again they are the text. */
  lemma {:induction false} SplitMeaning(s: string, sep: char)
    ensures forall i :: 0 <= i < |Split(s, sep)| ==> sep !in Split(s, sep)[i]
    ensures Join(Split(s, sep), sep) == s
  {
    JoinSplit(s, sep);
    if s != [] {
      SplitMeaning(s[1..], sep);
    }
  }

  lemma {:induction false} SplitFree(s: string, sep: char)
    requires sep !in s
    ensures Split(s, sep) == [s]
  {
    if s != [] {
      SplitFree(s[1..], sep);
      assert s == [s[0]] + s[1..];
    }
  }

  lemma {:induction false} SplitOf(parts: seq<string>, sep: char)
    requires parts != [] && forall i :: 0 <= i < |parts| ==> sep !in parts[i]
    ensures Split(Join(parts, sep), sep) == parts
  {
    SplitFree(parts[0], sep);
    if |parts| > 1 {
      SplitOf(parts[1..], sep);
      SplitAppend(parts[0], Join(parts[1..], sep), sep);
      assert parts == [parts[0]] + parts[1..];
    }
  }

  // ---- Order ----------------------------------------------------------------------------

  /** The two agree before `k`, and there the first ends or has the smaller character. */
  predicate AgreesTo(a: string, b: string, k: nat) {
    k <= |a| && k <= |b| && a[..k] == b[..k] && (k == |a| || (k < |b| && a[k] < b[k]))
  }

  lemma SameStart<T>(a: seq<T>, b: seq<T>, k: nat)
    requires 0 < k <= |a| && k <= |b| && a[..k] == b[..k]
    ensures a[0] == b[0]
  {
    assert a[0] == a[..k][0] == b[..k][0] == b[0];
  }

  lemma {:induction false} StringLeMeaning(a: string, b: string)
    ensures StringLe(a, b) <==> exists k :: AgreesTo(a, b, k)
  {
    if a == [] {
      assert AgreesTo(a, b, 0);
    } else if b != [] && a[0] < b[0] {
      assert AgreesTo(a, b, 0);
    } else if b != [] && a[0] == b[0] {
      StringLeMeaning(a[1..], b[1..]);
      if k: nat :| AgreesTo(a[1..], b[1..], k) {
        assert a[..k + 1] == [a[0]] + a[1..][..k] && b[..k + 1] == [b[0]] + b[1..][..k];
        assert AgreesTo(a, b, k + 1);
      }
      if k: nat :| AgreesTo(a, b, k) {
        assert a[1..][..k - 1] == a[..k][1..] && b[1..][..k - 1] == b[..k][1..];
        assert AgreesTo(a[1..], b[1..], k - 1);
      }
    } else {
      forall k: nat ensures !AgreesTo(a, b, k) {
        if 0 < k <= |a| && k <= |b| && a[..k] == b[..k] { SameStart(a, b, k); }
      }
    }
  }

  /** A strictly sorted list of names is sorted in that order and repeats nothing. */
  lemma {:induction false} BeforeMeaning(a: string, b: string)
    ensures Contracts.Before(a, b) <==> StringLe(a, b) && a != b
  {
    if a != [] && b != [] && a[0] == b[0] {
      BeforeMeaning(a[1..], b[1..]);
      assert a == [a[0]] + a[1..] && b == [b[0]] + b[1..];
    }
  }

  predicate ListAgreesTo(a: seq<string>, b: seq<string>, k: nat) {
    k <= |a| && k <= |b| && a[..k] == b[..k] && (k == |a| || (k < |b| && a[k] != b[k] && StringLe(a[k], b[k])))
  }

  lemma {:induction false} ListLeMeaning(a: seq<string>, b: seq<string>)
    ensures ListLe(a, b) <==> exists k :: ListAgreesTo(a, b, k)
  {
    if a == [] {
      assert ListAgreesTo(a, b, 0);
    } else if b != [] && a[0] == b[0] {
      ListLeMeaning(a[1..], b[1..]);
      if k: nat :| ListAgreesTo(a[1..], b[1..], k) {
        assert a[..k + 1] == [a[0]] + a[1..][..k] && b[..k + 1] == [b[0]] + b[1..][..k];
        assert ListAgreesTo(a, b, k + 1);
      }
      if k: nat :| ListAgreesTo(a, b, k) {
        assert a[1..][..k - 1] == a[..k][1..] && b[1..][..k - 1] == b[..k][1..];
        assert ListAgreesTo(a[1..], b[1..], k - 1);
      }
    } else {
      if b != [] && StringLe(a[0], b[0]) { assert ListAgreesTo(a, b, 0); }
      forall k: nat | ListAgreesTo(a, b, k) ensures ListLe(a, b) {
        if 0 < k { SameStart(a, b, k); }
      }
    }
  }
}
