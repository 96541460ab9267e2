/** Character-level facts about strings: ASCII case and prefixes. */
module Text {

  function LowerChar(c: char): char {
    if 'A' <= c <= 'Z' then ((c as int) + 32) as char else c
  }

  function Lower(s: string): (r: string)
    ensures |r| == |s|
    ensures forall i :: 0 <= i < |s| ==> r[i] == LowerChar(s[i])
  {
    seq(|s|, i requires 0 <= i < |s| => LowerChar(s[i]))
  }

  predicate StartsWith(s: string, p: string) {
    |p| <= |s| && s[..|p|] == p
  }

  predicate EndsWith(s: string, p: string) {
    |p| <= |s| && s[|s| - |p|..] == p
  }

  predicate Contains(s: string, p: string) {
    |p| <= |s| && (StartsWith(s, p) || (s != [] && Contains(s[1..], p)))
  }

  predicate Digit(c: char) { '0' <= c <= '9' }
  predicate LowerLetter(c: char) { 'a' <= c <= 'z' }
  predicate UpperLetter(c: char) { 'A' <= c <= 'Z' }
  predicate LowerHex(c: char) { Digit(c) || 'a' <= c <= 'f' }
  predicate Hex(c: char) { LowerHex(c) || 'A' <= c <= 'F' }
  predicate Alnum(c: char) { Digit(c) || LowerLetter(c) || UpperLetter(c) }

  /** ^[0-9a-f]{64}$ */
  predicate IsSha256(s: string) {
    |s| == 64 && forall c <- s :: LowerHex(c)
  }

  /** A UUID in its canonical form, letters of either case: what `_canonical_uuid` accepts. */
  predicate IsUuid(s: string) {
    |s| == 36 && forall i :: 0 <= i < 36 ==> if i in {8, 13, 18, 23} then s[i] == '-' else Hex(s[i])
  }

  predicate CanonicalUuid(s: string) {
    IsUuid(s) && Lower(s) == s
  }

  lemma LowerUuid(s: string)
    requires IsUuid(s)
    ensures CanonicalUuid(Lower(s))
  {
    assert forall i :: 0 <= i < 36 ==> Lower(Lower(s))[i] == Lower(s)[i];
  }

  // ---- Splitting on a separator ---------------------------------------------------------

  /** Python's `s.split(sep)`. */
  function Split(s: string, sep: char): (r: seq<string>)
    ensures r != []
  {
    if s == [] then [[]] else
    var rest := Split(s[1..], sep);
    if s[0] == sep then [[]] + rest else [[s[0]] + rest[0]] + rest[1..]
  }

  predicate IsPrefix<T(==)>(p: seq<T>, s: seq<T>) {
    |p| <= |s| && s[..|p|] == p
  }

  lemma {:induction false} SplitAppend(a: string, b: string, sep: char)
    ensures Split(a + [sep] + b, sep) == Split(a, sep) + Split(b, sep)
  {
    if a == [] {
      assert a + [sep] + b == [sep] + b;
      assert ([sep] + b)[1..] == b;
      assert Split(a, sep) == [[]];
    } else {
      var whole := a + [sep] + b;
      assert whole[1..] == a[1..] + [sep] + b && whole[0] == a[0];
      SplitAppend(a[1..], b, sep);
    }
  }

  lemma SplitNonempty(a: string, sep: char)
    ensures a != [] ==> Split(a, sep) != [[]]
  {
    if a != [] && a[0] != sep { assert |Split(a, sep)[0]| >= 1; }
  }

  lemma {:induction false} SplitInjective(a: string, b: string, sep: char)
    requires Split(a, sep) == Split(b, sep)
    ensures a == b
  {
    if a == [] || b == [] {
      SplitNonempty(a, sep);
      SplitNonempty(b, sep);
    } else {
      var x, y := Split(a[1..], sep), Split(b[1..], sep);
      if a[0] == sep && b[0] == sep {
        assert x == Split(a, sep)[1..] == y;
      } else if a[0] == sep || b[0] == sep {
        assert Split(a, sep)[0] == Split(b, sep)[0];
      } else {
        var l, r := [a[0]] + x[0], [b[0]] + y[0];
        assert l == Split(a, sep)[0] == r;
        assert l[1..] == x[0] && r[1..] == y[0] && l[0] == a[0] && r[0] == b[0];
        assert x[1..] == Split(a, sep)[1..] == y[1..];
        assert x == [x[0]] + x[1..] && y == [y[0]] + y[1..];
      }
      SplitInjective(a[1..], b[1..], sep);
      assert a == [a[0]] + a[1..] && b == [b[0]] + b[1..];
    }
  }

  /** A joined sequence of segments, for the converse of `Split`. */
  function Join(parts: seq<string>, sep: char): string {
    if parts == [] then [] else if |parts| == 1 then parts[0] else parts[0] + [sep] + Join(parts[1..], sep)
  }

  lemma {:induction false} JoinSplit(s: string, sep: char)
    ensures Join(Split(s, sep), sep) == s
  {
    if s != [] {
      var rest := Split(s[1..], sep);
      JoinSplit(s[1..], sep);
      assert s == [s[0]] + s[1..];
      if s[0] == sep {
        assert Split(s, sep)[1..] == rest;
      } else {
        assert Split(s, sep)[1..] == rest[1..];
      }
    }
  }

  lemma {:induction false} JoinAppend(a: seq<string>, b: seq<string>, sep: char)
    requires a != [] && b != []
    ensures Join(a + b, sep) == Join(a, sep) + [sep] + Join(b, sep)
  {
    if |a| == 1 {
      assert (a + b)[1..] == b;
    } else {
      assert (a + b)[1..] == a[1..] + b;
      JoinAppend(a[1..], b, sep);
    }
  }

  /**
   Textual containment is containment by whole segments: `s` is `p` or starts with `p` and a
   separator exactly when the segments of `p` are the first segments of `s`.
   */
  lemma SegmentPrefix(p: string, s: string, sep: char)
    ensures s == p || StartsWith(s, p + [sep]) <==> IsPrefix(Split(p, sep), Split(s, sep))
  {
    var ps, ss := Split(p, sep), Split(s, sep);
    if s != p && StartsWith(s, p + [sep]) {
      var rest := s[|p| + 1..];
      assert s == p + [sep] + rest;
      SplitAppend(p, rest, sep);
    }
    if IsPrefix(ps, ss) {
      var tail := ss[|ps|..];
      assert ss == ps + tail;
      JoinSplit(p, sep);
      JoinSplit(s, sep);
      if tail == [] {
        SplitInjective(p, s, sep);
      } else {
        JoinAppend(ps, tail, sep);
        assert s == p + [sep] + Join(tail, sep);
        assert s[..|p| + 1] == p + [sep];
      }
    }
  }

  /** Python's `s.rstrip(c)` for one character. */
  function RStrip(s: string, c: char): string {
    if s != [] && s[|s| - 1] == c then RStrip(s[..|s| - 1], c) else s
  }
}
