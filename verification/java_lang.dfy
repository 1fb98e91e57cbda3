/**
 * The few pieces of java.lang the core relies on: null as an option, a
 * thrown exception as a result, and the java.lang.String operations the
 * weaver, the class writer and the canonical-model generator call.
 * Strings are sequences of UTF-16 code units, modelled as `seq<char>`.
 */
module JavaLang {

  /** A Java reference that may be null. */
  datatype Option<+T> = None | Some(value: T) {
    function GetOr(default: T): T {
      match this
      case Some(v) => v
      case None => default
    }
  }

  /** The exceptions the modelled string code can raise. */
  datatype Exception = StringIndexOutOfBounds | IndexOutOfBounds | NullPointer

  /** A value, or the exception thrown while computing it. */
  datatype Result<+T> = Ok(value: T) | Thrown(exception: Exception)

  /** `s.indexOf(c)`: the first position of `c` in `s`, or -1. */
  function IndexOf(s: string, c: char): (r: int)
    ensures -1 <= r < |s|
    ensures r == -1 <==> c !in s
    ensures 0 <= r ==> s[r] == c && c !in s[..r]
  {
    if |s| == 0 then -1
    else if s[0] == c then 0
    else
      var k := IndexOf(s[1..], c);
      assert s[1..][..if k < 0 then 0 else k] == s[1..if k < 0 then 1 else k + 1];
      if k == -1 then -1 else k + 1
  }

  /** `s.lastIndexOf(c)`: the last position of `c` in `s`, or -1. */
  function LastIndexOf(s: string, c: char): (r: int)
    ensures -1 <= r < |s|
    ensures r == -1 <==> c !in s
    ensures 0 <= r ==> s[r] == c && forall j :: r < j < |s| ==> s[j] != c
  {
    if |s| == 0 then -1
    else if s[|s| - 1] == c then |s| - 1
    else
      assert s == s[..|s| - 1] + [s[|s| - 1]];
      LastIndexOf(s[..|s| - 1], c)
  }

  /** `s.startsWith(p)`. */
  predicate StartsWith(s: string, p: string) {
    |p| <= |s| && s[..|p|] == p
  }

  /** `s.contains(p)`: `p` occurs as a contiguous piece of `s`. */
  predicate Contains(s: string, p: string) {
    StartsWith(s, p) || (|s| > 0 && Contains(s[1..], p))
  }

  /** `s.replace(a, b)` for single characters: every `a` becomes `b`. */
  function ReplaceChar(s: string, a: char, b: char): (r: string)
    ensures |r| == |s|
    ensures forall i :: 0 <= i < |s| ==> r[i] == if s[i] == a then b else s[i]
  {
    if |s| == 0 then [] else [if s[0] == a then b else s[0]] + ReplaceChar(s[1..], a, b)
  }

  /** `s.replace("a", "")`: every occurrence of the character `a` is dropped. */
  function RemoveChar(s: string, a: char): (r: string)
    ensures |r| <= |s|
    ensures a !in r
    ensures forall c :: c in r <==> c in s && c != a
  {
    if |s| == 0 then [] else (if s[0] == a then [] else [s[0]]) + RemoveChar(s[1..], a)
  }

  /** The characters `String.trim` removes: code points up to the space. */
  predicate IsTrimmed(c: char) {
    c <= ' '
  }

  /** `s.trim()` without its trailing part: leading blanks dropped. */
  function TrimLeading(s: string): (r: string)
    ensures |r| <= |s|
  {
    if |s| > 0 && IsTrimmed(s[0]) then TrimLeading(s[1..]) else s
  }

  /** `s.trim()` without its leading part: trailing blanks dropped. */
  function TrimTrailing(s: string): (r: string)
    ensures |r| <= |s|
  {
    if |s| > 0 && IsTrimmed(s[|s| - 1]) then TrimTrailing(s[..|s| - 1]) else s
  }

  /** `s.trim()`: leading and trailing characters up to the space removed. */
  function Trim(s: string): (r: string)
    ensures |r| <= |s|
  {
    TrimTrailing(TrimLeading(s))
  }

  /**
   * Dropping leading blanks removes a prefix made only of blanks and leaves
   * a suffix that does not start with one.
   */
  lemma {:induction false} TrimLeadingSuffix(s: string)
    ensures var r := TrimLeading(s); r == s[|s| - |r|..] && (r == [] || !IsTrimmed(r[0]))
    ensures forall k :: 0 <= k < |s| - |TrimLeading(s)| ==> IsTrimmed(s[k])
    decreases |s|
  {
    if |s| > 0 && IsTrimmed(s[0]) {
      TrimLeadingSuffix(s[1..]);
      assert s[1..][|s[1..]| - |TrimLeading(s[1..])|..] == s[|s| - |TrimLeading(s[1..])|..];
      forall k | 1 <= k < |s| - |TrimLeading(s)| ensures IsTrimmed(s[k]) {
        assert s[k] == s[1..][k - 1];
      }
    }
  }

  /**
   * Dropping trailing blanks removes a suffix made only of blanks and leaves
   * a prefix that does not end with one.
   */
  lemma {:induction false} TrimTrailingPrefix(s: string)
    ensures var r := TrimTrailing(s); r == s[..|r|] && (r == [] || !IsTrimmed(r[|r| - 1]))
    ensures forall k :: |TrimTrailing(s)| <= k < |s| ==> IsTrimmed(s[k])
    decreases |s|
  {
    if |s| > 0 && IsTrimmed(s[|s| - 1]) {
      TrimTrailingPrefix(s[..|s| - 1]);
      var r := TrimTrailing(s[..|s| - 1]);
      assert s[..|s| - 1][..|r|] == s[..|r|];
      forall k | |r| <= k < |s| - 1 ensures IsTrimmed(s[k]) {
        assert s[k] == s[..|s| - 1][k];
      }
    }
  }

  /**
   * `trim` keeps a middle piece of the string with no blank at either end,
   * and everything it removes before and after that piece is blank.
   */
  lemma TrimEnds(s: string)
    ensures var r := Trim(s); (r == [] || (!IsTrimmed(r[0]) && !IsTrimmed(r[|r| - 1])))
    ensures var r, i := Trim(s), |s| - |TrimLeading(s)|; i + |r| <= |s| && r == s[i..i + |r|]
    ensures var r, i := Trim(s), |s| - |TrimLeading(s)|;
      && (forall k :: 0 <= k < i ==> IsTrimmed(s[k]))
      && (forall k :: i + |r| <= k < |s| ==> IsTrimmed(s[k]))
  {
    var l := TrimLeading(s);
    TrimLeadingSuffix(s);
    TrimTrailingPrefix(l);
    var r := Trim(s);
    assert r == l[..|r|];
    if r != [] {
      assert r[0] == l[0];
    }
    var i := |s| - |l|;
    assert r == s[i..i + |r|];
    forall k | i + |r| <= k < |s| ensures IsTrimmed(s[k]) {
      assert s[k] == l[k - i];
    }
  }

  /** Removing a character distributes over concatenation, so the kept characters stay in order. */
  lemma {:induction false} RemoveCharAppend(s: string, t: string, a: char)
    ensures RemoveChar(s + t, a) == RemoveChar(s, a) + RemoveChar(t, a)
    decreases |s|
  {
    if |s| > 0 {
      assert (s + t)[1..] == s[1..] + t;
      RemoveCharAppend(s[1..], t, a);
    } else {
      assert s + t == t;
    }
  }

  /** On one character, `replace(a, "")` drops it exactly when it is `a`. */
  lemma RemoveCharSingle(c: char, a: char)
    ensures RemoveChar([c], a) == if c == a then [] else [c]
  {
    assert [c][1..] == [];
  }

  /**
   * `a.compareTo(b)`: the difference of the first differing code units, or
   * the difference of the lengths when one string is a prefix of the other.
   */
  function CompareTo(a: string, b: string): int {
    if |a| == 0 || |b| == 0 then |a| - |b|
    else if a[0] != b[0] then a[0] as int - b[0] as int
    else CompareTo(a[1..], b[1..])
  }

  /** The order `Collections.sort` uses on strings. */
  predicate StringLe(a: string, b: string) {
    CompareTo(a, b) <= 0
  }

  lemma {:induction false} CompareToAntisymmetric(a: string, b: string)
    ensures CompareTo(a, b) == -CompareTo(b, a)
  {
    if |a| != 0 && |b| != 0 && a[0] == b[0] {
      CompareToAntisymmetric(a[1..], b[1..]);
    }
  }

  lemma {:induction false} CompareToZero(a: string, b: string)
    ensures CompareTo(a, b) == 0 <==> a == b
  {
    if |a| != 0 && |b| != 0 {
      if a[0] == b[0] {
        CompareToZero(a[1..], b[1..]);
        assert a == [a[0]] + a[1..] && b == [b[0]] + b[1..];
      } else {
        assert a[0] != b[0];
      }
    }
  }

  lemma {:induction false} StringLeTotal(a: string, b: string)
    ensures StringLe(a, b) || StringLe(b, a)
  {
    CompareToAntisymmetric(a, b);
  }

  lemma {:induction false} StringLeTransitive(a: string, b: string, c: string)
    requires StringLe(a, b) && StringLe(b, c)
    ensures StringLe(a, c)
  {
    if |a| != 0 && |b| != 0 && |c| != 0 && a[0] == b[0] && b[0] == c[0] {
      StringLeTransitive(a[1..], b[1..], c[1..]);
    }
  }
}
