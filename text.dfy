/**
 * String helpers with the semantics of the JavaScript built-ins the chat client
 * and the quality assessor use: `toLowerCase`, `includes`, `startsWith`, `trim`,
 * `split('/')`, `Array.join`, the `\s`, `\w` and `\b` classes of regular
 * expressions, and the leftmost-match rule of `String.prototype.match`.
 */
module Text {
  import opened Common

  /** The characters JavaScript's `\s` class (and `String.prototype.trim`) treats as white space. */
  predicate IsSpace(c: char) {
    c == ' ' || c == '\t' || c == '\n' || c == '\U{B}' || c == '\U{C}' || c == '\r'
    || c == '\U{A0}' || c == '\U{1680}' || ('\U{2000}' <= c <= '\U{200A}')
    || c == '\U{2028}' || c == '\U{2029}' || c == '\U{202F}' || c == '\U{205F}'
    || c == '\U{3000}' || c == '\U{FEFF}'
  }

  predicate IsDigit(c: char) { '0' <= c <= '9' }

  predicate IsAsciiLetter(c: char) { 'a' <= c <= 'z' || 'A' <= c <= 'Z' }

  predicate IsAlnum(c: char) { IsAsciiLetter(c) || IsDigit(c) }

  /** JavaScript's `\w`; a `\b` boundary lies between a word character and a non-word character. */
  predicate IsWordChar(c: char) { IsAlnum(c) || c == '_' }

  predicate IsHexDigit(c: char) { IsDigit(c) || 'a' <= c <= 'f' || 'A' <= c <= 'F' }

  function LowerChar(c: char): char {
    if 'A' <= c <= 'Z' then (c as int + 32) as char else c
  }

  /** `toLowerCase`, restricted to ASCII letters. */
  function Lower(s: string): (r: string)
    ensures |r| == |s|
    ensures forall i :: 0 <= i < |s| ==> r[i] == LowerChar(s[i])
  {
    if s == [] then [] else [LowerChar(s[0])] + Lower(s[1..])
  }

  lemma {:induction false} LowerSlice(s: string, i: nat, j: nat)
    requires i <= j <= |s|
    ensures Lower(s)[i..j] == Lower(s[i..j])
  {
    var a, b := Lower(s)[i..j], Lower(s[i..j]);
    assert |a| == |b|;
    forall k | 0 <= k < |a| ensures a[k] == b[k] {
      assert a[k] == Lower(s)[i + k] == LowerChar(s[i + k]);
    }
  }

  predicate StartsWith(s: string, prefix: string) {
    |prefix| <= |s| && s[..|prefix|] == prefix
  }

  /** `sub` occurs in `s` at index `i`. */
  predicate OccursAt(s: string, sub: string, i: nat) {
    i + |sub| <= |s| && s[i..i + |sub|] == sub
  }

  /** `s.includes(sub)`: `sub` occurs at some index of `s`. */
  predicate Contains(s: string, sub: string) {
    exists i: nat :: i <= |s| && OccursAt(s, sub, i)
  }

  /** A string contains whatever is placed between two others. */
  lemma ContainsMiddle(a: string, b: string, c: string)
    ensures Contains(a + b + c, b)
  {
    var s := a + b + c;
    assert s[|a|..|a| + |b|] == b;
    assert OccursAt(s, b, |a|);
  }

  /** An occurrence of `sub` at index `i` of `s` makes `s` contain it. */
  lemma ContainsAt(s: string, sub: string, i: nat)
    requires i + |sub| <= |s| && s[i..i + |sub|] == sub
    ensures Contains(s, sub)
  {
    assert OccursAt(s, sub, i);
  }

  /** Conversely, containment yields an index at which `sub` occurs. */
  lemma ContainsIndex(s: string, sub: string) returns (i: nat)
    requires Contains(s, sub)
    ensures i + |sub| <= |s| && s[i..i + |sub|] == sub
  {
    i :| i <= |s| && OccursAt(s, sub, i);
  }

  /** Containment is transitive: whatever contains "female" contains "male". */
  lemma ContainsTransitive(s: string, mid: string, sub: string)
    requires Contains(s, mid) && Contains(mid, sub)
    ensures Contains(s, sub)
  {
    var i := ContainsIndex(s, mid);
    var j := ContainsIndex(mid, sub);
    assert forall m :: 0 <= m < |mid| ==> s[i + m] == mid[m] by {
      forall m | 0 <= m < |mid| ensures s[i + m] == mid[m] {
        assert s[i..i + |mid|][m] == mid[m];
      }
    }
    assert s[i + j..i + j + |sub|] == mid[j..j + |sub|];
    ContainsAt(s, sub, i + j);
  }

  /** The text contains `lit`, ignoring the case of ASCII letters (`lit` is lower case). */
  predicate ContainsLower(s: string, lit: string) {
    Contains(Lower(s), lit)
  }

  /** `s[p..]` begins with `lit` compared without regard to ASCII case (the `i` flag of a regex). */
  predicate MatchesAt(s: string, p: nat, lit: string) {
    p + |lit| <= |s| && Lower(s[p..p + |lit|]) == lit
  }

  /** Length of the longest run of characters satisfying `P` that starts at index `p`. */
  function RunLength(s: string, p: nat, P: char -> bool): (n: nat)
    ensures p + n <= |s| || (p > |s| && n == 0)
    ensures forall k :: p <= k < p + n ==> P(s[k])
    ensures p + n < |s| ==> !P(s[p + n])
    decreases |s| - p
  {
    if p < |s| && P(s[p]) then 1 + RunLength(s, p + 1, P) else 0
  }

  /** No element occurs twice. */
  ghost predicate Distinct<T>(s: seq<T>) {
    forall i, j :: 0 <= i < j < |s| ==> s[i] != s[j]
  }

  /** The elements of `s` without repetitions, each where it first occurs (what a JavaScript `Set` or `Map` keeps). */
  function FirstSeen<T(==)>(s: seq<T>): (r: seq<T>)
    ensures |r| <= |s|
  {
    if s == [] then []
    else
      var prev := FirstSeen(s[..|s| - 1]);
      if s[|s| - 1] in prev then prev else prev + [s[|s| - 1]]
  }

  /** Adding one element at the end: it is kept exactly when it is new. */
  lemma FirstSeenSnoc<T>(s: seq<T>, x: T)
    ensures FirstSeen(s + [x]) == if x in FirstSeen(s) then FirstSeen(s) else FirstSeen(s) + [x]
  {
    assert (s + [x])[..|s|] == s;
  }

  /** The index of the first occurrence of `x` in `s`. */
  function FirstIndex<T(==)>(s: seq<T>, x: T): (i: nat)
    requires x in s
    ensures i < |s| && s[i] == x && forall j :: 0 <= j < i ==> s[j] != x
  {
    if s[0] == x then 0 else 1 + FirstIndex(s[1..], x)
  }

  /**
   * `FirstSeen(s)` holds every element of `s` exactly once, and in the order
   * of their first occurrences in `s`.
   */
  lemma FirstSeenExact<T>(s: seq<T>)
    ensures Distinct(FirstSeen(s))
    ensures forall x :: x in FirstSeen(s) <==> x in s
    ensures forall i, j :: 0 <= i < j < |FirstSeen(s)| ==>
              FirstIndex(s, FirstSeen(s)[i]) < FirstIndex(s, FirstSeen(s)[j])
  {
    FirstSeenElements(s);
    FirstSeenDistinct(s);
    FirstSeenOrdered(s);
  }

  /** `FirstSeen(s)` holds exactly the elements of `s`. */
  lemma {:induction false} FirstSeenElements<T>(s: seq<T>)
    ensures forall x :: x in FirstSeen(s) <==> x in s
  {
    if s != [] {
      var init := s[..|s| - 1];
      assert s == init + [s[|s| - 1]];
      FirstSeenElements(init);
    }
  }

  /** No element occurs twice in `FirstSeen(s)`. */
  lemma {:induction false} FirstSeenDistinct<T>(s: seq<T>)
    ensures Distinct(FirstSeen(s))
  {
    if s != [] {
      FirstSeenDistinct(s[..|s| - 1]);
    }
  }

  /** `FirstSeen(s)` lists the elements in the order of their first occurrences in `s`. */
  lemma {:induction false} FirstSeenOrdered<T>(s: seq<T>)
    ensures forall x :: x in FirstSeen(s) ==> x in s
    ensures forall i, j :: 0 <= i < j < |FirstSeen(s)| ==>
              FirstIndex(s, FirstSeen(s)[i]) < FirstIndex(s, FirstSeen(s)[j])
  {
    FirstSeenElements(s);
    if s != [] {
      var init, x := s[..|s| - 1], s[|s| - 1];
      assert s == init + [x];
      FirstSeenOrdered(init);
      FirstSeenSnoc(init, x);
      var prev, fs := FirstSeen(init), FirstSeen(s);
      forall i, j | 0 <= i < j < |fs| ensures FirstIndex(s, fs[i]) < FirstIndex(s, fs[j]) {
        assert fs[i] == prev[i];
        FirstIndexPrefix(init, [x], prev[i]);
        if j < |prev| {
          assert fs[j] == prev[j];
          FirstIndexPrefix(init, [x], prev[j]);
        } else {
          assert fs[j] == x && x !in prev;
          FirstSeenElements(init);
          FirstIndexAppendNew(init, x);
        }
      }
    }
  }

  /** An element appended to a sequence that lacks it first occurs at the end. */
  lemma {:induction false} FirstIndexAppendNew<T>(a: seq<T>, x: T)
    requires x !in a
    ensures FirstIndex(a + [x], x) == |a|
  {
    if a != [] {
      assert (a + [x])[1..] == a[1..] + [x];
      FirstIndexAppendNew(a[1..], x);
    }
  }

  /** The first occurrence of an element of `a` in `a + b` is its first occurrence in `a`. */
  lemma {:induction false} FirstIndexPrefix<T>(a: seq<T>, b: seq<T>, y: T)
    requires y in a
    ensures FirstIndex(a + b, y) == FirstIndex(a, y)
  {
    if a[0] != y {
      assert (a + b)[1..] == a[1..] + b;
      FirstIndexPrefix(a[1..], b, y);
    }
  }

  /** A list without repetitions has as many elements as its set. */
  lemma {:induction false} DistinctCardinality<T>(s: seq<T>, t: set<T>)
    requires Distinct(s)
    requires forall x :: x in s <==> x in t
    ensures |s| == |t|
  {
    if s != [] {
      var last := s[|s| - 1];
      var init := s[..|s| - 1];
      assert forall x :: x in init <==> x in t - {last} by {
        forall x ensures x in init <==> x in t - {last} {
          if x in init {
            var i :| 0 <= i < |init| && init[i] == x;
            assert s[i] == x && i < |s| - 1;
          }
          if x in t - {last} {
            var i :| 0 <= i < |s| && s[i] == x;
            assert i != |s| - 1;
            assert init[i] == x;
          }
        }
      }
      DistinctCardinality(init, t - {last});
    } else {
      assert forall x :: x !in t;
      assert t == {};
    }
  }

  function TrimStart(s: string): (r: string)
    ensures |r| <= |s| && r == s[|s| - |r|..]
    ensures r == [] || !IsSpace(r[0])
    ensures forall k :: 0 <= k < |s| - |r| ==> IsSpace(s[k])
  {
    if s != [] && IsSpace(s[0]) then TrimStart(s[1..]) else s
  }

  function TrimEnd(s: string): (r: string)
    ensures |r| <= |s| && r == s[..|r|]
    ensures r == [] || !IsSpace(r[|r| - 1])
    ensures forall k :: |r| <= k < |s| ==> IsSpace(s[k])
  {
    if s != [] && IsSpace(s[|s| - 1]) then TrimEnd(s[..|s| - 1]) else s
  }

  /** `r` is the slice of `s` at `i`, with only white space before and after it. */
  predicate PaddedAt(s: string, r: string, i: nat) {
    i + |r| <= |s| && r == s[i..i + |r|]
    && (forall k :: 0 <= k < i ==> IsSpace(s[k]))
    && (forall k :: i + |r| <= k < |s| ==> IsSpace(s[k]))
  }

  /** `String.prototype.trim`. */
  function Trim(s: string): (r: string)
    ensures r == [] || (!IsSpace(r[0]) && !IsSpace(r[|r| - 1]))
    ensures exists i: nat :: PaddedAt(s, r, i)
  {
    TrimPadded(s);
    TrimEnd(TrimStart(s))
  }

  lemma TrimPadded(s: string)
    ensures PaddedAt(s, TrimEnd(TrimStart(s)), |s| - |TrimStart(s)|)
  {
    var t := TrimStart(s);
    var i := |s| - |t|;
    var r := TrimEnd(t);
    assert t == s[i..];
    assert r == t[..|r|];
    forall k | i + |r| <= k < |s| ensures IsSpace(s[k]) {
      assert s[k] == t[k - i];
    }
  }

  /** `Array.prototype.join(sep)`. */
  function Join(parts: seq<string>, sep: string): string {
    if parts == [] then ""
    else if |parts| == 1 then parts[0]
    else parts[0] + sep + Join(parts[1..], sep)
  }

  /** `s.split('/').pop()`: the text after the last slash, or all of `s` when it has none. */
  function LastSegment(s: string): (r: string)
    ensures '/' !in r
    ensures |r| <= |s| && r == s[|s| - |r|..]
    ensures |r| < |s| ==> s[|s| - |r| - 1] == '/'
  {
    if s == [] then []
    else if s[|s| - 1] == '/' then []
    else LastSegment(s[..|s| - 1]) + [s[|s| - 1]]
  }

  /** The text before the first slash (all of `s` when it has none). */
  function UntilSlash(s: string): (r: string)
    ensures '/' !in r
    ensures |r| <= |s| && r == s[..|r|]
    ensures |r| < |s| ==> s[|r|] == '/'
  {
    if s == [] || s[0] == '/' then [] else [s[0]] + UntilSlash(s[1..])
  }

  function DigitChar(d: nat): char
    requires d < 10
  {
    ('0' as int + d) as char
  }

  /** Decimal rendering of a natural number, as template literals print integers. */
  function NatToString(n: nat): (r: string)
    ensures |r| > 0 && forall k :: 0 <= k < |r| ==> IsDigit(r[k])
  {
    if n < 10 then [DigitChar(n)] else NatToString(n / 10) + [DigitChar(n % 10)]
  }

  function IntToString(i: int): string {
    if i < 0 then "-" + NatToString(-i) else NatToString(i)
  }

  /** The value of a run of decimal digits, as `parseInt` reads it. */
  function DigitsValue(s: string): nat
    requires forall k :: 0 <= k < |s| ==> IsDigit(s[k])
  {
    if s == [] then 0
    else
      assert IsDigit(s[|s| - 1]);
      10 * DigitsValue(s[..|s| - 1]) + (s[|s| - 1] as int - '0' as int)
  }

  /**
   * The smallest position in `from..to` satisfying `P`: how `String.prototype.match`
   * picks the leftmost start index at which a pattern succeeds.
   */
  function FirstWhere(P: nat -> bool, from: nat, to: nat): (r: Option<nat>)
    decreases to as int + 1 - from as int
    ensures r.Some? ==> from <= r.value <= to && P(r.value)
    ensures r.Some? ==> (forall q :: from <= q < r.value ==> !P(q))
    ensures r.None? ==> (forall q :: from <= q <= to ==> !P(q))
  {
    if from > to then None
    else if P(from) then Some(from)
    else FirstWhere(P, from + 1, to)
  }
}
