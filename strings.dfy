/** String operations of Python 2 and C as the modelled scripts and programs use them.
    Strings are sequences of characters; nothing is normalised. */
module Strs {
  import opened Wrappers
  import opened Seqs

  /** `p` occurs in `s` starting at index `i`. */
  predicate OccursAt(s: string, p: string, i: int)
  {
    0 <= i && i + |p| <= |s| && s[i..i + |p|] == p
  }

  /** Python's `s.find(p)`: the first index where `p` occurs, or -1. */
  function Find(s: string, p: string): (r: int)
    ensures -1 <= r <= |s|
    ensures r == -1 ==> forall i :: !OccursAt(s, p, i)
    ensures r >= 0 ==> OccursAt(s, p, r) && forall j :: 0 <= j < r ==> !OccursAt(s, p, j)
    decreases |s|
  {
    if |s| < |p| then
      assert forall i :: !OccursAt(s, p, i);
      -1
    else if p <= s then 0
    else
      var k := Find(s[1..], p);
      assert !OccursAt(s, p, 0) by { assert s[0..|p|] == s[..|p|]; }
      ShiftOccurs(s, p);
      if k < 0 then -1 else k + 1
  }

  lemma ShiftOccurs(s: string, p: string)
    requires |s| > 0
    ensures forall i :: 1 <= i ==> (OccursAt(s, p, i) <==> OccursAt(s[1..], p, i - 1))
  {
    forall i | 1 <= i
      ensures OccursAt(s, p, i) <==> OccursAt(s[1..], p, i - 1)
    {
      if i + |p| <= |s| {
        SliceOfSlice(s, 1, i - 1, i - 1 + |p|);
      }
    }
  }

  /** Python's `p in s`. */
  predicate Contains(s: string, p: string)
    decreases |s|
  {
    |p| <= |s| && (p <= s || Contains(s[1..], p))
  }

  /** `p in s` exactly when `s.find(p)` finds it. */
  lemma {:induction false} ContainsIffFind(s: string, p: string)
    ensures Contains(s, p) <==> Find(s, p) >= 0
    decreases |s|
  {
    if |p| <= |s| && !(p <= s) {
      ContainsIffFind(s[1..], p);
    }
  }

  lemma ContainsIff(s: string, p: string)
    ensures Contains(s, p) <==> exists i :: OccursAt(s, p, i)
  {
    ContainsIffFind(s, p);
  }

  lemma {:induction false} ContainsAppend(a: string, b: string, p: string)
    requires Contains(a, p) || Contains(b, p)
    ensures Contains(a + b, p)
  {
    if Contains(a, p) {
      ContainsIffFind(a, p);
      OccursInPrefix(a, b, p, Find(a, p));
    } else {
      ContainsIffFind(b, p);
      OccursInSuffix(a, b, p, Find(b, p));
    }
    ContainsIff(a + b, p);
  }

  lemma OccursInPrefix(a: string, b: string, p: string, i: int)
    requires OccursAt(a, p, i)
    ensures OccursAt(a + b, p, i)
  {
    assert (a + b)[i..i + |p|] == a[i..i + |p|];
  }

  lemma OccursInSuffix(a: string, b: string, p: string, i: int)
    requires OccursAt(b, p, i)
    ensures OccursAt(a + b, p, |a| + i)
  {
    assert (a + b)[|a| + i..|a| + i + |p|] == b[i..i + |p|];
  }

  /** `p` first occurs at `n` when it does not occur in the text before the end of
      that occurrence. */
  lemma FindFirst(s: string, p: string, n: int)
    requires |p| > 0 && OccursAt(s, p, n) && !Contains(s[..n + |p| - 1], p)
    ensures Find(s, p) == n
  {
    var m := n + |p| - 1;
    ContainsIff(s[..m], p);
    forall j | 0 <= j < n ensures !OccursAt(s, p, j) {
      assert !OccursAt(s[..m], p, j);
      assert s[..m][j..j + |p|] == s[j..j + |p|];
    }
  }

  /** The index of the first element satisfying `keep`, or -1: what a `for` loop that
      breaks on the first match stops at. */
  function FirstIndex<T>(s: seq<T>, keep: T -> bool): (k: int)
    ensures -1 <= k < |s|
    ensures k >= 0 ==> keep(s[k]) && forall j :: 0 <= j < k ==> !keep(s[j])
    ensures k == -1 ==> forall j :: 0 <= j < |s| ==> !keep(s[j])
    decreases |s|
  {
    if |s| == 0 then -1
    else if keep(s[0]) then 0
    else
      var k := FirstIndex(s[1..], keep);
      assert forall j :: 1 <= j < |s| ==> s[j] == s[1..][j - 1];
      if k < 0 then -1 else k + 1
  }

  /** A `for` loop over `s` that breaks on the first element satisfying `keep`. */
  method FirstMatch<T>(s: seq<T>, keep: T -> bool) returns (k: int)
    ensures k == FirstIndex(s, keep)
  {
    k := 0;
    while k < |s|
      invariant 0 <= k <= |s|
      invariant forall j :: 0 <= j < k ==> !keep(s[j])
    {
      if keep(s[k]) {
        return;
      }
      k := k + 1;
    }
    k := -1;
  }

  /** Python's `s.replace(p, r)`: one left-to-right pass replacing non-overlapping
      occurrences; an empty `p` inserts `r` before every character and at the end. */
  function Replace(s: string, p: string, r: string): string
    decreases |s|
  {
    if |p| == 0 then
      if |s| == 0 then r else r + [s[0]] + Replace(s[1..], p, r)
    else if |s| < |p| then s
    else if p <= s then r + Replace(s[|p|..], p, r)
    else [s[0]] + Replace(s[1..], p, r)
  }

  lemma {:induction false} ReplaceAbsent(s: string, p: string, r: string)
    requires |p| > 0 && !Contains(s, p)
    ensures Replace(s, p, r) == s
    decreases |s|
  {
    ContainsIffFind(s, p);
    if |s| >= |p| {
      assert !OccursAt(s, p, 0);
      assert s[0..|p|] == s[..|p|];
      assert !(p <= s);
      ShiftOccurs(s, p);
      assert forall i :: !OccursAt(s[1..], p, i) by {
        forall i ensures !OccursAt(s[1..], p, i) {
          assert !OccursAt(s, p, i + 1);
        }
      }
      ReplaceAbsent(s[1..], p, r);
    }
  }

  /** No occurrence of `p` in `a + b` starts inside `a` and ends inside `b`. */
  predicate NoStraddle(a: string, b: string, p: string)
  {
    forall i :: 0 <= i < |a| < i + |p| ==> !OccursAt(a + b, p, i)
  }

  /** Replacement distributes over a concatenation that no occurrence straddles. */
  lemma {:induction false} ReplaceAppend(a: string, b: string, p: string, r: string)
    requires |p| > 0 && NoStraddle(a, b, p)
    ensures Replace(a + b, p, r) == Replace(a, p, r) + Replace(b, p, r)
    decreases |a|
  {
    if |a| == 0 {
      assert a + b == b;
    } else if |a + b| < |p| {
      ShortUnchanged(a, p, r);
      ShortUnchanged(b, p, r);
    } else if |a| < |p| || !(p <= a) {
      NoStraddleTail(a, b, p);
      NotPrefixOfJoin(a, b, p);
      ReplaceAppend(a[1..], b, p, r);
      ReplaceStepSkip(a, b, p, r);
    } else {
      NoStraddleDrop(a, b, p, |p|);
      ReplaceAppend(a[|p|..], b, p, r);
      ReplaceStepMatch(a, b, p, r);
    }
  }

  /** The step of `ReplaceAppend` where `a` starts with `p`. */
  lemma ReplaceStepMatch(a: string, b: string, p: string, r: string)
    requires 0 < |p| <= |a| && p <= a
    requires Replace(a[|p|..] + b, p, r) == Replace(a[|p|..], p, r) + Replace(b, p, r)
    ensures Replace(a + b, p, r) == Replace(a, p, r) + Replace(b, p, r)
  {
    assert p <= a + b;
    assert (a + b)[|p|..] == a[|p|..] + b;
  }

  /** The step of `ReplaceAppend` where `a + b` does not start with `p`. */
  lemma ReplaceStepSkip(a: string, b: string, p: string, r: string)
    requires 0 < |p| <= |a + b| && 0 < |a| && !(p <= a + b) && (|a| < |p| || !(p <= a))
    requires Replace(a[1..] + b, p, r) == Replace(a[1..], p, r) + Replace(b, p, r)
    ensures Replace(a + b, p, r) == Replace(a, p, r) + Replace(b, p, r)
  {
    ReplaceSkipsFirst(a + b, p, r);
    if |a| < |p| {
      ShortSkipsFirst(a, p, r);
    } else {
      ReplaceSkipsFirst(a, p, r);
    }
    TailOfJoin(a, b);
    calc {
      Replace(a + b, p, r);
      [a[0]] + Replace(a[1..] + b, p, r);
      [a[0]] + (Replace(a[1..], p, r) + Replace(b, p, r));
      ([a[0]] + Replace(a[1..], p, r)) + Replace(b, p, r);
    }
  }

  lemma NotPrefixOfJoin(a: string, b: string, p: string)
    requires 0 < |p| <= |a + b| && 0 < |a| && NoStraddle(a, b, p) && (|a| < |p| || !(p <= a))
    ensures !(p <= a + b)
  {
    if |a| < |p| {
      assert !OccursAt(a + b, p, 0);
      assert (a + b)[0..|p|] == (a + b)[..|p|];
    } else {
      assert a[..|p|] == (a + b)[..|p|];
    }
  }

  lemma ReplaceSkipsFirst(s: string, p: string, r: string)
    requires 0 < |p| <= |s| && !(p <= s)
    ensures Replace(s, p, r) == [s[0]] + Replace(s[1..], p, r)
  {
  }

  lemma ShortSkipsFirst(s: string, p: string, r: string)
    requires 0 < |s| < |p|
    ensures Replace(s, p, r) == [s[0]] + Replace(s[1..], p, r)
  {
    ShortUnchanged(s, p, r);
    ShortUnchanged(s[1..], p, r);
    assert s == [s[0]] + s[1..];
  }

  lemma ShortUnchanged(s: string, p: string, r: string)
    requires |p| > 0 && |s| < |p|
    ensures Replace(s, p, r) == s
  {
  }

  lemma NoStraddleTail(a: string, b: string, p: string)
    requires |a| > 0 && NoStraddle(a, b, p)
    ensures NoStraddle(a[1..], b, p)
  {
    NoStraddleDrop(a, b, p, 1);
  }

  lemma NoStraddleDrop(a: string, b: string, p: string, k: nat)
    requires k <= |a| && NoStraddle(a, b, p)
    ensures NoStraddle(a[k..], b, p)
  {
    forall i | 0 <= i < |a[k..]| < i + |p|
      ensures !OccursAt(a[k..] + b, p, i)
    {
      assert !OccursAt(a + b, p, i + k);
      assert a + b == a[..k] + (a[k..] + b);
      if i + |p| <= |a[k..] + b| {
        SliceOfSlice(a + b, k, i, i + |p|);
        assert (a + b)[k..] == a[k..] + b;
      }
    }
  }

  /** Whitespace as Python's `str.strip()` and `int()` and C's `isspace` (default locale) see it. */
  predicate IsSpace(c: char)
  {
    c == ' ' || c == '\t' || c == '\n' || c == '\r' || c == 11 as char || c == 12 as char
  }

  function LStrip(s: string): (r: string)
    ensures |r| <= |s| && r == s[|s| - |r|..]
    ensures r == [] || !IsSpace(r[0])
    ensures forall i :: 0 <= i < |s| - |r| ==> IsSpace(s[i])
  {
    if |s| > 0 && IsSpace(s[0]) then LStrip(s[1..]) else s
  }

  function RStrip(s: string): (r: string)
    ensures |r| <= |s| && r == s[..|r|]
    ensures r == [] || !IsSpace(r[|r| - 1])
    ensures forall i :: |r| <= i < |s| ==> IsSpace(s[i])
  {
    if |s| > 0 && IsSpace(s[|s| - 1]) then RStrip(s[..|s| - 1]) else s
  }

  /** Python's `s.strip()`. */
  function Strip(s: string): string
  {
    LStrip(RStrip(s))
  }

  lemma StripUnchanged(s: string)
    requires s == [] || (!IsSpace(s[0]) && !IsSpace(s[|s| - 1]))
    ensures Strip(s) == s
  {
  }

  /** Python's `s[i:j]` for integer bounds, negative ones counting from the end. */
  function Slice(s: string, i: int, j: int): (r: string)
    ensures |r| <= |s|
  {
    var lo := Clamp(i, |s|);
    var hi := Clamp(j, |s|);
    if hi <= lo then [] else s[lo..hi]
  }

  function Clamp(i: int, n: nat): (k: nat)
    ensures k <= n
  {
    if i < 0 then (if i + n < 0 then 0 else i + n) else if i > n then n else i
  }

  /** `os.path.basename`: everything after the last '/'. */
  function Basename(s: string): (r: string)
    ensures '/' !in r && |r| <= |s| && r == s[|s| - |r|..]
    ensures |r| < |s| ==> s[|s| - |r| - 1] == '/'
    decreases |s|
  {
    if |s| == 0 then s
    else if s[|s| - 1] == '/' then []
    else Basename(s[..|s| - 1]) + [s[|s| - 1]]
  }

  lemma {:induction false} BasenameOfPath(dir: string, name: string)
    requires '/' !in name
    ensures Basename(dir + "/" + name) == name
    decreases |name|
  {
    if |name| == 0 {
    } else {
      var s := dir + "/" + name;
      assert s[..|s| - 1] == dir + "/" + name[..|name| - 1];
      BasenameOfPath(dir, name[..|name| - 1]);
    }
  }

  predicate IsDigit(c: char)
  {
    '0' <= c <= '9'
  }

  predicate AllDigits(s: string)
  {
    forall i :: 0 <= i < |s| ==> IsDigit(s[i])
  }

  /** The value of a string of decimal digits. */
  function DigitsValue(s: string): (n: nat)
    requires AllDigits(s)
  {
    if |s| == 0 then 0 else 10 * DigitsValue(s[..|s| - 1]) + (s[|s| - 1] - '0') as nat
  }

  /** Python 2's `int(s)` on a string: surrounding whitespace, an optional sign (which
      whitespace may follow) and at least one decimal digit; anything else raises
      ValueError (here None). */
  function PyInt(s: string): Option<int>
  {
    var t := Strip(s);
    if |t| > 0 && AllDigits(t) then Some(DigitsValue(t))
    else if |t| > 1 && (t[0] == '-' || t[0] == '+') then SignedValue(t[0] == '-', LStrip(t[1..]))
    else None
  }

  /** The value of the digits after a sign, or None when they are not all digits. */
  function SignedValue(negative: bool, digits: string): Option<int>
  {
    if |digits| == 0 || !AllDigits(digits) then None
    else if negative then Some(-(DigitsValue(digits) as int))
    else Some(DigitsValue(digits))
  }

  /** Decimal representation of a natural number, as Python's `str` and C's `%d` print it. */
  function NatToString(n: nat): (s: string)
    ensures |s| > 0 && AllDigits(s)
    ensures |s| > 1 ==> s[0] != '0'
  {
    if n < 10 then [('0' as int + n) as char]
    else NatToString(n / 10) + [('0' as int + n % 10) as char]
  }

  lemma {:induction false} NatToStringRoundTrip(n: nat)
    ensures DigitsValue(NatToString(n)) == n
  {
    if n >= 10 {
      NatToStringRoundTrip(n / 10);
      var s := NatToString(n);
      assert s[..|s| - 1] == NatToString(n / 10);
    }
  }

  /** `int(str(n)) == n`. */
  lemma PyIntOfNatToString(n: nat)
    ensures PyInt(NatToString(n)) == Some(n)
  {
    var s := NatToString(n);
    StripUnchanged(s);
    NatToStringRoundTrip(n);
  }

  /** Python's `str(i)` for an integer. */
  function IntToString(i: int): string
  {
    if i < 0 then "-" + NatToString(-i) else NatToString(i)
  }

  /** The longest prefix of `s` made of decimal digits. */
  function LeadingDigits(s: string): (d: string)
    ensures d <= s && AllDigits(d)
    ensures |d| == |s| || !IsDigit(s[|d|])
  {
    if |s| > 0 && IsDigit(s[0]) then [s[0]] + LeadingDigits(s[1..]) else []
  }

  /** C's `atoi`: skip leading whitespace, read an optional sign and as many digits as
      follow; no digits gives 0. Values outside `int` are undefined behaviour in C and
      are returned here as their mathematical value. */
  function Atoi(s: string): (v: int)
    ensures |s| > 0 && !IsSpace(s[0]) && s[0] != '-' && s[0] != '+' ==> v == DigitsValue(LeadingDigits(s))
  {
    if |s| > 0 && IsSpace(s[0]) then Atoi(s[1..])
    else if |s| > 0 && s[0] == '-' then -(DigitsValue(LeadingDigits(s[1..])) as int)
    else if |s| > 0 && s[0] == '+' then DigitsValue(LeadingDigits(s[1..]))
    else DigitsValue(LeadingDigits(s))
  }

  /** Python's string comparison `a < b` (lexicographic on character codes). */
  predicate LexLess(a: string, b: string)
  {
    if |a| == 0 then |b| > 0
    else if |b| == 0 then false
    else if a[0] != b[0] then a[0] < b[0]
    else LexLess(a[1..], b[1..])
  }

  lemma {:induction false} LexIrreflexive(a: string)
    ensures !LexLess(a, a)
  {
    if |a| > 0 { LexIrreflexive(a[1..]); }
  }

  lemma {:induction false} LexTransitive(a: string, b: string, c: string)
    requires LexLess(a, b) && LexLess(b, c)
    ensures LexLess(a, c)
  {
    if |a| > 0 && |b| > 0 && |c| > 0 && a[0] == b[0] && b[0] == c[0] {
      LexTransitive(a[1..], b[1..], c[1..]);
    }
  }

  lemma {:induction false} LexTotal(a: string, b: string)
    requires a != b
    ensures LexLess(a, b) || LexLess(b, a)
  {
    if |a| > 0 && |b| > 0 && a[0] == b[0] {
      assert a == [a[0]] + a[1..] && b == [b[0]] + b[1..];
      LexTotal(a[1..], b[1..]);
    }
  }

  lemma {:induction false} LexAsymmetric(a: string, b: string)
    requires LexLess(a, b)
    ensures !LexLess(b, a)
  {
    if |a| > 0 && |b| > 0 && a[0] == b[0] {
      LexAsymmetric(a[1..], b[1..]);
    }
  }

  predicate LexLessEq(a: string, b: string)
  {
    a == b || LexLess(a, b)
  }

  lemma LexAntisymmetric(a: string, b: string)
    requires LexLessEq(a, b) && LexLessEq(b, a)
    ensures a == b
  {
    if a != b { LexAsymmetric(a, b); }
  }

  predicate SortedStrings(s: seq<string>)
  {
    forall i, j :: 0 <= i < j < |s| ==> LexLessEq(s[i], s[j])
  }

  /** Insert `x` into a sorted list (Python's `sorted` gives the same list). */
  function Insert(x: string, s: seq<string>): (r: seq<string>)
    requires SortedStrings(s)
    ensures SortedStrings(r) && multiset(r) == multiset(s) + multiset{x}
  {
    if |s| == 0 then [x]
    else if LexLessEq(x, s[0]) then
      assert forall j :: 0 < j < |s| ==> LexLessEq(x, s[j]) by {
        forall j | 0 < j < |s| ensures LexLessEq(x, s[j]) {
          if x != s[0] && s[0] != s[j] { LexTransitive(x, s[0], s[j]); }
        }
      }
      [x] + s
    else
      var t := Insert(x, s[1..]);
      assert s == [s[0]] + s[1..];
      LexTotal(x, s[0]);
      assert forall j :: 0 <= j < |t| ==> LexLessEq(s[0], t[j]) by {
        forall j | 0 <= j < |t| ensures LexLessEq(s[0], t[j]) {
          assert t[j] in multiset(t);
          assert t[j] in multiset(s[1..]) || t[j] == x;
          if t[j] != x {
            var k :| 0 <= k < |s[1..]| && s[1..][k] == t[j];
            assert s[k + 1] == t[j];
          }
        }
      }
      [s[0]] + t
  }

  /** Python's `sorted(s)` for a list of strings. */
  function Sorted(s: seq<string>): (r: seq<string>)
    ensures SortedStrings(r) && multiset(r) == multiset(s)
  {
    if |s| == 0 then [] else
      assert s == s[..|s| - 1] + [s[|s| - 1]];
      Insert(s[|s| - 1], Sorted(s[..|s| - 1]))
  }

  /** A sorted list is fixed by its elements: sorting in any order gives the same list. */
  lemma {:induction false} SortedUnique(a: seq<string>, b: seq<string>)
    requires SortedStrings(a) && SortedStrings(b) && multiset(a) == multiset(b)
    ensures a == b
    decreases |a|
  {
    if |a| == 0 {
      assert |multiset(b)| == 0;
    } else {
      SortedSameHead(a, b);
      SameTailElements(a, b);
      SortedTail(a);
      SortedTail(b);
      SortedUnique(a[1..], b[1..]);
      HeadTail(a);
      HeadTail(b);
    }
  }

  /** Two sorted lists with the same elements start with the same string. */
  lemma SortedSameHead(a: seq<string>, b: seq<string>)
    requires SortedStrings(a) && SortedStrings(b) && multiset(a) == multiset(b) && |a| > 0
    ensures |b| > 0 && a[0] == b[0]
  {
    assert |b| > 0 by { assert |multiset(b)| == |multiset(a)| == |a|; }
    assert a[0] in multiset(b) && b[0] in multiset(a) by {
      assert a[0] in multiset(a) && b[0] in multiset(b);
    }
    var j :| 0 <= j < |b| && b[j] == a[0];
    var k :| 0 <= k < |a| && a[k] == b[0];
    assert LexLessEq(a[0], a[k]) by { assert k == 0 || LexLessEq(a[0], a[k]); }
    assert LexLessEq(b[0], b[j]) by { assert j == 0 || LexLessEq(b[0], b[j]); }
    LexAntisymmetric(a[0], b[0]);
  }

  lemma SameTailElements(a: seq<string>, b: seq<string>)
    requires |a| > 0 && |b| > 0 && a[0] == b[0] && multiset(a) == multiset(b)
    ensures multiset(a[1..]) == multiset(b[1..])
  {
    HeadTail(a);
    HeadTail(b);
    assert multiset(a) == multiset{a[0]} + multiset(a[1..]);
    assert multiset(b) == multiset{b[0]} + multiset(b[1..]);
    forall x ensures multiset(a[1..])[x] == multiset(b[1..])[x] {
      assert multiset(a)[x] == multiset(b)[x];
    }
  }

  lemma SortedTail(a: seq<string>)
    requires SortedStrings(a) && |a| > 0
    ensures SortedStrings(a[1..])
  {
    forall i, j | 0 <= i < j < |a| - 1 ensures LexLessEq(a[1..][i], a[1..][j]) {
      assert a[1..][i] == a[i + 1] && a[1..][j] == a[j + 1];
    }
  }

  /** Python's `sep.join(parts)`. */
  function Join(parts: seq<string>, sep: string): string
  {
    if |parts| == 0 then []
    else if |parts| == 1 then parts[0]
    else parts[0] + sep + Join(parts[1..], sep)
  }

  /** `"%Ns" % s`: right-justified in a field of width `w`, never truncated. */
  function PadLeft(s: string, w: nat): (r: string)
    ensures |r| == if |s| >= w then |s| else w
    ensures r[|r| - |s|..] == s
    ensures forall i :: 0 <= i < |r| - |s| ==> r[i] == ' '
  {
    if |s| >= w then s else seq(w - |s|, _ => ' ') + s
  }
}
