/** Helpers shared by the models of the audit platform: optional values, the
    string operations the Python and JavaScript sources use (lower-casing,
    substring and prefix tests, `str.strip`, integer formatting), counting over
    sequences, order-free deduplication, and the two rounding rules the sources
    use for scores (JavaScript `Math.round` and Python `round(x, 2)`). */
module Common {

  datatype Option<T> = None | Some(value: T)

  // ---------------------------------------------------------------------------
  // Characters and strings
  // ---------------------------------------------------------------------------

  /** Lower-cases one ASCII letter and leaves every other character alone. */
  function LowerChar(c: char): (r: char)
    ensures 'A' <= c <= 'Z' ==> 'a' <= r <= 'z' && r as int == c as int + 32
    ensures !('A' <= c <= 'Z') ==> r == c
  {
    if 'A' <= c <= 'Z' then (c as int + 32) as char else c
  }

  /** `str.lower()` / `String.prototype.toLowerCase()` restricted to ASCII letters. */
  function Lower(s: string): (r: string)
    ensures |r| == |s|
    ensures forall i :: 0 <= i < |s| ==> r[i] == LowerChar(s[i])
  {
    if s == [] then [] else [LowerChar(s[0])] + Lower(s[1..])
  }

  /** Lower-casing twice is the same as lower-casing once. */
  lemma LowerIdempotent(s: string)
    ensures Lower(Lower(s)) == Lower(s)
  {
    var a, b := Lower(Lower(s)), Lower(s);
    assert |a| == |b|;
    forall i | 0 <= i < |a| ensures a[i] == b[i] {
      assert a[i] == LowerChar(b[i]);
    }
  }

  /** A string without upper-case ASCII letters is its own lower-case form. */
  lemma LowerOfLowerCase(s: string)
    requires forall i :: 0 <= i < |s| ==> !('A' <= s[i] <= 'Z')
    ensures Lower(s) == s
  {
  }

  predicate StartsWith(s: string, prefix: string)
  {
    |prefix| <= |s| && s[..|prefix|] == prefix
  }

  /** Python's `sub in s` / JavaScript's `s.includes(sub)`. */
  predicate Contains(s: string, sub: string)
    decreases |s|
  {
    StartsWith(s, sub) || (s != [] && Contains(s[1..], sub))
  }

  /** `sub` occurs in `s` starting at position `k`. */
  predicate OccursAt(s: string, sub: string, k: int)
  {
    0 <= k <= |s| - |sub| && s[k..k + |sub|] == sub
  }

  /** `Contains` holds exactly when `sub` occurs at some position of `s`. */
  lemma {:induction false} ContainsAt(s: string, sub: string)
    ensures Contains(s, sub) <==> exists k :: OccursAt(s, sub, k)
    decreases |s|
  {
    if StartsWith(s, sub) {
      assert OccursAt(s, sub, 0);
    } else if s != [] {
      ContainsAt(s[1..], sub);
      if Contains(s[1..], sub) {
        var k :| OccursAt(s[1..], sub, k);
        assert s[k + 1..k + 1 + |sub|] == s[1..][k..k + |sub|];
        assert OccursAt(s, sub, k + 1);
      }
      if exists k :: OccursAt(s, sub, k) {
        var k :| OccursAt(s, sub, k);
        assert s[1..][k - 1..k - 1 + |sub|] == s[k..k + |sub|];
        assert OccursAt(s[1..], sub, k - 1);
      }
    }
  }

  /** The characters Python's argument-less `str.strip()` removes: those for
      which `str.isspace()` holds. */
  predicate IsSpace(c: char)
  {
    c == ' ' || c == '\t' || c == '\n' || c == '\r' || c == '\U{B}' || c == '\U{C}'
    || ('\U{1C}' <= c <= '\U{1F}') || c == '\U{85}' || c == '\U{A0}' || c == '\U{1680}'
    || ('\U{2000}' <= c <= '\U{200A}') || c == '\U{2028}' || c == '\U{2029}'
    || c == '\U{202F}' || c == '\U{205F}' || c == '\U{3000}'
  }

  function TrimStart(s: string): (r: string)
    ensures |r| <= |s| && r == s[|s| - |r|..]
    ensures forall k :: 0 <= k < |s| - |r| ==> IsSpace(s[k])
    ensures r != [] ==> !IsSpace(r[0])
  {
    if s != [] && IsSpace(s[0]) then TrimStart(s[1..]) else s
  }

  function TrimEnd(s: string): (r: string)
    ensures |r| <= |s| && r == s[..|r|]
    ensures forall k :: |r| <= k < |s| ==> IsSpace(s[k])
    ensures r != [] ==> !IsSpace(r[|r| - 1])
  {
    if s != [] && IsSpace(s[|s| - 1]) then TrimEnd(s[..|s| - 1]) else s
  }

  /** Python's `str.strip()`: the result is the slice of `s` that is left when
      all leading and trailing whitespace is removed. */
  function Strip(s: string): (r: string)
    ensures exists i, j :: 0 <= i <= j <= |s| && r == s[i..j]
                           && (forall k :: 0 <= k < i ==> IsSpace(s[k]))
                           && (forall k :: j <= k < |s| ==> IsSpace(s[k]))
    ensures r != [] ==> !IsSpace(r[0]) && !IsSpace(r[|r| - 1])
  {
    var t := TrimStart(s);
    var r := TrimEnd(t);
    var i := |s| - |t|;
    assert r == s[i..i + |r|];
    r
  }

  /** Stripping a string that has no outer whitespace leaves it unchanged. */
  lemma StripClean(s: string)
    requires s != [] ==> !IsSpace(s[0]) && !IsSpace(s[|s| - 1])
    ensures Strip(s) == s
  {
  }

  function DigitChar(d: nat): (c: char)
    requires d < 10
    ensures '0' <= c <= '9'
    ensures c as int - '0' as int == d
  {
    ('0' as int + d) as char
  }

  /** Decimal rendering of a natural number, as `str(n)` or `${n}` write it. */
  function NatToString(n: nat): (r: string)
    ensures |r| >= 1
    ensures forall i :: 0 <= i < |r| ==> '0' <= r[i] <= '9'
  {
    if n < 10 then [DigitChar(n)] else NatToString(n / 10) + [DigitChar(n % 10)]
  }

  /** Different numbers are written differently. */
  lemma {:induction false} NatToStringInjective(m: nat, n: nat)
    requires NatToString(m) == NatToString(n)
    ensures m == n
    decreases m + n
  {
    var a, b := NatToString(m), NatToString(n);
    if m >= 10 && n >= 10 {
      assert a[|a| - 1] == b[|b| - 1];
      assert a[..|a| - 1] == NatToString(m / 10);
      assert b[..|b| - 1] == NatToString(n / 10);
      NatToStringInjective(m / 10, n / 10);
    } else if m >= 10 || n >= 10 {
      assert false;
    } else {
      assert a[0] == b[0];
    }
  }

  // ---------------------------------------------------------------------------
  // Counting, deduplication
  // ---------------------------------------------------------------------------

  /** `sum(1 for x in s if p(x))` / `s.filter(p).length`. */
  function Count<T>(s: seq<T>, p: T -> bool): (r: nat)
    ensures r <= |s|
  {
    if s == [] then 0 else Count(s[..|s| - 1], p) + (if p(s[|s| - 1]) then 1 else 0)
  }

  /** `[x for x in s if p(x)]` / `s.filter(p)`, in input order. */
  function Filter<T(!new)>(s: seq<T>, p: T -> bool): (r: seq<T>)
    ensures |r| == Count(s, p)
    ensures forall i :: 0 <= i < |r| ==> p(r[i])
  {
    if s == [] then [] else
      var f := Filter(s[..|s| - 1], p);
      if p(s[|s| - 1]) then f + [s[|s| - 1]] else f
  }

  /** The filtered sequence holds exactly the elements of the input that satisfy
      the predicate. */
  lemma {:induction false} FilterMembers<T(!new)>(s: seq<T>, p: T -> bool)
    ensures forall x :: x in Filter(s, p) <==> x in s && p(x)
  {
    if s != [] {
      FilterMembers(s[..|s| - 1], p);
      assert forall x :: x in s <==> x in s[..|s| - 1] || x == s[|s| - 1];
    }
  }

  /** `r` lists the elements of `s` at the positions `idx`, which are in
      increasing order and are exactly the positions whose elements satisfy
      `p`: `r` is `s` with the other elements dropped and the order kept. */
  ghost predicate SelectsInOrder<T>(s: seq<T>, p: T -> bool, r: seq<T>, idx: seq<nat>)
  {
    && |idx| == |r|
    && (forall k :: 0 <= k < |idx| ==> idx[k] < |s| && s[idx[k]] == r[k] && p(s[idx[k]]))
    && (forall k, l :: 0 <= k < l < |idx| ==> idx[k] < idx[l])
    && (forall i :: 0 <= i < |s| && p(s[i]) ==> i in idx)
  }

  /** The positions `Filter` keeps, in increasing order. */
  ghost function FilterIndices<T>(s: seq<T>, p: T -> bool): seq<nat>
  {
    if s == [] then [] else
      var f := FilterIndices(s[..|s| - 1], p);
      if p(s[|s| - 1]) then f + [|s| - 1] else f
  }

  /** `Filter` keeps relative order: its result is the input with the
      elements that fail the predicate dropped. */
  lemma {:induction false} FilterInOrder<T(!new)>(s: seq<T>, p: T -> bool)
    ensures SelectsInOrder(s, p, Filter(s, p), FilterIndices(s, p))
  {
    if s != [] {
      var init, x := s[..|s| - 1], s[|s| - 1];
      FilterInOrder(init, p);
      var f, fi := Filter(init, p), FilterIndices(init, p);
      var r, idx := Filter(s, p), FilterIndices(s, p);
      forall k | 0 <= k < |fi| ensures idx[k] == fi[k] && r[k] == f[k] && s[fi[k]] == init[fi[k]] {
      }
      forall i | 0 <= i < |s| && p(s[i]) ensures i in idx {
        if i < |init| {
          assert init[i] == s[i];
          assert i in fi;
        } else {
          assert idx[|idx| - 1] == i;
        }
      }
    }
  }

  /** Filtering a sequence extended by one element extends the filtered result
      by that element exactly when it satisfies the predicate. */
  lemma FilterSnoc<T(!new)>(s: seq<T>, x: T, p: T -> bool)
    ensures Filter(s + [x], p) == if p(x) then Filter(s, p) + [x] else Filter(s, p)
  {
    assert (s + [x])[..|s + [x]| - 1] == s;
  }

  lemma {:induction false} CountAppend<T>(a: seq<T>, b: seq<T>, p: T -> bool)
    ensures Count(a + b, p) == Count(a, p) + Count(b, p)
    decreases |b|
  {
    if b == [] {
      assert a + b == a;
    } else {
      assert (a + b)[..|a + b| - 1] == a + b[..|b| - 1];
      CountAppend(a, b[..|b| - 1], p);
    }
  }

  /** A count under a weaker predicate is at least the count under a stronger one. */
  lemma {:induction false} CountMono<T>(s: seq<T>, p: T -> bool, q: T -> bool)
    requires forall i :: 0 <= i < |s| && p(s[i]) ==> q(s[i])
    ensures Count(s, p) <= Count(s, q)
  {
    if s != [] {
      CountMono(s[..|s| - 1], p, q);
    }
  }

  /** The counts of two predicates that never hold together add up to the count
      of their disjunction. */
  lemma {:induction false} CountDisjoint<T>(s: seq<T>, p: T -> bool, q: T -> bool, pq: T -> bool)
    requires forall i :: 0 <= i < |s| ==> (pq(s[i]) <==> p(s[i]) || q(s[i]))
    requires forall i :: 0 <= i < |s| ==> !(p(s[i]) && q(s[i]))
    ensures Count(s, p) + Count(s, q) == Count(s, pq)
  {
    if s != [] {
      CountDisjoint(s[..|s| - 1], p, q, pq);
    }
  }

  /** Counting under two predicates that agree on every element gives one number. */
  lemma {:induction false} CountSame<T>(s: seq<T>, p: T -> bool, q: T -> bool)
    requires forall i :: 0 <= i < |s| ==> (p(s[i]) <==> q(s[i]))
    ensures Count(s, p) == Count(s, q)
  {
    if s != [] {
      CountSame(s[..|s| - 1], p, q);
    }
  }

  /** A predicate that holds on every element counts every element. */
  lemma {:induction false} CountAll<T>(s: seq<T>, p: T -> bool)
    requires forall i :: 0 <= i < |s| ==> p(s[i])
    ensures Count(s, p) == |s|
  {
    if s != [] {
      assert forall i :: 0 <= i < |s| - 1 ==> s[..|s| - 1][i] == s[i];
      CountAll(s[..|s| - 1], p);
    }
  }

  /** Replacing elements one for one, never turning a non-satisfying element
      into a satisfying one, cannot raise the count. */
  lemma {:induction false} CountPointwiseMono<T>(a: seq<T>, b: seq<T>, p: T -> bool)
    requires |a| == |b|
    requires forall i :: 0 <= i < |a| && p(b[i]) ==> p(a[i])
    ensures Count(b, p) <= Count(a, p)
  {
    if a != [] {
      CountPointwiseMono(a[..|a| - 1], b[..|b| - 1], p);
    }
  }

  /** A predicate no element satisfies counts nothing. */
  lemma {:induction false} CountNone<T>(s: seq<T>, p: T -> bool)
    requires forall i :: 0 <= i < |s| ==> !p(s[i])
    ensures Count(s, p) == 0
  {
    if s != [] {
      assert forall i :: 0 <= i < |s| - 1 ==> s[..|s| - 1][i] == s[i];
      CountNone(s[..|s| - 1], p);
    }
  }

  /** A predicate that holds at exactly one position counts one. */
  lemma {:induction false} CountOne<T>(s: seq<T>, p: T -> bool, m: int)
    requires 0 <= m < |s|
    requires forall i :: 0 <= i < |s| ==> (p(s[i]) <==> i == m)
    ensures Count(s, p) == 1
  {
    var k := |s|;
    if k - 1 > m {
      CountOne(s[..k - 1], p, m);
    } else {
      CountNone(s[..k - 1], p);
    }
  }

  /** A predicate that holds at exactly two positions counts two. */
  lemma {:induction false} CountTwo<T>(s: seq<T>, p: T -> bool, m: int, n: int)
    requires 0 <= m < n < |s|
    requires forall i :: 0 <= i < |s| ==> (p(s[i]) <==> i == m || i == n)
    ensures Count(s, p) == 2
  {
    var k := |s|;
    if k - 1 > n {
      CountTwo(s[..k - 1], p, m, n);
    } else {
      CountOne(s[..k - 1], p, m);
    }
  }

  /** A positive count has an element that satisfies the predicate. */
  lemma {:induction false} CountPositiveWitness<T>(s: seq<T>, p: T -> bool)
    requires Count(s, p) > 0
    ensures exists i :: 0 <= i < |s| && p(s[i])
  {
    if !p(s[|s| - 1]) {
      CountPositiveWitness(s[..|s| - 1], p);
      var i :| 0 <= i < |s| - 1 && p(s[..|s| - 1][i]);
      assert s[i] == s[..|s| - 1][i];
    }
  }

  /** A zero count means no element satisfies the predicate. */
  lemma {:induction false} NoWitnessCountZero<T>(s: seq<T>, p: T -> bool)
    requires Count(s, p) == 0
    ensures forall i :: 0 <= i < |s| ==> !p(s[i])
  {
    if s != [] {
      NoWitnessCountZero(s[..|s| - 1], p);
      assert forall i :: 0 <= i < |s| - 1 ==> s[i] == s[..|s| - 1][i];
    }
  }

  /** The present values of a sequence of optional values, in order, as
      `[r for r in rs if r is not None]` keeps them. */
  function Somes<T(!new)>(s: seq<Option<T>>): (r: seq<T>)
    ensures |r| <= |s|
    ensures forall x :: x in r <==> Some(x) in s
  {
    if s == [] then [] else
      var init := Somes(s[..|s| - 1]);
      assert forall o :: o in s <==> o in s[..|s| - 1] || o == s[|s| - 1];
      match s[|s| - 1]
      case Some(x) => init + [x]
      case None => init
  }

  predicate Distinct<T(==)>(s: seq<T>)
  {
    forall i, j :: 0 <= i < j < |s| ==> s[i] != s[j]
  }

  /** The elements of `s` once each, in order of first occurrence (the keys
      of a dict or object filled from `s`). */
  function FirstOccurrences<T(==,!new)>(s: seq<T>): (r: seq<T>)
    ensures Distinct(r)
    ensures forall x :: x in r <==> x in s
  {
    if s == [] then [] else
      var d := FirstOccurrences(s[..|s| - 1]);
      var x := s[|s| - 1];
      assert forall y :: y in s <==> y in s[..|s| - 1] || y == x;
      if x in d then d else d + [x]
  }

  /** `FirstOccurrences` keeps the order of first occurrence: every
      occurrence of a later element comes after an occurrence of each
      earlier one. */
  lemma {:induction false} FirstOccurrencesOrder<T(!new)>(s: seq<T>, i: nat, j: nat, q: nat)
    requires i < j < |FirstOccurrences(s)| && q < |s| && s[q] == FirstOccurrences(s)[j]
    ensures exists p :: 0 <= p < q && s[p] == FirstOccurrences(s)[i]
  {
    var init, x := s[..|s| - 1], s[|s| - 1];
    var d, r := FirstOccurrences(init), FirstOccurrences(s);
    assert r[i] == d[i] && d[i] in d;
    assert d[i] in init;
    if j < |d| {
      var q0 := q;
      if q == |init| {
        assert r[j] == d[j] && d[j] in d;
        assert d[j] in init;
        q0 :| 0 <= q0 < |init| && init[q0] == d[j];
      } else {
        assert init[q] == s[q];
      }
      FirstOccurrencesOrder(init, i, j, q0);
      var p :| 0 <= p < q0 && init[p] == d[i];
      assert s[p] == init[p];
    } else {
      var p :| 0 <= p < |init| && init[p] == d[i];
      assert s[p] == init[p];
      assert r[j] == x && x !in init;
      assert forall k :: 0 <= k < |init| ==> init[k] == s[k];
      assert q == |init|;
    }
  }

  /** A duplicate-free sequence with exactly the elements of `s`, as
      `list(set(s))` produces. The source gives no order guarantee, so callers
      rely only on the two properties stated here. */
  function Dedup<T(==,!new)>(s: seq<T>): (r: seq<T>)
    ensures Distinct(r)
    ensures forall x :: x in r <==> x in s
    ensures |r| <= |s|
  {
    var r := FirstOccurrences(s);
    DistinctCard(r);
    assert (set x | x in r) == (set x | x in s);
    SetOfSeqBound(s);
    r
  }

  /** A sequence has at least as many elements as the set of them. */
  lemma {:induction false} SetOfSeqBound<T>(s: seq<T>)
    ensures |set x | x in s| <= |s|
  {
    if s != [] {
      var init := s[..|s| - 1];
      SetOfSeqBound(init);
      assert (set x | x in s) == (set x | x in init) + {s[|s| - 1]};
    }
  }

  /** A duplicate-free sequence is exactly as long as the set of its elements. */
  lemma {:induction false} DistinctCard<T>(s: seq<T>)
    requires Distinct(s)
    ensures |set x | x in s| == |s|
  {
    if s != [] {
      var init := s[..|s| - 1];
      DistinctCard(init);
      var last := s[|s| - 1];
      assert last !in init;
      assert (set x | x in s) == (set x | x in init) + {last};
    }
  }

  /** Two duplicate-free sequences with the same elements have the same length. */
  lemma SameElementsSameLength<T>(a: seq<T>, b: seq<T>)
    requires Distinct(a) && Distinct(b)
    requires forall x :: x in a <==> x in b
    ensures |a| == |b|
  {
    DistinctCard(a);
    DistinctCard(b);
    assert (set x | x in a) == (set x | x in b);
  }

  function Min(a: int, b: int): int { if a <= b then a else b }

  /** Python's `<` on strings: lexicographic by code point, a proper prefix
      before any extension of it. */
  predicate LexLess(a: string, b: string)
    decreases |a|
  {
    if a == [] then b != []
    else b != [] && (a[0] < b[0] || (a[0] == b[0] && LexLess(a[1..], b[1..])))
  }

  // ---------------------------------------------------------------------------
  // Rounding
  // ---------------------------------------------------------------------------

  /** `compliant / total * 100`, guarded to 0 for an empty batch: the
      batch score of the portal and of the example agent. */
  function CompliancePercent(compliant: nat, total: nat): (r: real)
    requires compliant <= total
    ensures 0.0 <= r <= 100.0
    ensures total == 0 ==> r == 0.0
    ensures total > 0 ==> r * total as real == 100.0 * compliant as real
  {
    if total > 0 then (compliant as real / total as real) * 100.0 else 0.0
  }

  /** JavaScript `Math.round(p / q)` for a quotient of integers with `q > 0`:
      the nearest integer, halves rounded up. */
  function MathRound(p: int, q: int): (r: int)
    requires q > 0
    ensures q * (2 * r - 1) <= 2 * p < q * (2 * r + 1)
  {
    (2 * p + q) / (2 * q)
  }

  /** Integer division by a positive divisor keeps a bound on the dividend. */
  lemma DivBelow(a: int, b: int, m: int)
    requires b > 0 && 0 <= a < b * m
    ensures 0 <= a / b < m
  {
    var d := a / b;
    assert a == b * d + a % b;
    assert b * d < b * m;
  }

  /** A rounded quotient stays within the integer bounds of the quotient. */
  lemma MathRoundBounds(p: int, q: int, k: nat)
    requires q > 0 && 0 <= p <= k * q
    ensures 0 <= MathRound(p, q) <= k
  {
    assert 2 * p + q < (2 * q) * (k + 1);
    DivBelow(2 * p + q, 2 * q, k + 1);
  }

  /** A non-zero integer multiple of a positive `b` is at least `b` away from 0. */
  lemma {:induction false} MulAtLeast(b: int, t: int)
    requires b > 0
    ensures t >= 1 ==> b * t >= b
    ensures t <= -1 ==> b * t <= -b
    decreases if t < 0 then -t else t
  {
    if t > 1 {
      MulAtLeast(b, t - 1);
      assert b * t == b * (t - 1) + b;
    } else if t < -1 {
      MulAtLeast(b, t + 1);
      assert b * t == b * (t + 1) - b;
    }
  }

  /** The quotient of an integer division is pinned down by bounds on the dividend. */
  lemma DivIs(a: int, b: int, m: int)
    requires b > 0 && b * m <= a < b * (m + 1)
    ensures a / b == m
  {
    var d := a / b;
    var r := a % b;
    assert a == b * d + r && 0 <= r < b;
    assert b * (m - d) == b * m - b * d;
    assert b * (m + 1) == b * m + b;
    MulAtLeast(b, m - d);
  }

  /** A percentage `Math.round(a / b * 100)` of a part `a <= b` lies in [0, 100],
      and is 100 for the whole and 0 for nothing. */
  lemma PercentBounds(a: nat, b: nat)
    requires 0 < b && a <= b
    ensures 0 <= MathRound(100 * a, b) <= 100
    ensures a == b ==> MathRound(100 * a, b) == 100
    ensures a == 0 ==> MathRound(100 * a, b) == 0
  {
    MathRoundBounds(100 * a, b, 100);
    if a == b {
      DivIs(2 * (100 * a) + b, 2 * b, 100);
    }
    if a == 0 {
      DivIs(b, 2 * b, 0);
    }
  }

  /** Python's `round(y)` on an exact value: the nearest integer, halves to even. */
  function RoundHalfEven(y: real): (r: int)
    ensures -0.5 <= r as real - y <= 0.5
  {
    var f := y.Floor;
    var frac := y - f as real;
    if frac < 0.5 then f
    else if frac > 0.5 then f + 1
    else if f % 2 == 0 then f
    else f + 1
  }

  /** Python's `round(x, 2)`, taken on the exact value of `x`. */
  function PyRound2(x: real): (r: real)
    ensures -0.005 <= r - x <= 0.005
  {
    RoundHalfEven(x * 100.0) as real / 100.0
  }

  /** Rounding to two places keeps a value inside [0, 100]. */
  lemma PyRound2Bounds(x: real)
    requires 0.0 <= x <= 100.0
    ensures 0.0 <= PyRound2(x) <= 100.0
  {
    var y := x * 100.0;
    var n := RoundHalfEven(y);
    assert 0.0 <= y <= 10000.0;
    assert n >= 0;
    assert n <= 10000;
  }

  /** A value with at most one decimal place of halves (a whole number or a
      half, such as the mean of two integers) is unchanged by `round(x, 2)`. */
  lemma PyRound2OfHalves(k: int)
    ensures PyRound2(k as real / 2.0) == k as real / 2.0
  {
    var y := (k as real / 2.0) * 100.0;
    assert y == (50 * k) as real;
    assert y.Floor == 50 * k;
  }

  // ---------------------------------------------------------------------------
  // Association lists: JavaScript objects with string keys, in insertion order
  // ---------------------------------------------------------------------------

  /** `Object.keys(o)`. */
  function Keys<V>(s: seq<(string, V)>): (r: seq<string>)
    ensures |r| == |s|
    ensures forall i :: 0 <= i < |s| ==> r[i] == s[i].0
  {
    seq(|s|, i requires 0 <= i < |s| => s[i].0)
  }

  /** `o[k]`: the value stored under `k`, if any. */
  function Lookup<V>(s: seq<(string, V)>, k: string): (r: Option<V>)
    ensures r.None? <==> k !in Keys(s)
    ensures r.Some? ==> (k, r.value) in s
  {
    if s == [] then None
    else
      assert Keys(s) == [s[0].0] + Keys(s[1..]);
      if s[0].0 == k then Some(s[0].1) else Lookup(s[1..], k)
  }

  /** `{...o, [k]: v}` for a key `o` already has: the entry keeps its place. */
  function Put<V>(s: seq<(string, V)>, k: string, v: V): (r: seq<(string, V)>)
    ensures Keys(r) == Keys(s)
  {
    seq(|s|, i requires 0 <= i < |s| => if s[i].0 == k then (k, v) else s[i])
  }

  /** With distinct keys, each entry is what its key looks up. */
  lemma {:induction false} LookupDistinct<V>(s: seq<(string, V)>, i: int)
    requires Distinct(Keys(s))
    requires 0 <= i < |s|
    ensures Lookup(s, s[i].0) == Some(s[i].1)
  {
    if i > 0 {
      assert Keys(s)[0] != Keys(s)[i];
      assert Keys(s[1..]) == Keys(s)[1..];
      LookupDistinct(s[1..], i - 1);
    }
  }

  /** Reading a key back after writing it gives the written value. */
  lemma {:induction false} LookupPutSame<V>(s: seq<(string, V)>, k: string, v: V)
    requires k in Keys(s)
    ensures Lookup(Put(s, k, v), k) == Some(v)
  {
    assert Keys(s) == [s[0].0] + Keys(s[1..]);
    if s[0].0 != k {
      assert Put(s, k, v)[1..] == Put(s[1..], k, v);
      LookupPutSame(s[1..], k, v);
    }
  }

  /** Writing one key leaves every other key's value as it was. */
  lemma {:induction false} LookupPutOther<V>(s: seq<(string, V)>, k: string, v: V, other: string)
    requires other != k
    ensures Lookup(Put(s, k, v), other) == Lookup(s, other)
  {
    if s != [] {
      assert Put(s, k, v)[1..] == Put(s[1..], k, v);
      LookupPutOther(s[1..], k, v, other);
    }
  }

  /** `{...o, [k]: v}` for any key: an existing entry keeps its place, a new
      key goes last. */
  function Assign<V>(s: seq<(string, V)>, k: string, v: V): (r: seq<(string, V)>)
    ensures k in Keys(s) ==> Keys(r) == Keys(s)
    ensures k !in Keys(s) ==> Keys(r) == Keys(s) + [k]
    ensures Lookup(r, k) == Some(v)
    ensures forall other :: other != k ==> Lookup(r, other) == Lookup(s, other)
  {
    if k in Keys(s) then
      LookupPutSame(s, k, v);
      forall other | other != k
        ensures Lookup(Put(s, k, v), other) == Lookup(s, other)
      {
        LookupPutOther(s, k, v, other);
      }
      Put(s, k, v)
    else
      LookupAppend(s, k, v);
      assert Keys(s + [(k, v)]) == Keys(s) + [k];
      s + [(k, v)]
  }

  /** Appending an entry under a new key: that key finds it, the others are
      found as before. */
  lemma {:induction false} LookupAppend<V>(s: seq<(string, V)>, k: string, v: V)
    requires k !in Keys(s)
    ensures Lookup(s + [(k, v)], k) == Some(v)
    ensures forall other :: other != k ==> Lookup(s + [(k, v)], other) == Lookup(s, other)
  {
    if s != [] {
      assert (s + [(k, v)])[1..] == s[1..] + [(k, v)];
      assert Keys(s) == [s[0].0] + Keys(s[1..]);
      LookupAppend(s[1..], k, v);
    }
  }

  /** Assigning a key a value the predicate rejects, where the value it
      replaces (if any) was rejected too, leaves the count as it was. */
  lemma CountAssignNeutral<V>(s: seq<(string, V)>, k: string, v: V, p: ((string, V)) -> bool)
    requires Distinct(Keys(s))
    requires !p((k, v))
    requires Lookup(s, k).Some? ==> !p((k, Lookup(s, k).value))
    ensures Count(Assign(s, k, v), p) == Count(s, p)
  {
    if k in Keys(s) {
      var r := Put(s, k, v);
      forall i | 0 <= i < |s|
        ensures p(r[i]) <==> p(s[i])
      {
        assert r[i] == if s[i].0 == k then (k, v) else s[i];
        if s[i].0 == k {
          LookupDistinct(s, i);
        }
      }
      CountPointwiseMono(s, r, p);
      CountPointwiseMono(r, s, p);
    } else {
      assert (s + [(k, v)])[..|s|] == s;
    }
  }

  // ---------------------------------------------------------------------------
  // JavaScript own-property key order
  // ---------------------------------------------------------------------------

  /** The value of a string of decimal digits. */
  function DecimalValue(k: string): nat
  {
    if k == [] then 0
    else
      var c := k[|k| - 1];
      DecimalValue(k[..|k| - 1]) * 10 + (if '0' <= c <= '9' then c as int - '0' as int else 0)
  }

  /** An array index: the canonical decimal form (no sign, no leading zero)
      of an integer below 2^32 − 1. Ordinary objects list these keys first,
      by value (ECMAScript, OrdinaryOwnPropertyKeys). */
  predicate IsIndexKey(k: string)
  {
    && |k| > 0
    && (forall i :: 0 <= i < |k| ==> '0' <= k[i] <= '9')
    && (k[0] == '0' ==> |k| == 1)
    && DecimalValue(k) < 0xFFFF_FFFF
  }

  predicate NotIndexKey(k: string)
  {
    !IsIndexKey(k)
  }

  /** The keys are in ascending numeric order. */
  predicate AscendingByValue(s: seq<string>)
  {
    forall i, j :: 0 <= i < j < |s| ==> DecimalValue(s[i]) <= DecimalValue(s[j])
  }

  /** `x` put in its place in an ascending sequence. */
  function InsertByValue(x: string, s: seq<string>): (r: seq<string>)
    ensures multiset(r) == multiset(s) + multiset{x}
    ensures |r| == |s| + 1
    ensures AscendingByValue(s) ==> AscendingByValue(r)
  {
    if s == [] then [x]
    else if DecimalValue(x) <= DecimalValue(s[0]) then
      assert AscendingByValue(s) ==> AscendingByValue([x] + s) by {
        if AscendingByValue(s) {
          forall i, j | 0 <= i < j < |[x] + s| ensures DecimalValue(([x] + s)[i]) <= DecimalValue(([x] + s)[j]) {
            if i > 0 {
              assert ([x] + s)[i] == s[i - 1] && ([x] + s)[j] == s[j - 1];
            } else {
              assert ([x] + s)[j] == s[j - 1];
            }
          }
        }
      }
      assert s == [s[0]] + s[1..];
      [x] + s
    else
      var rest := InsertByValue(x, s[1..]);
      assert s == [s[0]] + s[1..];
      InsertAfterHead(x, s, rest);
      [s[0]] + rest
  }

  /** When `x` goes after the head, the head still comes first. */
  lemma InsertAfterHead(x: string, s: seq<string>, rest: seq<string>)
    requires s != [] && DecimalValue(s[0]) < DecimalValue(x)
    requires multiset(rest) == multiset(s[1..]) + multiset{x}
    requires AscendingByValue(s) ==> AscendingByValue(rest)
    ensures AscendingByValue(s) ==> AscendingByValue([s[0]] + rest)
  {
    if AscendingByValue(s) {
      var r := [s[0]] + rest;
      forall j | 0 <= j < |rest| ensures DecimalValue(s[0]) <= DecimalValue(rest[j]) {
        assert rest[j] in multiset(rest);
        if rest[j] != x {
          assert rest[j] in multiset(s[1..]);
          var k :| 0 <= k < |s[1..]| && s[1..][k] == rest[j];
          assert s[k + 1] == rest[j];
        }
      }
      forall i, j | 0 <= i < j < |r| ensures DecimalValue(r[i]) <= DecimalValue(r[j]) {
        assert r[j] == rest[j - 1];
        if i > 0 {
          assert r[i] == rest[i - 1];
        }
      }
    }
  }

  /** The keys in ascending numeric order (an insertion sort). */
  function SortByValue(s: seq<string>): (r: seq<string>)
    ensures multiset(r) == multiset(s)
    ensures AscendingByValue(r)
  {
    if s == [] then []
    else
      assert s == [s[0]] + s[1..];
      InsertByValue(s[0], SortByValue(s[1..]))
  }

  /** `n` splits `r` into its array-index keys, in ascending numeric order,
      and the other keys after them. */
  predicate IndexKeysFirst(r: seq<string>, n: nat)
  {
    && n <= |r|
    && (forall i :: 0 <= i < n ==> IsIndexKey(r[i]))
    && AscendingByValue(r[..n])
    && (forall i :: n <= i < |r| ==> !IsIndexKey(r[i]))
  }

  /** `Object.keys(o)` of an object whose keys were created in the order
      `keys`: the array-index keys first by value, then the others in
      creation order. */
  function ObjectKeyOrder(keys: seq<string>): (r: seq<string>)
    ensures multiset(r) == multiset(keys)
    ensures IndexKeysFirst(r, Count(keys, IsIndexKey))
    ensures r[Count(keys, IsIndexKey)..] == Filter(keys, NotIndexKey)
  {
    var front, back := SortByValue(Filter(keys, IsIndexKey)), Filter(keys, NotIndexKey);
    FilterSplitMultiset(keys, IsIndexKey, NotIndexKey);
    forall i | 0 <= i < |front| ensures IsIndexKey(front[i]) {
      assert front[i] in multiset(Filter(keys, IsIndexKey));
      var k :| 0 <= k < |Filter(keys, IsIndexKey)| && Filter(keys, IsIndexKey)[k] == front[i];
    }
    assert (front + back)[..|front|] == front;
    assert (front + back)[|front|..] == back;
    front + back
  }

  /** A predicate and its negation split a sequence's multiset in two. */
  lemma {:induction false} FilterSplitMultiset<T(!new)>(s: seq<T>, p: T -> bool, q: T -> bool)
    requires forall x :: q(x) == !p(x)
    ensures multiset(Filter(s, p)) + multiset(Filter(s, q)) == multiset(s)
    ensures |Filter(s, p)| == Count(s, p)
  {
    if s != [] {
      var init := s[..|s| - 1];
      FilterSplitMultiset(init, p, q);
      assert s == init + [s[|s| - 1]];
    }
  }

  /** A permutation of a duplicate-free sequence is duplicate-free. */
  lemma PermutationDistinct<T>(a: seq<T>, b: seq<T>)
    requires multiset(a) == multiset(b) && Distinct(a)
    ensures Distinct(b)
  {
    forall i, j | 0 <= i < j < |b| ensures b[i] != b[j] {
      if b[i] == b[j] {
        assert multiset(b)[b[i]] >= 2 by {
          assert b == b[..i] + [b[i]] + b[i + 1..j] + [b[j]] + b[j + 1..];
        }
        DistinctOccursOnce(a, b[i]);
        assert false;
      }
    }
  }

  lemma {:induction false} DistinctOccursOnce<T>(a: seq<T>, x: T)
    requires Distinct(a)
    ensures multiset(a)[x] <= 1
  {
    if a != [] {
      var init := a[..|a| - 1];
      assert Distinct(init);
      DistinctOccursOnce(init, x);
      assert a == init + [a[|a| - 1]];
      assert a[|a| - 1] !in init;
    }
  }
}
