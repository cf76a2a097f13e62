/**
 * Shared vocabulary for the four financial screens: optional values and results,
 * the JavaScript ordering of strings (ISO dates are compared as strings), the
 * JavaScript `||` on amounts held in integer cents, and the filter, fold and
 * stable sort that the screens apply to their lists.
 */
module Common {

  datatype Option<+T> = None | Some(value: T)

  datatype Result<+T, +E> = Ok(value: T) | Err(error: E)

  /** JavaScript `a || b` on an amount: zero (falsy, or absent and read as 0) falls back to `b`. */
  function Or(a: int, b: int): int
  {
    if a != 0 then a else b
  }

  /** A JavaScript string is truthy iff it is not empty. */
  predicate Present(s: string)
  {
    s != []
  }

  /** JavaScript `a || b` on strings: the empty (or absent) string falls back to `b`. */
  function OrElse(a: string, b: string): string
  {
    if Present(a) then a else b
  }

  /** The decimal digits of `n`, as a template literal `${n}` writes them. */
  function NatToString(n: nat): (r: string)
    ensures |r| > 0
    ensures forall i :: 0 <= i < |r| ==> '0' <= r[i] <= '9'
    decreases n
  {
    var digit := ['0' + (n % 10) as char];
    if n < 10 then digit else NatToString(n / 10) + digit
  }

  // ---------------------------------------------------------------------------
  // JavaScript string comparison: lexicographic on characters, a proper prefix
  // is smaller. ISO dates "YYYY-MM-DD" are ordered by it in calendar order.
  // ---------------------------------------------------------------------------

  /** `a < b` on JavaScript strings. */
  predicate Less(a: string, b: string)
    decreases |a|
  {
    if |a| == 0 then |b| > 0
    else if |b| == 0 then false
    else if a[0] != b[0] then a[0] < b[0]
    else Less(a[1..], b[1..])
  }

  /** `a <= b` on JavaScript strings, which the language defines as `!(b < a)`. */
  predicate AtMost(a: string, b: string)
  {
    !Less(b, a)
  }

  lemma {:induction false} LessIrreflexive(a: string)
    ensures !Less(a, a)
    decreases |a|
  {
    if |a| > 0 {
      LessIrreflexive(a[1..]);
    }
  }

  lemma {:induction false} LessAsymmetric(a: string, b: string)
    ensures !(Less(a, b) && Less(b, a))
    decreases |a|
  {
    if |a| > 0 && |b| > 0 && a[0] == b[0] {
      LessAsymmetric(a[1..], b[1..]);
    }
  }

  lemma {:induction false} LessTransitive(a: string, b: string, c: string)
    requires Less(a, b) && Less(b, c)
    ensures Less(a, c)
    decreases |a|
  {
    if |a| > 0 && a[0] == b[0] && b[0] == c[0] {
      LessTransitive(a[1..], b[1..], c[1..]);
    }
  }

  /** Two different strings are always ordered one way or the other. */
  lemma {:induction false} LessTotal(a: string, b: string)
    ensures a == b || Less(a, b) || Less(b, a)
    decreases |a|
  {
    if |a| > 0 && |b| > 0 && a[0] == b[0] {
      LessTotal(a[1..], b[1..]);
      if a[1..] == b[1..] {
        assert a == [a[0]] + a[1..] && b == [b[0]] + b[1..];
      }
    }
  }

  /** `<=` on strings is the reflexive closure of `<`. */
  lemma AtMostIsLessOrEqual(a: string, b: string)
    ensures AtMost(a, b) <==> (a == b || Less(a, b))
  {
    LessTotal(a, b);
    LessAsymmetric(a, b);
    LessIrreflexive(a);
  }

  lemma AtMostTransitive(a: string, b: string, c: string)
    requires AtMost(a, b) && AtMost(b, c)
    ensures AtMost(a, c)
  {
    AtMostIsLessOrEqual(a, b);
    AtMostIsLessOrEqual(b, c);
    AtMostIsLessOrEqual(a, c);
    if Less(a, b) && Less(b, c) {
      LessTransitive(a, b, c);
    }
  }

  /** Strings that agree up to `n` characters are ordered as their first `n` characters are, or agree there. */
  lemma {:induction false} PrefixAtMost(a: string, b: string, n: nat)
    requires n <= |a| && n <= |b| && AtMost(a, b)
    ensures AtMost(a[..n], b[..n])
    decreases n
  {
    if n > 0 && a[0] == b[0] {
      assert a[..n][1..] == a[1..][..n - 1];
      assert b[..n][1..] == b[1..][..n - 1];
      PrefixAtMost(a[1..], b[1..], n - 1);
    }
  }

  // ---------------------------------------------------------------------------
  // Filter and fold over sequences (Array.prototype.filter and a forEach sum).
  // ---------------------------------------------------------------------------

  /** `r` is `s` with some elements removed and the rest in their original order. */
  ghost predicate SubsequenceOf<T>(r: seq<T>, s: seq<T>)
    decreases |s|
  {
    if r == [] then true
    else if s == [] then false
    else if r[|r| - 1] == s[|s| - 1] then SubsequenceOf(r[..|r| - 1], s[..|s| - 1])
    else SubsequenceOf(r, s[..|s| - 1])
  }

  lemma {:induction false} SubsequenceOfSelf<T>(s: seq<T>)
    ensures SubsequenceOf(s, s)
    decreases |s|
  {
    if s != [] {
      SubsequenceOfSelf(s[..|s| - 1]);
    }
  }

  function Filter<T(!new)>(s: seq<T>, p: T -> bool): (r: seq<T>)
    ensures |r| <= |s|
    ensures forall x :: x in r <==> x in s && p(x)
    ensures SubsequenceOf(r, s)
    ensures (forall x :: x in s ==> p(x)) ==> r == s
    decreases |s|
  {
    if s == [] then []
    else
      var init, last := s[..|s| - 1], s[|s| - 1];
      assert s == init + [last];
      var rest := Filter(init, p);
      if p(last) then
        assert (rest + [last])[..|rest|] == rest;
        rest + [last]
      else
        assert rest != [] ==> rest[|rest| - 1] in rest;
        rest
  }

  /** A non-empty list is its prefix followed by its last element. */
  lemma SplitLast<T>(s: seq<T>)
    requires s != []
    ensures s == s[..|s| - 1] + [s[|s| - 1]]
  {
  }

  lemma ConcatAssociative<T>(a: seq<T>, b: seq<T>, c: seq<T>)
    ensures (a + b) + c == a + (b + c)
  {
  }

  /** The same selection as `Filter`, written without a contract, for use inside loop invariants. */
  function Keep<T>(s: seq<T>, p: T -> bool): seq<T>
    decreases |s|
  {
    if s == [] then []
    else Keep(s[..|s| - 1], p) + (if p(s[|s| - 1]) then [s[|s| - 1]] else [])
  }

  lemma {:induction false} KeepIsFilter<T(!new)>(s: seq<T>, p: T -> bool)
    ensures Keep(s, p) == Filter(s, p)
    decreases |s|
  {
    if s != [] {
      KeepIsFilter(s[..|s| - 1], p);
    }
  }

  lemma KeepSnoc<T>(s: seq<T>, x: T, p: T -> bool)
    ensures Keep(s + [x], p) == Keep(s, p) + (if p(x) then [x] else [])
  {
    assert (s + [x])[..|s|] == s;
  }

  /** Selecting from a concatenation selects from each part. */
  lemma {:induction false} KeepAppend<T>(a: seq<T>, b: seq<T>, p: T -> bool)
    ensures Keep(a + b, p) == Keep(a, p) + Keep(b, p)
    decreases |b|
  {
    if b == [] {
      assert a + b == a;
    } else {
      assert (a + b)[..|a + b| - 1] == a + b[..|b| - 1];
      KeepAppend(a, b[..|b| - 1], p);
    }
  }

  /** A selection and its complement together hold the list's elements. */
  lemma {:induction false} KeepPartition<T>(s: seq<T>, p: T -> bool, q: T -> bool)
    requires forall x :: q(x) == !p(x)
    ensures multiset(Keep(s, p)) + multiset(Keep(s, q)) == multiset(s)
    decreases |s|
  {
    if s != [] {
      KeepPartition(s[..|s| - 1], p, q);
      assert s == s[..|s| - 1] + [s[|s| - 1]];
    }
  }

  /** Nothing is kept when the predicate rejects every element. */
  lemma {:induction false} KeepNone<T>(s: seq<T>, p: T -> bool)
    requires forall x :: x in s ==> !p(x)
    ensures Keep(s, p) == []
    decreases |s|
  {
    if s != [] {
      KeepNone(s[..|s| - 1], p);
    }
  }

  /** What a selection keeps: exactly the elements of the list that satisfy the predicate. */
  lemma KeepMember<T(!new)>(s: seq<T>, p: T -> bool)
    ensures forall x :: x in Keep(s, p) <==> x in s && p(x)
  {
    KeepIsFilter(s, p);
  }

  /** The length of a selection is the number of elements that satisfy the predicate. */
  lemma {:induction false} KeepLengthIsSum<T>(s: seq<T>, p: T -> bool, f: T -> int)
    requires forall x :: f(x) == if p(x) then 1 else 0
    ensures |Keep(s, p)| == Sum(s, f)
    decreases |s|
  {
    if s != [] {
      KeepLengthIsSum(s[..|s| - 1], p, f);
    }
  }

  /** The values `f` yields on the list, in order: a `forEach` that acts only on some elements. */
  function Collect<A, B>(s: seq<A>, f: A -> Option<B>): seq<B>
    decreases |s|
  {
    if s == [] then []
    else
      var last := f(s[|s| - 1]);
      Collect(s[..|s| - 1], f) + (if last.Some? then [last.value] else [])
  }

  lemma CollectStep<A, B>(s: seq<A>, i: nat, f: A -> Option<B>)
    requires i < |s|
    ensures f(s[i]).Some? ==> Collect(s[..i + 1], f) == Collect(s[..i], f) + [f(s[i]).value]
    ensures f(s[i]).None? ==> Collect(s[..i + 1], f) == Collect(s[..i], f)
  {
    assert s[..i + 1][..i] == s[..i];
    assert Collect(s[..i], f) + [] == Collect(s[..i], f);
  }

  /** A value is collected iff `f` yields it on some element. */
  lemma {:induction false} CollectMeaning<A, B>(s: seq<A>, f: A -> Option<B>, b: B)
    ensures b in Collect(s, f) <==> exists k :: 0 <= k < |s| && f(s[k]) == Some(b)
    decreases |s|
  {
    if s != [] {
      var init := s[..|s| - 1];
      CollectMeaning(init, f, b);
      if exists k :: 0 <= k < |init| && f(init[k]) == Some(b) {
        var k :| 0 <= k < |init| && f(init[k]) == Some(b);
        assert s[k] == init[k];
      }
      if exists k :: 0 <= k < |s| && f(s[k]) == Some(b) {
        var k :| 0 <= k < |s| && f(s[k]) == Some(b);
        if k < |init| {
          assert init[k] == s[k];
        }
      }
    }
  }

  /** A selection only depends on which values the predicate takes on the list. */
  lemma {:induction false} KeepCongruent<T>(s: seq<T>, p: T -> bool, q: T -> bool)
    requires forall x :: x in s ==> p(x) == q(x)
    ensures Keep(s, p) == Keep(s, q)
    decreases |s|
  {
    if s != [] {
      KeepCongruent(s[..|s| - 1], p, q);
    }
  }

  /** The sum of `f` over `s`, accumulated from the left as a forEach loop does. */
  function Sum<T>(s: seq<T>, f: T -> int): int
    decreases |s|
  {
    if s == [] then 0 else Sum(s[..|s| - 1], f) + f(s[|s| - 1])
  }

  lemma {:induction false} SumAppend<T>(a: seq<T>, b: seq<T>, f: T -> int)
    ensures Sum(a + b, f) == Sum(a, f) + Sum(b, f)
    decreases |b|
  {
    if b == [] {
      assert a + b == a;
    } else {
      assert (a + b)[..|a + b| - 1] == a + b[..|b| - 1];
      SumAppend(a, b[..|b| - 1], f);
    }
  }

  /** One more element of a prefix adds its value to the prefix's sum. */
  lemma SumStep<T>(s: seq<T>, i: nat, f: T -> int)
    requires i < |s|
    ensures Sum(s[..i + 1], f) == Sum(s[..i], f) + f(s[i])
  {
    assert s[..i + 1][..i] == s[..i];
  }

  /** A sum of values that are never negative is not negative. */
  lemma {:induction false} SumNonNegative<T>(s: seq<T>, f: T -> int)
    requires forall x :: f(x) >= 0
    ensures Sum(s, f) >= 0
    decreases |s|
  {
    if s != [] {
      SumNonNegative(s[..|s| - 1], f);
    }
  }

  /** A sum of values that are never positive is not positive. */
  lemma {:induction false} SumNonPositive<T>(s: seq<T>, f: T -> int)
    requires forall x :: f(x) <= 0
    ensures Sum(s, f) <= 0
    decreases |s|
  {
    if s != [] {
      SumNonPositive(s[..|s| - 1], f);
    }
  }

  /** Splitting a list by a predicate splits its sum. */
  lemma {:induction false} SumFilterSplit<T(!new)>(s: seq<T>, f: T -> int, p: T -> bool, q: T -> bool)
    requires forall x :: q(x) == !p(x)
    ensures Sum(s, f) == Sum(Filter(s, p), f) + Sum(Filter(s, q), f)
    decreases |s|
  {
    if s != [] {
      SumFilterSplit(s[..|s| - 1], f, p, q);
    }
  }

  /** A selection that is the disjoint union of two others sums to the sum of the two. */
  lemma {:induction false} SumFilterUnion<T(!new)>(s: seq<T>, f: T -> int, p: T -> bool, q: T -> bool, r: T -> bool)
    requires forall x :: p(x) == (q(x) || r(x))
    requires forall x :: !(q(x) && r(x))
    ensures Sum(Filter(s, p), f) == Sum(Filter(s, q), f) + Sum(Filter(s, r), f)
    decreases |s|
  {
    if s != [] {
      SumFilterUnion(s[..|s| - 1], f, p, q, r);
    }
  }

  /** A sum only depends on which values the summed function takes on the list. */
  lemma {:induction false} SumCongruent<T>(s: seq<T>, f: T -> int, g: T -> int)
    requires forall x :: x in s ==> f(x) == g(x)
    ensures Sum(s, f) == Sum(s, g)
    decreases |s|
  {
    if s != [] {
      SumCongruent(s[..|s| - 1], f, g);
    }
  }

  /** Summing the constant zero gives zero. */
  lemma {:induction false} SumZero<T>(s: seq<T>, f: T -> int)
    requires forall x :: x in s ==> f(x) == 0
    ensures Sum(s, f) == 0
    decreases |s|
  {
    if s != [] {
      SumZero(s[..|s| - 1], f);
    }
  }

  /** Sum of a pointwise sum is the sum of sums. */
  lemma {:induction false} SumAdd<T>(s: seq<T>, f: T -> int, g: T -> int, h: T -> int)
    requires forall x :: x in s ==> h(x) == f(x) + g(x)
    ensures Sum(s, h) == Sum(s, f) + Sum(s, g)
    decreases |s|
  {
    if s != [] {
      SumAdd(s[..|s| - 1], f, g, h);
    }
  }

  /** Summing a guarded function is summing the unguarded one over the elements the guard keeps. */
  lemma {:induction false} SumGuarded<T>(s: seq<T>, q: T -> bool, g: T -> int, h: T -> int)
    requires forall x :: h(x) == if q(x) then g(x) else 0
    ensures Sum(s, h) == Sum(Keep(s, q), g)
    decreases |s|
  {
    if s != [] {
      var init, last := s[..|s| - 1], s[|s| - 1];
      SumGuarded(init, q, g, h);
      SumAppend(Keep(init, q), if q(last) then [last] else [], g);
      assert Sum([last], g) == g(last) by {
        assert [last][..0] == [];
      }
    }
  }

  /** A sum does not depend on the order of the list. */
  lemma {:induction false} SumPermutation<T>(s: seq<T>, t: seq<T>, f: T -> int)
    requires multiset(s) == multiset(t)
    ensures Sum(s, f) == Sum(t, f)
    decreases |s|
  {
    if s == [] {
      assert |t| == |multiset(t)| == 0;
    } else {
      var x := s[|s| - 1];
      assert s == s[..|s| - 1] + [x];
      assert x in multiset(t);
      var k :| 0 <= k < |t| && t[k] == x;
      var rest := t[..k] + t[k + 1..];
      assert t == t[..k] + [x] + t[k + 1..];
      calc {
        multiset(s[..|s| - 1]) + multiset{x};
        multiset(s);
        multiset(t);
        multiset(t[..k]) + multiset{x} + multiset(t[k + 1..]);
        multiset(rest) + multiset{x};
      }
      assert multiset(s[..|s| - 1]) == multiset(s[..|s| - 1]) + multiset{x} - multiset{x};
      assert multiset(rest) == multiset(rest) + multiset{x} - multiset{x};
      SumPermutation(s[..|s| - 1], rest, f);
      SumAppend(t[..k] + [x], t[k + 1..], f);
      SumAppend(t[..k], [x], f);
      SumAppend(t[..k], t[k + 1..], f);
      assert Sum([x], f) == f(x) by {
        assert [x][..0] == [];
      }
    }
  }

  /** Count of the elements satisfying `p`. */
  function Count<T(!new)>(s: seq<T>, p: T -> bool): (n: nat)
    ensures n == |Filter(s, p)|
    decreases |s|
  {
    if s == [] then 0 else Count(s[..|s| - 1], p) + (if p(s[|s| - 1]) then 1 else 0)
  }

  /** No value occurs twice. */
  predicate NoDuplicates<T(==)>(s: seq<T>)
  {
    forall i, j :: 0 <= i < j < |s| ==> s[i] != s[j]
  }

  lemma {:induction false} NoDuplicatesCount<T>(s: seq<T>, x: T)
    requires NoDuplicates(s)
    ensures multiset(s)[x] <= 1
    decreases |s|
  {
    if s != [] {
      var init := s[..|s| - 1];
      assert s == init + [s[|s| - 1]];
      NoDuplicatesCount(init, x);
      if x == s[|s| - 1] {
        assert x !in init;
      }
    }
  }

  /** A rearrangement of a list without duplicates has none either. */
  lemma NoDuplicatesPermutation<T>(s: seq<T>, t: seq<T>)
    requires NoDuplicates(s) && multiset(s) == multiset(t)
    ensures NoDuplicates(t)
  {
    forall i, j | 0 <= i < j < |t| ensures t[i] != t[j] {
      var x := t[i];
      NoDuplicatesCount(s, x);
      assert t == t[..j] + [t[j]] + t[j + 1..];
      assert t[..j][i] == x;
      assert multiset(t[..j])[x] >= 1;
      assert multiset(t)[x] == multiset(t[..j])[x] + multiset([t[j]])[x] + multiset(t[j + 1..])[x];
    }
  }

  // ---------------------------------------------------------------------------
  // Array.prototype.sort with a comparator: stable, the result is a permutation
  // of the input ordered by the comparator.
  // ---------------------------------------------------------------------------

  /** `le(a, b)` means the comparator does not put `b` before `a`. */
  ghost predicate TotalPreorder<T(!new)>(le: (T, T) -> bool)
  {
    && (forall a, b :: le(a, b) || le(b, a))
    && (forall a, b, c :: le(a, b) && le(b, c) ==> le(a, c))
  }

  predicate SortedBy<T>(s: seq<T>, le: (T, T) -> bool)
  {
    forall i, j :: 0 <= i < j < |s| ==> le(s[i], s[j])
  }

  /** Inserts `x` before the first element it does not come after (so before its equals). */
  function Insert<T(!new)>(x: T, s: seq<T>, le: (T, T) -> bool): (r: seq<T>)
    requires TotalPreorder(le)
    requires SortedBy(s, le)
    ensures multiset(r) == multiset(s) + multiset{x}
    ensures SortedBy(r, le)
    decreases |s|
  {
    if s == [] then [x]
    else if le(x, s[0]) then
      PrependSorted(x, s, le);
      [x] + s
    else
      var rest := Insert(x, s[1..], le);
      assert le(s[0], x);
      assert forall y :: y in rest ==> le(s[0], y) by {
        forall y | y in rest ensures le(s[0], y) {
          assert y in multiset(rest);
          assert y == x || y in s[1..];
        }
      }
      assert s == [s[0]] + s[1..];
      ConsSorted(s[0], rest, le);
      [s[0]] + rest
  }

  lemma PrependSorted<T(!new)>(x: T, s: seq<T>, le: (T, T) -> bool)
    requires TotalPreorder(le)
    requires SortedBy(s, le)
    requires s != [] && le(x, s[0])
    ensures SortedBy([x] + s, le)
  {
    forall y | y in s ensures le(x, y) {
      var j :| 0 <= j < |s| && s[j] == y;
      if j > 0 {
        assert le(s[0], s[j]);
      }
    }
    ConsSorted(x, s, le);
  }

  lemma ConsSorted<T>(x: T, s: seq<T>, le: (T, T) -> bool)
    requires SortedBy(s, le)
    requires forall y :: y in s ==> le(x, y)
    ensures SortedBy([x] + s, le)
  {
    var r := [x] + s;
    forall i, j | 0 <= i < j < |r| ensures le(r[i], r[j]) {
      assert r[j] == s[j - 1];
      if i > 0 {
        assert r[i] == s[i - 1];
      } else {
        assert r[j] in s;
      }
    }
  }

  /** Insertion sort; an element is inserted ahead of its later equals, so the sort is stable (`SortStable`). */
  function Sort<T(!new)>(s: seq<T>, le: (T, T) -> bool): (r: seq<T>)
    requires TotalPreorder(le)
    ensures multiset(r) == multiset(s)
    ensures SortedBy(r, le)
    decreases |s|
  {
    if s == [] then []
    else
      assert s == [s[0]] + s[1..];
      Insert(s[0], Sort(s[1..], le), le)
  }

  /** The elements the comparator ties with `x`. */
  function TiedWith<T>(le: (T, T) -> bool, x: T): T -> bool
  {
    (y: T) => le(x, y) && le(y, x)
  }

  lemma {:induction false} KeepSingle<T>(a: T, p: T -> bool)
    ensures Keep([a], p) == if p(a) then [a] else []
  {
    assert [a][..0] == [];
  }

  /** Of two elements in strict comparator order, at most one is tied with `x`. */
  lemma {:induction false} NotBothTied<T(!new)>(y: T, z: T, le: (T, T) -> bool, x: T)
    requires TotalPreorder(le)
    requires !le(y, z)
    ensures !(TiedWith(le, x)(y) && TiedWith(le, x)(z))
  {
    assert !(le(y, x) && le(x, z));
  }

  lemma {:induction false} InsertStable<T(!new)>(y: T, t: seq<T>, le: (T, T) -> bool, x: T)
    requires TotalPreorder(le)
    requires SortedBy(t, le)
    ensures Keep(Insert(y, t, le), TiedWith(le, x)) == Keep([y], TiedWith(le, x)) + Keep(t, TiedWith(le, x))
    decreases |t|
  {
    var e := TiedWith(le, x);
    if t == [] {
      assert Insert(y, t, le) == [y];
      assert [y] + t == [y];
    } else if le(y, t[0]) {
      assert Insert(y, t, le) == [y] + t;
      KeepAppend([y], t, e);
    } else {
      InsertStable(y, t[1..], le, x);
      InsertAfterHead(y, t, le, x);
    }
  }

  /** The step of `InsertStable` where `y` goes after the head of `t`. */
  lemma {:induction false} InsertAfterHead<T(!new)>(y: T, t: seq<T>, le: (T, T) -> bool, x: T)
    requires TotalPreorder(le)
    requires SortedBy(t, le)
    requires t != [] && !le(y, t[0])
    requires Keep(Insert(y, t[1..], le), TiedWith(le, x)) == Keep([y], TiedWith(le, x)) + Keep(t[1..], TiedWith(le, x))
    ensures Keep(Insert(y, t, le), TiedWith(le, x)) == Keep([y], TiedWith(le, x)) + Keep(t, TiedWith(le, x))
  {
    var rest := Insert(y, t[1..], le);
    assert Insert(y, t, le) == [t[0]] + rest;
    NotBothTied(y, t[0], le, x);
    assert t == [t[0]] + t[1..];
    KeepSwap(y, t[0], t[1..], rest, TiedWith(le, x));
  }

  /** Moving `y` ahead of `z` does not change the kept elements when at most one of them is kept. */
  lemma {:induction false} KeepSwap<T>(y: T, z: T, tail: seq<T>, rest: seq<T>, p: T -> bool)
    requires Keep(rest, p) == Keep([y], p) + Keep(tail, p)
    requires !(p(y) && p(z))
    ensures Keep([z] + rest, p) == Keep([y], p) + Keep([z] + tail, p)
  {
    KeepAppend([z], rest, p);
    KeepAppend([z], tail, p);
    var ky, kz, kt := Keep([y], p), Keep([z], p), Keep(tail, p);
    KeepSingle(y, p);
    KeepSingle(z, p);
    assert ky == [] || kz == [];
    if ky == [] {
      assert kz + (ky + kt) == ky + (kz + kt);
    } else {
      assert kz + (ky + kt) == ky + (kz + kt);
    }
  }

  /** The sort is stable: the elements tied with any `x` keep their input order. */
  lemma {:induction false} SortStable<T(!new)>(s: seq<T>, le: (T, T) -> bool, x: T)
    requires TotalPreorder(le)
    ensures Keep(Sort(s, le), TiedWith(le, x)) == Keep(s, TiedWith(le, x))
    decreases |s|
  {
    if s != [] {
      SortStable(s[1..], le, x);
      InsertStable(s[0], Sort(s[1..], le), le, x);
      assert s == [s[0]] + s[1..];
      KeepAppend([s[0]], s[1..], TiedWith(le, x));
    }
  }

  lemma SortLength<T(!new)>(s: seq<T>, le: (T, T) -> bool)
    requires TotalPreorder(le)
    ensures |Sort(s, le)| == |s|
  {
    assert |multiset(Sort(s, le))| == |multiset(s)|;
  }

  /** The ordering of ISO date strings, as a comparator. */
  function StringLe(): (string, string) -> bool
  {
    (a: string, b: string) => AtMost(a, b)
  }

  lemma StringOrderIsTotalPreorder()
    ensures TotalPreorder(StringLe())
  {
    forall a: string, b: string ensures StringLe()(a, b) || StringLe()(b, a) {
      LessAsymmetric(a, b);
    }
    forall a: string, b: string, c: string | StringLe()(a, b) && StringLe()(b, c) ensures StringLe()(a, c) {
      AtMostTransitive(a, b, c);
    }
  }

  /** A list sorted by `<=` without duplicates is strictly increasing. */
  lemma SortedDistinctIsIncreasing(s: seq<string>)
    requires SortedBy(s, StringLe()) && NoDuplicates(s)
    ensures forall i, j :: 0 <= i < j < |s| ==> Less(s[i], s[j])
  {
    forall i, j | 0 <= i < j < |s| ensures Less(s[i], s[j]) {
      assert StringLe()(s[i], s[j]);
      AtMostIsLessOrEqual(s[i], s[j]);
    }
  }
}
