/** Optional values and success-or-failure results. */
module Wrappers {
  datatype Option<+T> = None | Some(value: T)

  datatype Result<+T, +E> = Success(value: T) | Failure(error: E)
}

/** Vocabulary shared by the alert and analytics modules. */
module Domain {
  datatype Direction = BULLISH | BEARISH
}

/** Sequence helpers. The recursions peel the last element, as the loops of the program add one at the end. */
module Seqs {
  function Filter<T>(p: T -> bool, s: seq<T>): seq<T> {
    if |s| == 0 then []
    else if p(s[|s| - 1]) then Filter(p, s[..|s| - 1]) + [s[|s| - 1]]
    else Filter(p, s[..|s| - 1])
  }

  function Map<T, U>(f: T -> U, s: seq<T>): (r: seq<U>)
    ensures |r| == |s|
    ensures forall i :: 0 <= i < |s| ==> r[i] == f(s[i])
  {
    seq(|s|, i requires 0 <= i < |s| => f(s[i]))
  }

  /** The outputs of a loop that appends `f(x)` for each element in turn. */
  function FlatMap<T, U>(f: T -> seq<U>, s: seq<T>): seq<U> {
    if |s| == 0 then [] else FlatMap(f, s[..|s| - 1]) + f(s[|s| - 1])
  }

  lemma FlatMapStep<T, U>(f: T -> seq<U>, s: seq<T>, i: nat)
    requires i < |s|
    ensures FlatMap(f, s[..i + 1]) == FlatMap(f, s[..i]) + f(s[i])
  {
    assert s[..i + 1][..i] == s[..i];
  }

  lemma {:induction false} FlatMapAppend<T, U>(f: T -> seq<U>, a: seq<T>, b: seq<T>)
    ensures FlatMap(f, a + b) == FlatMap(f, a) + FlatMap(f, b)
  {
    if |b| == 0 {
      assert a + b == a;
    } else {
      FlatMapAppend(f, a, b[..|b| - 1]);
      assert (a + b)[..|a + b| - 1] == a + b[..|b| - 1];
    }
  }

  lemma {:induction false} FlatMapMembers<T, U>(f: T -> seq<U>, s: seq<T>, y: U)
    ensures y in FlatMap(f, s) <==> exists i :: 0 <= i < |s| && y in f(s[i])
  {
    if |s| != 0 {
      var front := s[..|s| - 1];
      FlatMapMembers(f, front, y);
      if i :| 0 <= i < |s| && y in f(s[i]) {
        assert i == |s| - 1 || front[i] == s[i];
      }
      if i :| 0 <= i < |front| && y in f(front[i]) {
        assert s[i] == front[i];
      }
    }
  }

  /** The last `n` elements, all of them when there are fewer. */
  function LastN<T>(s: seq<T>, n: nat): (r: seq<T>)
    ensures |r| == if |s| <= n then |s| else n
    ensures r == s[|s| - |r|..]
  {
    if |s| <= n then s else s[|s| - n..]
  }

  /** A bounded buffer that receives one more element holds the end of the longer history. */
  lemma LastNSnoc<T>(s: seq<T>, x: T, n: nat)
    ensures LastN(LastN(s, n) + [x], n) == LastN(s + [x], n)
  {
  }

  /** The first `n` elements, all of them when there are fewer. */
  function FirstN<T>(s: seq<T>, n: nat): (r: seq<T>)
    ensures |r| == if |s| <= n then |s| else n
    ensures r == s[..|r|]
  {
    if |s| <= n then s else s[..n]
  }

  function Reverse<T>(s: seq<T>): (r: seq<T>)
    ensures |r| == |s|
    ensures forall i :: 0 <= i < |s| ==> r[i] == s[|s| - 1 - i]
  {
    if |s| == 0 then [] else [s[|s| - 1]] + Reverse(s[..|s| - 1])
  }

  ghost predicate Distinct<T>(s: seq<T>) {
    forall i, j :: 0 <= i < j < |s| ==> s[i] != s[j]
  }

  lemma {:induction false} FilterSnoc<T>(p: T -> bool, s: seq<T>, x: T)
    ensures Filter(p, s + [x]) == if p(x) then Filter(p, s) + [x] else Filter(p, s)
  {
    assert (s + [x])[..|s|] == s;
  }

  lemma {:induction false} FilterPrefix<T>(p: T -> bool, s: seq<T>, i: nat)
    requires i <= |s|
    ensures Filter(p, s[..i]) <= Filter(p, s)
  {
    FilterAppend(p, s[..i], s[i..]);
    assert s == s[..i] + s[i..];
  }

  lemma {:induction false} FilterReverse<T>(p: T -> bool, s: seq<T>)
    ensures Filter(p, Reverse(s)) == Reverse(Filter(p, s))
  {
    if |s| != 0 {
      var front, last := s[..|s| - 1], s[|s| - 1];
      FilterReverse(p, front);
      FilterAppend(p, [last], Reverse(front));
      assert [last][..0] == [];
      if p(last) {
        assert Reverse(Filter(p, s)) == [last] + Reverse(Filter(p, front));
      }
    }
  }

  lemma {:induction false} FilterAllPass<T>(p: T -> bool, s: seq<T>)
    requires forall i :: 0 <= i < |s| ==> p(s[i])
    ensures Filter(p, s) == s
  {
    if |s| != 0 {
      FilterAllPass(p, s[..|s| - 1]);
    }
  }

  lemma {:induction false} FilterNonePass<T>(p: T -> bool, s: seq<T>)
    requires forall i :: 0 <= i < |s| ==> !p(s[i])
    ensures Filter(p, s) == []
  {
    if |s| != 0 {
      FilterNonePass(p, s[..|s| - 1]);
    }
  }

  lemma MapSnoc<T, U>(f: T -> U, s: seq<T>, x: T)
    ensures Map(f, s + [x]) == Map(f, s) + [f(x)]
  {
  }

  lemma MapAppend<T, U>(f: T -> U, a: seq<T>, b: seq<T>)
    ensures Map(f, a + b) == Map(f, a) + Map(f, b)
  {
  }

  /** Every nonempty list is its front and its last element. */
  lemma FrontLast<T>(s: seq<T>)
    requires |s| > 0
    ensures s == s[..|s| - 1] + [s[|s| - 1]]
  {
  }

  lemma FilterStep<T>(p: T -> bool, s: seq<T>, i: nat)
    requires i < |s|
    ensures Filter(p, s[..i + 1]) == if p(s[i]) then Filter(p, s[..i]) + [s[i]] else Filter(p, s[..i])
  {
    assert s[..i + 1][..i] == s[..i];
  }

  lemma MapStep<T, U>(f: T -> U, s: seq<T>, i: nat)
    requires i < |s|
    ensures Map(f, s[..i + 1]) == Map(f, s[..i]) + [f(s[i])]
  {
    assert s[..i + 1][..i] == s[..i];
  }

  lemma {:induction false} FilterAppend<T>(p: T -> bool, a: seq<T>, b: seq<T>)
    ensures Filter(p, a + b) == Filter(p, a) + Filter(p, b)
  {
    if |b| == 0 {
      assert a + b == a;
    } else {
      FilterAppend(p, a, b[..|b| - 1]);
      assert (a + b)[..|a + b| - 1] == a + b[..|b| - 1];
    }
  }

  /** Filtering keeps exactly the elements that satisfy the test, with their multiplicities. */
  lemma {:induction false} FilterCount<T>(p: T -> bool, s: seq<T>, x: T)
    ensures multiset(Filter(p, s))[x] == if p(x) then multiset(s)[x] else 0
  {
    if |s| != 0 {
      FilterCount(p, s[..|s| - 1], x);
      assert s == s[..|s| - 1] + [s[|s| - 1]];
    }
  }

  lemma {:induction false} FilterMembers<T>(p: T -> bool, s: seq<T>)
    ensures forall x :: x in Filter(p, s) <==> x in s && p(x)
  {
    forall x ensures x in Filter(p, s) <==> x in s && p(x) {
      FilterCount(p, s, x);
      assert x in multiset(s) <==> x in s;
      assert x in multiset(Filter(p, s)) <==> x in Filter(p, s);
    }
  }

  lemma SameSize<T>(a: seq<T>, b: seq<T>)
    requires multiset(a) == multiset(b)
    ensures |a| == |b|
  {
    assert |multiset(a)| == |a| && |multiset(b)| == |b|;
  }

  lemma DropLast<T>(s: seq<T>)
    requires |s| > 0
    ensures multiset(s[..|s| - 1]) == multiset(s) - multiset{s[|s| - 1]}
  {
    assert s == s[..|s| - 1] + [s[|s| - 1]];
  }

  function Without<T>(s: seq<T>, i: nat): (r: seq<T>)
    requires i < |s|
    ensures |r| == |s| - 1
  {
    s[..i] + s[i + 1..]
  }

  lemma WithoutCount<T>(s: seq<T>, i: nat)
    requires i < |s|
    ensures multiset(Without(s, i)) == multiset(s) - multiset{s[i]}
    ensures multiset(s) == multiset(Without(s, i)) + multiset{s[i]}
  {
    assert s == s[..i] + [s[i]] + s[i + 1..];
  }

  /** One step of a proof by removal: where `b` holds the last element of `a`. */
  lemma RemoveLast<T>(a: seq<T>, b: seq<T>) returns (i: nat)
    requires multiset(a) == multiset(b) && |a| > 0
    ensures i < |b| && b[i] == a[|a| - 1]
    ensures multiset(a[..|a| - 1]) == multiset(Without(b, i))
  {
    var x := a[|a| - 1];
    assert x in multiset(a);
    assert x in b;
    i :| 0 <= i < |b| && b[i] == x;
    DropLast(a);
    WithoutCount(b, i);
  }

  lemma {:induction false} FilterPermutes<T>(p: T -> bool, a: seq<T>, b: seq<T>)
    requires multiset(a) == multiset(b)
    ensures multiset(Filter(p, a)) == multiset(Filter(p, b))
    ensures |Filter(p, a)| == |Filter(p, b)|
    decreases |a|
  {
    SameSize(a, b);
    if |a| != 0 {
      var i := RemoveLast(a, b);
      FilterPermutes(p, a[..|a| - 1], Without(b, i));
      FilterWithout(p, b, i);
    }
    SameSize(Filter(p, a), Filter(p, b));
  }

  lemma {:induction false} FilterWithout<T>(p: T -> bool, s: seq<T>, i: nat)
    requires i < |s|
    ensures multiset(Filter(p, s))
            == multiset(Filter(p, Without(s, i))) + if p(s[i]) then multiset{s[i]} else multiset{}
  {
    assert s == s[..i + 1] + s[i + 1..];
    FilterAppend(p, s[..i + 1], s[i + 1..]);
    FilterAppend(p, s[..i], s[i + 1..]);
    FilterStep(p, s, i);
  }

  lemma MapWithout<T, U>(f: T -> U, s: seq<T>, i: nat)
    requires i < |s|
    ensures Map(f, Without(s, i)) == Without(Map(f, s), i)
  {
    var l, r := Map(f, Without(s, i)), Without(Map(f, s), i);
    forall k | 0 <= k < |s| - 1 ensures l[k] == r[k] {
      assert Without(s, i)[k] == if k < i then s[k] else s[k + 1];
    }
  }

  lemma {:induction false} MapPermutes<T, U>(f: T -> U, a: seq<T>, b: seq<T>)
    requires multiset(a) == multiset(b)
    ensures multiset(Map(f, a)) == multiset(Map(f, b))
    decreases |a|
  {
    SameSize(a, b);
    if |a| != 0 {
      var i := RemoveLast(a, b);
      MapPermutes(f, a[..|a| - 1], Without(b, i));
      MapWithout(f, b, i);
      WithoutCount(Map(f, b), i);
      DropLast(Map(f, a));
      assert Map(f, a)[..|a| - 1] == Map(f, a[..|a| - 1]);
    }
  }

  /** Two lists without repetitions and with the same elements are rearrangements of each other. */
  lemma DistinctPermutes<T>(a: seq<T>, b: seq<T>)
    requires Distinct(a) && Distinct(b)
    requires forall x :: x in a <==> x in b
    ensures multiset(a) == multiset(b)
  {
    forall x ensures multiset(a)[x] == multiset(b)[x] {
      DistinctCount(a, x);
      DistinctCount(b, x);
    }
  }

  lemma TwiceInSeq<T>(s: seq<T>, i: nat, j: nat)
    requires i < j < |s| && s[i] == s[j]
    ensures multiset(s)[s[i]] >= 2
  {
    assert s == s[..j] + s[j..];
    assert s[i] in s[..j] && s[j] in s[j..];
    assert multiset(s) == multiset(s[..j]) + multiset(s[j..]);
    assert multiset(s[..j])[s[i]] >= 1 && multiset(s[j..])[s[i]] >= 1;
  }

  lemma PermutedDistinct<T>(a: seq<T>, b: seq<T>)
    requires multiset(a) == multiset(b) && Distinct(a)
    ensures Distinct(b)
  {
    forall i: nat, j: nat | i < j < |b| ensures b[i] != b[j] {
      if b[i] == b[j] {
        TwiceInSeq(b, i, j);
        DistinctCount(a, b[i]);
      }
    }
  }

  /** A list without repetitions is no longer than a list that holds all its elements. */
  lemma DistinctIsShorter<T>(s: seq<T>, t: seq<T>)
    requires Distinct(s) && forall x :: x in s ==> x in t
    ensures |s| <= |t|
    decreases |s|
  {
    if |s| != 0 {
      var last := s[|s| - 1];
      assert last in s;
      var i :| 0 <= i < |t| && t[i] == last;
      forall x | x in s[..|s| - 1] ensures x in Without(t, i) {
        var k :| 0 <= k < |s| - 1 && s[k] == x;
        assert x in s;
        var j :| 0 <= j < |t| && t[j] == x;
        assert j != i;
        assert Without(t, i)[if j < i then j else j - 1] == x;
      }
      DistinctIsShorter(s[..|s| - 1], Without(t, i));
    }
  }

  lemma {:induction false} DistinctCount<T>(s: seq<T>, x: T)
    requires Distinct(s)
    ensures multiset(s)[x] == if x in s then 1 else 0
  {
    if |s| != 0 {
      var front := s[..|s| - 1];
      assert s == front + [s[|s| - 1]];
      DistinctCount(front, x);
    }
  }
}

/** The lexicographic order of strings and a stable sort, as Python's `sorted` and JavaScript's `sort` use them. */
module Ordering {
  import opened Seqs

  predicate StringLeq(a: string, b: string) {
    |a| == 0 || (|b| != 0 && (a[0] < b[0] || (a[0] == b[0] && StringLeq(a[1..], b[1..]))))
  }

  lemma {:induction false} StringLeqTotal(a: string, b: string)
    ensures StringLeq(a, b) || StringLeq(b, a)
    ensures StringLeq(a, b) && StringLeq(b, a) ==> a == b
  {
    if |a| != 0 && |b| != 0 && a[0] == b[0] {
      StringLeqTotal(a[1..], b[1..]);
      assert a == [a[0]] + a[1..] && b == [b[0]] + b[1..];
    }
  }

  lemma {:induction false} StringLeqTransitive(a: string, b: string, c: string)
    requires StringLeq(a, b) && StringLeq(b, c)
    ensures StringLeq(a, c)
  {
    if |a| != 0 && a[0] == b[0] && b[0] == c[0] {
      StringLeqTransitive(a[1..], b[1..], c[1..]);
    }
  }

  /** A prefix, or smaller at the first place where the texts differ. */
  ghost predicate Lexicographic(a: string, b: string) {
    a <= b || exists k: nat :: k < |a| && k < |b| && a[..k] == b[..k] && a[k] < b[k]
  }

  lemma {:induction false} StringLeqIsLexicographic(a: string, b: string)
    ensures StringLeq(a, b) <==> Lexicographic(a, b)
  {
    if |a| != 0 && |b| != 0 && a[0] == b[0] {
      StringLeqIsLexicographic(a[1..], b[1..]);
      if Lexicographic(a[1..], b[1..]) && !(a[1..] <= b[1..]) {
        var k: nat :| k < |a[1..]| && k < |b[1..]| && a[1..][..k] == b[1..][..k] && a[1..][k] < b[1..][k];
        assert a[..k + 1] == [a[0]] + a[1..][..k] && b[..k + 1] == [b[0]] + b[1..][..k];
        assert a[k + 1] < b[k + 1];
      }
      if Lexicographic(a, b) && !(a <= b) {
        var k: nat :| k < |a| && k < |b| && a[..k] == b[..k] && a[k] < b[k];
        assert a[1..][..k - 1] == a[..k][1..] == b[..k][1..] == b[1..][..k - 1];
        assert a[1..][k - 1] < b[1..][k - 1];
      }
    } else if |a| != 0 && |b| != 0 && a[0] < b[0] {
      assert a[..0] == b[..0];
    }
  }

  ghost predicate TotalPreorder<T(!new)>(leq: (T, T) -> bool) {
    && (forall x, y :: leq(x, y) || leq(y, x))
    && (forall x, y, z :: leq(x, y) && leq(y, z) ==> leq(x, z))
  }

  ghost predicate Sorted<T>(leq: (T, T) -> bool, s: seq<T>) {
    forall i, j :: 0 <= i < j < |s| ==> leq(s[i], s[j])
  }

  /** Puts `x` behind every element that may stand before it, so that equal elements keep their order. */
  function Insert<T>(leq: (T, T) -> bool, x: T, s: seq<T>): seq<T> {
    if |s| == 0 || leq(s[|s| - 1], x) then s + [x]
    else Insert(leq, x, s[..|s| - 1]) + [s[|s| - 1]]
  }

  function Sort<T>(leq: (T, T) -> bool, s: seq<T>): seq<T> {
    if |s| == 0 then [] else Insert(leq, s[|s| - 1], Sort(leq, s[..|s| - 1]))
  }

  lemma {:induction false} InsertPermutes<T>(leq: (T, T) -> bool, x: T, s: seq<T>)
    ensures multiset(Insert(leq, x, s)) == multiset(s) + multiset{x}
  {
    if |s| != 0 && !leq(s[|s| - 1], x) {
      InsertPermutes(leq, x, s[..|s| - 1]);
      assert s == s[..|s| - 1] + [s[|s| - 1]];
    }
  }

  lemma {:induction false} InsertSorted<T(!new)>(leq: (T, T) -> bool, x: T, s: seq<T>)
    requires TotalPreorder(leq) && Sorted(leq, s)
    ensures Sorted(leq, Insert(leq, x, s))
  {
    if |s| == 0 {
    } else if leq(s[|s| - 1], x) {
      forall i | 0 <= i < |s| ensures leq(s[i], x) {
        assert i == |s| - 1 || leq(s[i], s[|s| - 1]);
      }
    } else {
      var front, last := s[..|s| - 1], s[|s| - 1];
      InsertSorted(leq, x, front);
      InsertPermutes(leq, x, front);
      var r := Insert(leq, x, front);
      forall i | 0 <= i < |r| ensures leq(r[i], last) {
        assert r[i] in multiset(r);
        assert r[i] == x || r[i] in front;
      }
    }
  }

  lemma {:induction false} SortPermutes<T>(leq: (T, T) -> bool, s: seq<T>)
    ensures multiset(Sort(leq, s)) == multiset(s)
    ensures |Sort(leq, s)| == |s|
  {
    if |s| != 0 {
      SortPermutes(leq, s[..|s| - 1]);
      InsertPermutes(leq, s[|s| - 1], Sort(leq, s[..|s| - 1]));
      assert s == s[..|s| - 1] + [s[|s| - 1]];
    }
    SameSize(Sort(leq, s), s);
  }

  lemma {:induction false} SortSorts<T(!new)>(leq: (T, T) -> bool, s: seq<T>)
    requires TotalPreorder(leq)
    ensures Sorted(leq, Sort(leq, s))
  {
    if |s| != 0 {
      SortSorts(leq, s[..|s| - 1]);
      InsertSorted(leq, s[|s| - 1], Sort(leq, s[..|s| - 1]));
    }
  }

  lemma {:induction false} InsertIsStable<T(!new)>(leq: (T, T) -> bool, p: T -> bool, x: T, s: seq<T>)
    requires forall y, z :: p(y) && p(z) ==> leq(y, z)
    ensures Filter(p, Insert(leq, x, s)) == if p(x) then Filter(p, s) + [x] else Filter(p, s)
  {
    if |s| == 0 || leq(s[|s| - 1], x) {
      FilterSnoc(p, s, x);
    } else {
      var front, last := s[..|s| - 1], s[|s| - 1];
      InsertIsStable(leq, p, x, front);
      FilterSnoc(p, Insert(leq, x, front), last);
      FilterSnoc(p, front, last);
      FrontLast(s);
    }
  }

  /** Sorting keeps the order of elements that may stand either way. */
  lemma {:induction false} SortIsStable<T(!new)>(leq: (T, T) -> bool, p: T -> bool, s: seq<T>)
    requires forall y, z :: p(y) && p(z) ==> leq(y, z)
    ensures Filter(p, Sort(leq, s)) == Filter(p, s)
  {
    if |s| != 0 {
      SortIsStable(leq, p, s[..|s| - 1]);
      InsertIsStable(leq, p, s[|s| - 1], Sort(leq, s[..|s| - 1]));
    }
  }

  lemma SameLast<T>(leq: (T, T) -> bool, a: seq<T>, b: seq<T>)
    requires Sorted(leq, a) && Sorted(leq, b) && multiset(a) == multiset(b) && |a| == |b| != 0
    requires forall x, y :: x in a && y in a && leq(x, y) && leq(y, x) ==> x == y
    ensures a[|a| - 1] == b[|b| - 1]
  {
    var la, lb := a[|a| - 1], b[|b| - 1];
    assert la in multiset(a) && lb in multiset(b);
    var i :| 0 <= i < |a| && a[i] == lb;
    var j :| 0 <= j < |b| && b[j] == la;
    if i != |a| - 1 && j != |b| - 1 {
      assert leq(lb, la) && leq(la, lb);
    }
  }

  /** There is only one way to sort elements of which no two distinct ones tie. */
  lemma {:induction false} SortedUnique<T>(leq: (T, T) -> bool, a: seq<T>, b: seq<T>)
    requires Sorted(leq, a) && Sorted(leq, b) && multiset(a) == multiset(b)
    requires forall x, y :: x in a && y in a && leq(x, y) && leq(y, x) ==> x == y
    ensures a == b
    decreases |a|
  {
    SameSize(a, b);
    if |a| != 0 {
      SameLast(leq, a, b);
      FrontsAgree(leq, a, b);
      SortedUnique(leq, a[..|a| - 1], b[..|b| - 1]);
      FrontLast(a);
      FrontLast(b);
    }
  }

  lemma FrontsAgree<T>(leq: (T, T) -> bool, a: seq<T>, b: seq<T>)
    requires Sorted(leq, a) && Sorted(leq, b) && multiset(a) == multiset(b) && |a| == |b| > 0
    requires a[|a| - 1] == b[|b| - 1]
    ensures Sorted(leq, a[..|a| - 1]) && Sorted(leq, b[..|b| - 1])
    ensures multiset(a[..|a| - 1]) == multiset(b[..|b| - 1])
    ensures forall x :: x in a[..|a| - 1] ==> x in a
  {
    DropLast(a);
    DropLast(b);
  }

  /** Sorting forgets the order of its input when no two distinct elements tie. */
  lemma {:induction false} SortForgetsOrder<T(!new)>(leq: (T, T) -> bool, a: seq<T>, b: seq<T>)
    requires TotalPreorder(leq) && multiset(a) == multiset(b)
    requires forall x, y :: x in a && y in a && leq(x, y) && leq(y, x) ==> x == y
    ensures Sort(leq, a) == Sort(leq, b)
  {
    SortPermutes(leq, a);
    SortPermutes(leq, b);
    SortSorts(leq, a);
    SortSorts(leq, b);
    var s := Sort(leq, a);
    forall x | x in s ensures x in a {
      assert x in multiset(s);
    }
    SortedUnique(leq, s, Sort(leq, b));
  }
}

/** Decimal text of numbers, as formatted strings contain it. */
module Text {
  function Digit(d: nat): char
    requires d < 10
  {
    "0123456789"[d]
  }

  function Decimal(n: nat): (s: string)
    ensures |s| > 0
  {
    if n < 10 then [Digit(n)] else Decimal(n / 10) + [Digit(n % 10)]
  }

  function IntText(n: int): string {
    if n < 0 then "-" + Decimal(-n) else Decimal(n)
  }

  /** The number that a text of digits stands for. */
  function NumberOf(text: string): int {
    if |text| == 0 then 0 else 10 * NumberOf(text[..|text| - 1]) + (text[|text| - 1] as int - '0' as int)
  }

  /** The text of a number reads back as the number. */
  lemma {:induction false} DecimalReadsBack(n: nat)
    ensures NumberOf(Decimal(n)) == n && forall c :: c in Decimal(n) ==> '0' <= c <= '9'
  {
    if n >= 10 {
      DecimalReadsBack(n / 10);
      var s := Decimal(n);
      assert s[..|s| - 1] == Decimal(n / 10);
    } else {
      assert NumberOf([]) == 0 && [Digit(n)][..0] == [];
    }
  }

  /** Different numbers have different texts. */
  lemma {:induction false} DecimalInjective(a: nat, b: nat)
    requires Decimal(a) == Decimal(b)
    ensures a == b
  {
    DecimalReadsBack(a);
    DecimalReadsBack(b);
  }

  /** The part behind the last separator can be read off the end. */
  lemma {:induction false} LastSplit(separator: char, a: string, x: string, b: string, y: string)
    requires separator !in x && separator !in y && a + [separator] + x == b + [separator] + y
    ensures a == b && x == y
  {
    var s := a + [separator] + x;
    assert s == b + [separator] + y;
    assert s[|a|] == separator && s[|b|] == separator;
    assert forall i :: |a| < i < |s| ==> s[i] == x[i - |a| - 1] && s[i] in x;
    assert forall i :: |b| < i < |s| ==> s[i] == y[i - |b| - 1] && s[i] in y;
    assert a == s[..|a|] && b == s[..|b|];
    assert x == s[|a| + 1..] && y == s[|b| + 1..];
  }

  /** A text with no colon before its end can be read off the front of a colon-separated string. */
  lemma {:induction false} ColonSplit(a: string, x: string, b: string, y: string)
    requires ':' !in a && ':' !in b && a + ":" + x == b + ":" + y
    ensures a == b && x == y
  {
    var s := a + ":" + x;
    assert s == b + ":" + y;
    assert s[|a|] == ':' && s[|b|] == ':';
    assert forall i :: 0 <= i < |a| ==> s[i] == a[i] && a[i] in a;
    assert forall i :: 0 <= i < |b| ==> s[i] == b[i] && b[i] in b;
    assert a == s[..|a|] && b == s[..|b|];
    assert x == s[|a| + 1..] && y == s[|b| + 1..];
  }
}
