/** The orders the engine sorts by, and the sort itself. */
module Orders {
  ghost predicate TotalOrder<T(!new)>(leq: (T, T) -> bool) {
    && (forall a, b :: leq(a, b) || leq(b, a))
    && (forall a, b :: leq(a, b) && leq(b, a) ==> a == b)
    && (forall a, b, c :: leq(a, b) && leq(b, c) ==> leq(a, c))
  }

  /** Lexicographic order of two sequences, element by element; a prefix comes first. */
  predicate Lex<T(==)>(leq: (T, T) -> bool, a: seq<T>, b: seq<T>) {
    a == [] || (b != [] && if a[0] == b[0] then Lex(leq, a[1..], b[1..]) else leq(a[0], b[0]))
  }

  lemma {:induction false} LexTotal<T>(leq: (T, T) -> bool, a: seq<T>, b: seq<T>)
    requires forall x, y :: leq(x, y) || leq(y, x)
    ensures Lex(leq, a, b) || Lex(leq, b, a)
  {
    if a != [] && b != [] && a[0] == b[0] {
      LexTotal(leq, a[1..], b[1..]);
    }
  }

  lemma {:induction false} LexAntisymmetric<T>(leq: (T, T) -> bool, a: seq<T>, b: seq<T>)
    requires forall x, y :: leq(x, y) && leq(y, x) ==> x == y
    requires Lex(leq, a, b) && Lex(leq, b, a)
    ensures a == b
  {
    if a != [] {
      LexAntisymmetric(leq, a[1..], b[1..]);
      assert a == [a[0]] + a[1..] && b == [b[0]] + b[1..];
    }
  }

  lemma {:induction false} LexTransitive<T(!new)>(leq: (T, T) -> bool, a: seq<T>, b: seq<T>, c: seq<T>)
    requires TotalOrder(leq)
    requires Lex(leq, a, b) && Lex(leq, b, c)
    ensures Lex(leq, a, c)
  {
    if a != [] && a[0] == b[0] && b[0] == c[0] {
      LexTransitive(leq, a[1..], b[1..], c[1..]);
    }
  }

  predicate CharLeq(a: char, b: char) { a <= b }

  predicate StringLeq(a: string, b: string) { Lex(CharLeq, a, b) }

  lemma StringsAreOrdered()
    ensures TotalOrder(StringLeq)
  {
    forall a: string, b: string
      ensures StringLeq(a, b) || StringLeq(b, a)
      ensures StringLeq(a, b) && StringLeq(b, a) ==> a == b
    {
      LexTotal(CharLeq, a, b);
      if StringLeq(a, b) && StringLeq(b, a) {
        LexAntisymmetric(CharLeq, a, b);
      }
    }
    forall a: string, b: string, c: string | StringLeq(a, b) && StringLeq(b, c)
      ensures StringLeq(a, c)
    {
      LexTransitive(CharLeq, a, b, c);
    }
  }

  lemma LexIsOrdered<T(!new)>(leq: (T, T) -> bool)
    requires TotalOrder(leq)
    ensures TotalOrder((a: seq<T>, b: seq<T>) => Lex(leq, a, b))
  {
    forall a: seq<T>, b: seq<T>
      ensures Lex(leq, a, b) || Lex(leq, b, a)
      ensures Lex(leq, a, b) && Lex(leq, b, a) ==> a == b
    {
      LexTotal(leq, a, b);
      if Lex(leq, a, b) && Lex(leq, b, a) {
        LexAntisymmetric(leq, a, b);
      }
    }
    forall a: seq<T>, b: seq<T>, c: seq<T> | Lex(leq, a, b) && Lex(leq, b, c)
      ensures Lex(leq, a, c)
    {
      LexTransitive(leq, a, b, c);
    }
  }

  ghost predicate Sorted<T>(leq: (T, T) -> bool, s: seq<T>) {
    forall i, j :: 0 <= i < j < |s| ==> leq(s[i], s[j])
  }

  method Insert<T(!new)>(leq: (T, T) -> bool, s: seq<T>, x: T) returns (r: seq<T>)
    requires TotalOrder(leq) && Sorted(leq, s)
    ensures Sorted(leq, r) && multiset(r) == multiset(s) + multiset{x}
  {
    var k := 0;
    while k < |s| && leq(s[k], x)
      invariant k <= |s|
      invariant forall i :: 0 <= i < k ==> leq(s[i], x)
    {
      k := k + 1;
    }
    r := s[..k] + [x] + s[k..];
    assert s == s[..k] + s[k..];
    assert forall i :: k <= i < |s| ==> leq(x, s[i]) by {
      if k < |s| {
        assert leq(x, s[k]);
      }
    }
  }

  /** Sorting keeps exactly the same elements and puts them in order. */
  method Sort<T(!new)>(leq: (T, T) -> bool, s: seq<T>) returns (r: seq<T>)
    requires TotalOrder(leq)
    ensures Sorted(leq, r) && multiset(r) == multiset(s)
  {
    r := [];
    var n := 0;
    while n < |s|
      invariant n <= |s|
      invariant Sorted(leq, r) && multiset(r) == multiset(s[..n])
    {
      assert s[..n + 1] == s[..n] + [s[n]];
      r := Insert(leq, r, s[n]);
      n := n + 1;
    }
    assert s[..n] == s;
  }

  ghost predicate Distinct<T>(s: seq<T>) {
    forall i, j :: 0 <= i < j < |s| ==> s[i] != s[j]
  }

  /** The members of a set, each once, in order. */
  method SetInOrder<T(!new, ==)>(leq: (T, T) -> bool, s: set<T>) returns (r: seq<T>)
    requires TotalOrder(leq)
    ensures Sorted(leq, r) && Distinct(r)
    ensures forall x :: x in r <==> x in s
  {
    var todo, collected := s, [];
    while todo != {}
      invariant todo <= s && Distinct(collected)
      invariant forall x :: x in collected <==> x in s && x !in todo
      decreases todo
    {
      var x :| x in todo;
      todo, collected := todo - {x}, collected + [x];
    }
    r := Sort(leq, collected);
    SameElements(r, collected);
  }

  lemma {:induction false} DistinctByCount<T>(s: seq<T>)
    ensures Distinct(s) <==> forall x :: multiset(s)[x] <= 1
  {
    if s != [] {
      var init, last := s[..|s| - 1], s[|s| - 1];
      assert s == init + [last];
      DistinctByCount(init);
      if Distinct(s) {
        assert last !in init;
        assert multiset(init)[last] == 0;
      } else if Distinct(init) {
        assert exists i :: 0 <= i < |init| && init[i] == last;
        assert last in multiset(init);
        assert multiset(s)[last] > 1;
      } else {
        var x :| multiset(init)[x] > 1;
        assert multiset(s)[x] > 1;
      }
    }
  }

  lemma SameElements<T>(a: seq<T>, b: seq<T>)
    requires multiset(a) == multiset(b)
    ensures |a| == |b|
    ensures forall x :: x in a <==> x in b
    ensures Distinct(a) <==> Distinct(b)
  {
    assert forall x :: x in a <==> x in multiset(a);
    assert forall x :: x in b <==> x in multiset(b);
    assert |multiset(a)| == |a| && |multiset(b)| == |b|;
    DistinctByCount(a);
    DistinctByCount(b);
  }

  /** A sequence of distinct members of a set is no longer than the set. */
  lemma {:induction false} DistinctFits<T>(s: seq<T>, all: set<T>)
    requires Distinct(s) && forall x :: x in s ==> x in all
    ensures |s| <= |all|
  {
    if s != [] {
      var init, last := s[..|s| - 1], s[|s| - 1];
      forall x | x in init
        ensures x in all - {last}
      {
        var i :| 0 <= i < |init| && init[i] == x;
        assert s[i] == x;
      }
      DistinctFits(init, all - {last});
    }
  }
}
