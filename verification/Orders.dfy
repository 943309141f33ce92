/** Go ranges over maps in an unspecified order; an order is a duplicate-free listing of the keys. */
module Orders {
  predicate NoDuplicates<T(==)>(order: seq<T>) {
    forall i, j :: 0 <= i < j < |order| ==> order[i] != order[j]
  }

  predicate Enumerates<T(==)>(order: seq<T>, keys: set<T>) {
    && NoDuplicates(order)
    && (forall i :: 0 <= i < |order| ==> order[i] in keys)
    && (forall k :: k in keys ==> k in order)
  }

  /** Every set of keys can be listed. */
  lemma {:induction false} SomeOrder<T>(keys: set<T>) returns (order: seq<T>)
    ensures Enumerates(order, keys)
  {
    if keys == {} {
      order := [];
    } else {
      var k :| k in keys;
      var rest := SomeOrder(keys - {k});
      order := rest + [k];
    }
  }

  /** Two listings of the same keys are permutations of each other. */
  lemma {:induction false} EnumerationsPermute<T>(a: seq<T>, b: seq<T>, keys: set<T>)
    requires Enumerates(a, keys) && Enumerates(b, keys)
    ensures multiset(a) == multiset(b) == multiset(keys)
  {
    EnumerationAsMultiset(a, keys);
    EnumerationAsMultiset(b, keys);
  }

  /** Two duplicate-free listings with the same members are permutations of each other. */
  lemma SameMembersPermute<T>(a: seq<T>, b: seq<T>)
    requires NoDuplicates(a) && NoDuplicates(b) && forall k :: k in a <==> k in b
    ensures multiset(a) == multiset(b)
  {
    EnumerationsPermute(a, b, set k | k in a);
  }

  lemma {:induction false} EnumerationAsMultiset<T>(a: seq<T>, keys: set<T>)
    requires Enumerates(a, keys)
    ensures multiset(a) == multiset(keys)
    decreases |a|
  {
    if a == [] {
      assert keys == {};
    } else {
      var n := |a| - 1;
      assert a == a[..n] + [a[n]];
      assert Enumerates(a[..n], keys - {a[n]});
      EnumerationAsMultiset(a[..n], keys - {a[n]});
      assert keys == (keys - {a[n]}) + {a[n]};
    }
  }

  function Mapped<A, B>(f: A -> B, s: seq<A>): seq<B> {
    seq(|s|, i requires 0 <= i < |s| => f(s[i]))
  }

  lemma MiddleOut<A>(a: seq<A>, x: A, b: seq<A>)
    ensures multiset(a + [x] + b) == multiset(a + b) + multiset{x}
  {
  }

  lemma MappedSplit<A, B>(f: A -> B, a: seq<A>, x: A, b: seq<A>)
    ensures multiset(Mapped(f, a + [x] + b)) == multiset(Mapped(f, a + b)) + multiset{f(x)}
  {
    assert Mapped(f, a + [x] + b) == Mapped(f, a) + [f(x)] + Mapped(f, b);
    assert Mapped(f, a + b) == Mapped(f, a) + Mapped(f, b);
    MiddleOut(Mapped(f, a), f(x), Mapped(f, b));
  }

  lemma SameRest<A>(a: seq<A>, x: A, b1: seq<A>, b2: seq<A>)
    requires multiset(a + [x]) == multiset(b1 + [x] + b2)
    ensures multiset(a) == multiset(b1 + b2)
  {
    MiddleOut(b1, x, b2);
    assert multiset(a + [x]) == multiset(a) + multiset{x};
    assert multiset(a) == multiset(a + [x]) - multiset{x};
    assert multiset(b1 + b2) == multiset(b1 + [x] + b2) - multiset{x};
  }

  /** A function carries permutations to permutations. */
  lemma {:induction false} MappedPermutes<A, B>(f: A -> B, a: seq<A>, b: seq<A>)
    requires multiset(a) == multiset(b)
    ensures multiset(Mapped(f, a)) == multiset(Mapped(f, b))
    decreases |a|
  {
    assert |a| == |multiset(a)| == |multiset(b)| == |b|;
    if a != [] {
      var n := |a| - 1;
      var x := a[n];
      assert x in multiset(b);
      var m :| 0 <= m < |b| && b[m] == x;
      assert a == a[..n] + [x] && a[..n] + [x] + [] == a && a[..n] + [] == a[..n];
      assert b == b[..m] + [x] + b[m + 1..];
      SameRest(a[..n], x, b[..m], b[m + 1..]);
      MappedPermutes(f, a[..n], b[..m] + b[m + 1..]);
      MappedSplit(f, a[..n], x, []);
      MappedSplit(f, b[..m], x, b[m + 1..]);
    }
  }
}
