/** Orders, sorting and permutations shared by every component.
    A library sort is known to its callers only by its contract: the result is a
    permutation in which no later element is less than an earlier one.  Nothing is
    promised about elements that tie, so what is proved of a caller holds for
    every sorting algorithm. */
module Ordering {

  /** A strict weak order, what a comparison passed to a sort must be. */
  ghost predicate StrictOrder<T(!new)>(less: (T, T) -> bool) {
    && (forall x, y :: less(x, y) ==> !less(y, x))
    && (forall x, y, z {:trigger less(x, y), less(y, z)} :: less(x, z) ==> less(x, y) || less(y, z))
  }

  /** A strict order that leaves no two different values tied. */
  ghost predicate TotalOrder<T(!new)>(less: (T, T) -> bool) {
    && StrictOrder(less)
    && (forall x, y :: x == y || less(x, y) || less(y, x))
  }

  ghost predicate Ascending<T>(s: seq<T>, less: (T, T) -> bool) {
    forall i, j | 0 <= i < j < |s| :: !less(s[j], s[i])
  }

  /** No two different elements of s tie. */
  ghost predicate Separated<T>(s: seq<T>, less: (T, T) -> bool) {
    forall x, y | x in s && y in s && x != y :: less(x, y) || less(y, x)
  }

  lemma ConsAscending<T(!new)>(x: T, s: seq<T>, less: (T, T) -> bool)
    requires StrictOrder(less) && Ascending(s, less)
    requires s == [] || !less(s[0], x)
    ensures Ascending([x] + s, less)
  {
    forall j | 0 <= j < |s| ensures !less(s[j], x) {
      if j > 0 { assert !less(s[j], s[0]) && !less(s[0], x); }
    }
  }

  function Insert<T(!new)>(x: T, s: seq<T>, less: (T, T) -> bool): (r: seq<T>)
    requires StrictOrder(less) && Ascending(s, less)
    ensures Ascending(r, less) && multiset(r) == multiset(s) + multiset{x}
    ensures r[0] == x || (s != [] && r[0] == s[0])
  {
    if s == [] || less(x, s[0]) then
      ConsAscending(x, s, less);
      [x] + s
    else
      var rest := Insert(x, s[1..], less);
      assert s == [s[0]] + s[1..];
      ConsAscending(s[0], rest, less);
      [s[0]] + rest
  }

  function Arrange<T(!new)>(s: seq<T>, less: (T, T) -> bool): (r: seq<T>)
    requires StrictOrder(less)
    ensures Ascending(r, less) && multiset(r) == multiset(s)
  {
    if s == [] then []
    else
      assert s == [s[0]] + s[1..];
      Insert(s[0], Arrange(s[1..], less), less)
  }

  /** The library sort.  Callers see the contract, never the algorithm. */
  method SortSlice<T(!new)>(s: seq<T>, less: (T, T) -> bool) returns (r: seq<T>)
    requires StrictOrder(less)
    ensures Ascending(r, less) && multiset(r) == multiset(s)
  {
    r := Arrange(s, less);
  }

  lemma SameHead<T(!new)>(a: seq<T>, b: seq<T>, less: (T, T) -> bool)
    requires multiset(a) == multiset(b) && a != [] && b != []
    requires Ascending(a, less) && Ascending(b, less) && Separated(a, less)
    ensures a[0] == b[0]
  {
    SameElements(a, b);
    assert a[0] in b && b[0] in a;
    var i :| 0 <= i < |b| && b[i] == a[0];
    var j :| 0 <= j < |a| && a[j] == b[0];
    if i > 0 && j > 0 { assert !less(a[j], a[0]) && !less(b[i], b[0]); }
  }

  lemma TailFacts<T(!new)>(s: seq<T>, less: (T, T) -> bool)
    requires s != [] && Ascending(s, less)
    ensures s == [s[0]] + s[1..] && Ascending(s[1..], less)
    ensures multiset(s[1..]) == multiset(s) - multiset{s[0]}
    ensures Separated(s, less) ==> Separated(s[1..], less)
  {
    assert s == [s[0]] + s[1..];
  }

  /** When no two different elements tie, every sort gives the same result. */
  lemma {:induction false} SortedIsUnique<T(!new)>(a: seq<T>, b: seq<T>, less: (T, T) -> bool)
    requires multiset(a) == multiset(b)
    requires Ascending(a, less) && Ascending(b, less) && Separated(a, less)
    ensures a == b
  {
    assert |multiset(a)| == |multiset(b)|;
    if a != [] {
      SameHead(a, b, less);
      TailFacts(a, less);
      TailFacts(b, less);
      SortedIsUnique(a[1..], b[1..], less);
    }
  }

  lemma SameElements<T>(a: seq<T>, b: seq<T>)
    requires multiset(a) == multiset(b)
    ensures |a| == |b| && forall x :: x in a <==> x in b
  {
    assert |multiset(a)| == |multiset(b)|;
    forall x ensures x in a <==> x in b {
      assert x in a <==> x in multiset(a);
      assert x in b <==> x in multiset(b);
    }
  }

  // ---------------------------------------------------------------- keys

  function Map<A, B>(f: A -> B, s: seq<A>): (r: seq<B>)
    ensures |r| == |s| && forall i | 0 <= i < |s| :: r[i] == f(s[i])
  {
    seq(|s|, i requires 0 <= i < |s| => f(s[i]))
  }

  predicate Distinct<T(==)>(s: seq<T>) {
    forall i, j | 0 <= i < j < |s| :: s[i] != s[j]
  }

  /** Mapping a permutation gives a permutation. */
  lemma {:induction false} MapPermutes<A, B>(f: A -> B, a: seq<A>, b: seq<A>)
    requires multiset(a) == multiset(b)
    ensures multiset(Map(f, a)) == multiset(Map(f, b))
  {
    SameElements(a, b);
    if a != [] {
      assert a[0] in b;
      var k :| 0 <= k < |b| && b[k] == a[0];
      var c := b[..k] + b[k+1..];
      RemoveBoth(a, b, k);
      MapPermutes(f, a[1..], c);
      assert Map(f, a) == [f(a[0])] + Map(f, a[1..]);
      assert Map(f, b)[..k] + Map(f, b)[k+1..] == Map(f, c);
      Extract(Map(f, b), k);
    }
  }

  lemma Extract<T>(s: seq<T>, k: nat)
    requires k < |s|
    ensures multiset(s) == multiset(s[..k] + s[k+1..]) + multiset{s[k]}
  {
    assert s == s[..k] + ([s[k]] + s[k+1..]);
  }

  lemma RemoveBoth<T>(a: seq<T>, b: seq<T>, k: nat)
    requires multiset(a) == multiset(b) && a != [] && k < |b| && b[k] == a[0]
    ensures multiset(a[1..]) == multiset(b[..k] + b[k+1..])
  {
    Extract(b, k);
    assert a == [a[0]] + a[1..];
    assert multiset(a[1..]) == multiset(a) - multiset{a[0]};
  }

  /** A sequence is free of repeats exactly when no count exceeds one. */
  lemma DistinctCounts<T>(s: seq<T>)
    ensures Distinct(s) <==> forall x :: multiset(s)[x] <= 1
  {
    if Distinct(s) {
      forall x ensures multiset(s)[x] <= 1 { DistinctCount(s, x); }
    } else {
      var i, j :| 0 <= i < j < |s| && s[i] == s[j];
      assert s == s[..i] + [s[i]] + s[i+1..j] + [s[j]] + s[j+1..];
      assert multiset(s)[s[i]] >= 2;
    }
  }

  lemma {:induction false} DistinctCount<T>(s: seq<T>, x: T)
    requires Distinct(s)
    ensures multiset(s)[x] <= 1
  {
    if s != [] {
      assert s == [s[0]] + s[1..];
      DistinctCount(s[1..], x);
      if s[0] == x { assert x !in s[1..]; }
    }
  }

  /** Absence of repeats survives permutation. */
  lemma DistinctPermutes<T>(a: seq<T>, b: seq<T>)
    requires multiset(a) == multiset(b) && Distinct(a)
    ensures Distinct(b)
  {
    DistinctCounts(a);
    DistinctCounts(b);
  }

  // ---------------------------------------------------------------- lexicographic order

  predicate Lex<T(==)>(a: seq<T>, b: seq<T>, less: (T, T) -> bool) {
    if b == [] then false
    else if a == [] then true
    else less(a[0], b[0]) || (a[0] == b[0] && Lex(a[1..], b[1..], less))
  }

  lemma {:induction false} LexAsymmetric<T(!new)>(a: seq<T>, b: seq<T>, less: (T, T) -> bool)
    requires TotalOrder(less) && Lex(a, b, less)
    ensures !Lex(b, a, less)
  {
    if a != [] && b != [] && a[0] == b[0] { LexAsymmetric(a[1..], b[1..], less); }
  }

  lemma {:induction false} LexCotransitive<T(!new)>(a: seq<T>, b: seq<T>, c: seq<T>, less: (T, T) -> bool)
    requires TotalOrder(less) && Lex(a, c, less)
    ensures Lex(a, b, less) || Lex(b, c, less)
  {
    if a != [] && b != [] && c != [] && a[0] == b[0] == c[0] {
      LexCotransitive(a[1..], b[1..], c[1..], less);
    }
  }

  lemma {:induction false} LexConnected<T(!new)>(a: seq<T>, b: seq<T>, less: (T, T) -> bool)
    requires TotalOrder(less)
    ensures a == b || Lex(a, b, less) || Lex(b, a, less)
  {
    if a != [] && b != [] && a[0] == b[0] {
      LexConnected(a[1..], b[1..], less);
      assert a == [a[0]] + a[1..] && b == [b[0]] + b[1..];
    }
  }

  predicate CharLess(x: char, y: char) { x < y }

  predicate IntLess(x: int, y: int) { x < y }

  /** Go's string order.  Code points and their UTF-8 bytes order alike. */
  predicate StringLess(a: string, b: string) { Lex(a, b, CharLess) }

  /** The order vectors of the allocator, compared slot by slot. */
  predicate VectorLess(a: seq<int>, b: seq<int>) { Lex(a, b, IntLess) }

  lemma StringLessTotal()
    ensures TotalOrder(StringLess)
  {
    forall x, y ensures StringLess(x, y) ==> !StringLess(y, x) {
      if StringLess(x, y) { LexAsymmetric(x, y, CharLess); }
    }
    forall x, y, z ensures StringLess(x, z) ==> StringLess(x, y) || StringLess(y, z) {
      if StringLess(x, z) { LexCotransitive(x, y, z, CharLess); }
    }
    forall x, y ensures x == y || StringLess(x, y) || StringLess(y, x) {
      LexConnected(x, y, CharLess);
    }
  }

  lemma VectorLessTotal()
    ensures TotalOrder(VectorLess)
  {
    forall x, y ensures VectorLess(x, y) ==> !VectorLess(y, x) {
      if VectorLess(x, y) { LexAsymmetric(x, y, IntLess); }
    }
    forall x, y, z ensures VectorLess(x, z) ==> VectorLess(x, y) || VectorLess(y, z) {
      if VectorLess(x, z) { LexCotransitive(x, y, z, IntLess); }
    }
    forall x, y ensures x == y || VectorLess(x, y) || VectorLess(y, x) {
      LexConnected(x, y, IntLess);
    }
  }

  // ---------------------------------------------------------------- sets in order

  function Elements<T(==)>(s: seq<T>): set<T> {
    set x | x in s
  }

  lemma {:induction false} SubsetSize<T>(a: set<T>, b: set<T>)
    requires a <= b
    ensures |a| <= |b|
  {
    if a != {} {
      var x :| x in a;
      SubsetSize(a - {x}, b - {x});
    }
  }

  /** s lists the set, each member once, in ascending order. */
  ghost predicate Enumerates(s: seq<string>, members: set<string>) {
    Elements(s) == members && Distinct(s) && Ascending(s, StringLess)
  }

  /** Two listings of one set are permutations of each other. */
  lemma ListingsPermute<T>(a: seq<T>, b: seq<T>)
    requires Elements(a) == Elements(b) && Distinct(a) && Distinct(b)
    ensures multiset(a) == multiset(b)
  {
    forall x ensures multiset(a)[x] == multiset(b)[x] {
      DistinctCount(a, x);
      DistinctCount(b, x);
      assert x in a <==> x in Elements(a);
      assert x in b <==> x in Elements(b);
      assert x in multiset(a) <==> x in a;
      assert x in multiset(b) <==> x in b;
    }
  }

  lemma EnumerationIsUnique(a: seq<string>, b: seq<string>, members: set<string>)
    requires Enumerates(a, members) && Enumerates(b, members)
    ensures a == b
  {
    StringLessTotal();
    ListingsPermute(a, b);
    SortedIsUnique(a, b, StringLess);
  }

  lemma EnumerationExists(members: set<string>)
    ensures exists s :: Enumerates(s, members)
  {
    var list := Listed(members);
    StringLessTotal();
    var s := Arrange(list, StringLess);
    DistinctPermutes(list, s);
    SameElements(list, s);
    assert Enumerates(s, members);
  }

  lemma Listed<T>(members: set<T>) returns (s: seq<T>)
    ensures Elements(s) == members && Distinct(s)
  {
    s := [];
    if members != {} {
      var x :| x in members;
      var rest := Listed(members - {x});
      assert x !in Elements(rest) && members == {x} + Elements(rest);
      s := [x] + rest;
      assert Elements(s) == {x} + Elements(rest);
    }
  }

  /** The members of a set in ascending order. */
  ghost function Enumeration(members: set<string>): (s: seq<string>)
    ensures Enumerates(s, members)
  {
    EnumerationExists(members);
    var s :| Enumerates(s, members);
    s
  }

  /** The members of a set, in whatever order iterating over it yields them. */
  method Listing<T(==)>(members: set<T>) returns (list: seq<T>)
    ensures Elements(list) == members && Distinct(list)
  {
    list := [];
    var todo := members;
    while todo != {}
      invariant todo <= members && Elements(list) == members - todo && Distinct(list)
      decreases |todo|
    {
      var x :| x in todo;
      assert x !in Elements(list);
      assert Elements(list + [x]) == Elements(list) + {x};
      list := list + [x];
      todo := todo - {x};
    }
  }

  /** Listed and then sorted, a set of strings comes out one way only. */
  method SortedMembers(members: set<string>) returns (keys: seq<string>)
    ensures Enumerates(keys, members) && keys == Enumeration(members)
  {
    StringLessTotal();
    var list := Listing(members);
    keys := SortSlice(list, StringLess);
    DistinctPermutes(list, keys);
    SameElements(list, keys);
    assert Elements(keys) == Elements(list);
    EnumerationIsUnique(keys, Enumeration(members), members);
  }
}
