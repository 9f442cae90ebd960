/** Filtering and sorting sequences. */
module Lists {

  /** The elements that satisfy `p`, in their order. */
  function Keep<T>(xs: seq<T>, p: T -> bool): seq<T> {
    if xs == [] then []
    else Keep(xs[..|xs| - 1], p) + if p(xs[|xs| - 1]) then [xs[|xs| - 1]] else []
  }

  lemma InTwoPieces<T>(a: seq<T>, b: seq<T>)
    ensures b == [] ==> a + b == a
    ensures b != [] ==> a + b == a + b[..|b| - 1] + [b[|b| - 1]] && b == b[..|b| - 1] + [b[|b| - 1]]
  {
  }

  function Not<T>(p: T -> bool): T -> bool {
    x => !p(x)
  }

  /** The elements that do not satisfy `p`, in their order. */
  function Drop<T>(xs: seq<T>, p: T -> bool): seq<T> {
    Keep(xs, Not(p))
  }

  lemma KeepOneMore<T>(xs: seq<T>, x: T, p: T -> bool)
    ensures Keep(xs + [x], p) == Keep(xs, p) + if p(x) then [x] else []
  {
    assert (xs + [x])[..|xs|] == xs;
  }

  /** Where a list satisfies a predicate. */
  ghost function Positions<T>(xs: seq<T>, p: T -> bool): set<int> {
    set i | 0 <= i < |xs| && p(xs[i])
  }

  lemma PositionsOneMore<T>(xs: seq<T>, x: T, p: T -> bool)
    ensures |Positions(xs + [x], p)| == |Positions(xs, p)| + if p(x) then 1 else 0
  {
    assert Positions(xs + [x], p) == Positions(xs, p) + if p(x) then {|xs|} else {};
  }

  lemma PositionsOfLast<T>(xs: seq<T>, p: T -> bool)
    requires xs != []
    ensures |Positions(xs, p)| == |Positions(xs[..|xs| - 1], p)| + if p(xs[|xs| - 1]) then 1 else 0
  {
    PositionsOneMore(xs[..|xs| - 1], xs[|xs| - 1], p);
    assert xs[..|xs| - 1] + [xs[|xs| - 1]] == xs;
  }

  lemma {:induction false} KeepCounts<T>(xs: seq<T>, p: T -> bool)
    ensures |Keep(xs, p)| == |Positions(xs, p)|
  {
    if xs != [] {
      KeepCounts(xs[..|xs| - 1], p);
      PositionsOfLast(xs, p);
    }
  }

  lemma {:induction false} KeepShrinks<T>(xs: seq<T>, p: T -> bool)
    ensures |Keep(xs, p)| <= |xs|
  {
    if xs != [] {
      KeepShrinks(xs[..|xs| - 1], p);
    }
  }

  lemma {:induction false} KeepMembers<T>(xs: seq<T>, p: T -> bool, x: T)
    ensures x in Keep(xs, p) <==> x in xs && p(x)
  {
    if xs != [] {
      KeepMembers(xs[..|xs| - 1], p, x);
      assert xs == xs[..|xs| - 1] + [xs[|xs| - 1]];
    }
  }

  lemma {:induction false} KeepTwice<T(!new)>(xs: seq<T>, p: T -> bool, q: T -> bool, both: T -> bool)
    requires forall x | x in xs :: both(x) <==> p(x) && q(x)
    ensures Keep(Keep(xs, p), q) == Keep(xs, both)
  {
    if xs != [] {
      var front, x := xs[..|xs| - 1], xs[|xs| - 1];
      KeepTwice(front, p, q, both);
      KeepOneMore(Keep(front, p), x, q);
      assert Keep(xs, p) == if p(x) then Keep(front, p) + [x] else Keep(front, p);
      assert both(x) <==> p(x) && q(x);
    }
  }

  /** A stronger predicate keeps fewer exactly when some element tells the two apart. */
  lemma {:induction false} KeepFewer<T(!new)>(xs: seq<T>, p: T -> bool, q: T -> bool)
    requires forall x | x in xs && p(x) :: q(x)
    ensures |Keep(xs, p)| <= |Keep(xs, q)|
    ensures |Keep(xs, p)| == |Keep(xs, q)| <==> forall x | x in xs && q(x) :: p(x)
  {
    if xs != [] {
      var front, last := xs[..|xs| - 1], xs[|xs| - 1];
      KeepFewer(front, p, q);
      assert xs == front + [last];
    }
  }

  /** Two predicates that agree on the elements keep the same. */
  lemma {:induction false} KeepSame<T(!new)>(xs: seq<T>, p: T -> bool, q: T -> bool)
    requires forall x | x in xs :: p(x) <==> q(x)
    ensures Keep(xs, p) == Keep(xs, q)
  {
    if xs != [] {
      KeepSame(xs[..|xs| - 1], p, q);
    }
  }

  lemma {:induction false} KeepNone<T>(xs: seq<T>, p: T -> bool)
    requires forall i | 0 <= i < |xs| :: !p(xs[i])
    ensures Keep(xs, p) == []
  {
    if xs != [] {
      KeepNone(xs[..|xs| - 1], p);
    }
  }

  lemma {:induction false} KeepOthers<T>(xs: seq<T>, p: T -> bool, k: nat)
    requires k < |xs| && forall i | 0 <= i < |xs| :: p(xs[i]) <==> i != k
    ensures Keep(xs, p) == xs[..k] + xs[k + 1..]
  {
    var front, last := xs[..|xs| - 1], xs[|xs| - 1];
    if k == |front| {
      KeepAll(front, p);
    } else {
      KeepOthers(front, p, k);
      assert xs[k + 1..] == front[k + 1..] + [last];
    }
  }

  /** Filtering splits a sequence without losing anything. */
  lemma {:induction false} KeepAndDrop<T>(xs: seq<T>, p: T -> bool)
    ensures multiset(Keep(xs, p)) + multiset(Drop(xs, p)) == multiset(xs)
  {
    if xs != [] {
      var front, last := xs[..|xs| - 1], xs[|xs| - 1];
      KeepAndDrop(front, p);
      KeepOneMore(front, last, p);
      KeepOneMore(front, last, Not(p));
      assert xs == front + [last];
    }
  }

  lemma {:induction false} DropNothing<T>(xs: seq<T>, p: T -> bool)
    requires Keep(xs, p) == []
    ensures Drop(xs, p) == xs
  {
    if xs != [] {
      DropNothing(xs[..|xs| - 1], p);
    }
  }

  predicate NoDuplicates<T(==)>(xs: seq<T>) {
    xs == [] || (NoDuplicates(xs[..|xs| - 1]) && xs[|xs| - 1] !in xs[..|xs| - 1])
  }

  lemma NoDuplicatesOneMore<T>(xs: seq<T>, x: T)
    ensures NoDuplicates(xs + [x]) <==> NoDuplicates(xs) && x !in xs
  {
    assert (xs + [x])[..|xs|] == xs;
  }

  lemma {:induction false} KeepNoDuplicates<T>(xs: seq<T>, p: T -> bool)
    requires NoDuplicates(xs)
    ensures NoDuplicates(Keep(xs, p))
  {
    if xs != [] {
      var front, x := xs[..|xs| - 1], xs[|xs| - 1];
      KeepNoDuplicates(front, p);
      KeepMembers(front, p, x);
      NoDuplicatesOneMore(Keep(front, p), x);
      assert Keep(xs, p) == if p(x) then Keep(front, p) + [x] else Keep(front, p);
    }
  }

  lemma {:induction false} SizeWithoutDuplicates<T>(xs: seq<T>)
    requires NoDuplicates(xs)
    ensures |set x | x in xs| == |xs|
  {
    if xs != [] {
      var front, x := xs[..|xs| - 1], xs[|xs| - 1];
      SizeWithoutDuplicates(front);
      assert xs == front + [x];
      assert (set y | y in xs) == (set y | y in front) + {x};
    }
  }

  lemma {:induction false} DistinctPositions<T>(xs: seq<T>, i: nat, j: nat)
    requires NoDuplicates(xs) && i < j < |xs|
    ensures xs[i] != xs[j]
  {
    if j < |xs| - 1 {
      DistinctPositions(xs[..|xs| - 1], i, j);
    }
  }

  lemma {:induction false} PrefixNoDuplicates<T>(xs: seq<T>, n: nat)
    requires NoDuplicates(xs) && n <= |xs|
    ensures NoDuplicates(xs[..n])
  {
    if n < |xs| {
      PrefixNoDuplicates(xs[..|xs| - 1], n);
      assert xs[..|xs| - 1][..n] == xs[..n];
    } else {
      assert xs[..n] == xs;
    }
  }

  lemma {:induction false} Occurrences<T>(xs: seq<T>, x: T)
    requires NoDuplicates(xs)
    ensures multiset(xs)[x] == if x in xs then 1 else 0
  {
    if xs != [] {
      Occurrences(xs[..|xs| - 1], x);
      assert xs == xs[..|xs| - 1] + [xs[|xs| - 1]];
    }
  }

  /** Two lists without duplicates that hold the same elements are permutations of each other. */
  lemma SameBag<T>(xs: seq<T>, ys: seq<T>)
    requires NoDuplicates(xs) && NoDuplicates(ys)
    requires forall x :: x in xs <==> x in ys
    ensures multiset(xs) == multiset(ys)
  {
    forall x ensures multiset(xs)[x] == multiset(ys)[x] {
      Occurrences(xs, x);
      Occurrences(ys, x);
    }
  }

  /** Where `p` holds of an element only if it holds of all before it, keeping takes a prefix. */
  lemma {:induction false} KeepOfOldest<T>(xs: seq<T>, p: T -> bool)
    requires forall i, j | 0 <= i < j < |xs| :: p(xs[j]) ==> p(xs[i])
    ensures |Keep(xs, p)| <= |xs| && Keep(xs, p) == xs[..|Keep(xs, p)|]
  {
    if xs != [] {
      var front, last := xs[..|xs| - 1], xs[|xs| - 1];
      KeepOfOldest(front, p);
      if p(last) {
        KeepAll(front, p);
        assert xs == front + [last];
      } else {
        assert xs[..|Keep(front, p)|] == front[..|Keep(front, p)|];
      }
    }
  }

  lemma {:induction false} KeepAll<T>(xs: seq<T>, p: T -> bool)
    requires forall i | 0 <= i < |xs| :: p(xs[i])
    ensures Keep(xs, p) == xs
  {
    if xs != [] {
      KeepAll(xs[..|xs| - 1], p);
    }
  }

  lemma {:induction false} KeepOfNewest<T>(xs: seq<T>, p: T -> bool, n: nat)
    requires n <= |xs|
    requires forall i | 0 <= i < |xs| :: p(xs[i]) <==> i >= n
    ensures Keep(xs, p) == xs[n..]
  {
    if xs != [] {
      var front, last := xs[..|xs| - 1], xs[|xs| - 1];
      assert front + [last] == xs;
      KeepOneMore(front, last, p);
      if n == |xs| {
        KeepOfNewest(front, p, n - 1);
        assert front[n - 1..] == [] && xs[n..] == [];
      } else {
        KeepOfNewest(front, p, n);
        assert xs[n..] == front[n..] + [last];
      }
    }
  }

  // ---------- Sorting ----------

  ghost predicate Orders<T(!new)>(le: (T, T) -> bool) {
    (forall a, b :: le(a, b) || le(b, a)) && (forall a, b, c :: le(a, b) && le(b, c) ==> le(a, c))
  }

  ghost predicate Sorted<T>(xs: seq<T>, le: (T, T) -> bool) {
    forall i, j | 0 <= i < j < |xs| :: le(xs[i], xs[j])
  }

  /** What is kept of a sorted list is sorted. */
  lemma {:induction false} KeepSorted<T>(xs: seq<T>, p: T -> bool, le: (T, T) -> bool)
    requires Sorted(xs, le)
    ensures Sorted(Keep(xs, p), le)
  {
    if xs != [] {
      var front, last := xs[..|xs| - 1], xs[|xs| - 1];
      KeepSorted(front, p, le);
      var kept := Keep(front, p);
      forall i | 0 <= i < |kept| ensures le(kept[i], last) {
        KeepMembers(front, p, kept[i]);
        assert kept[i] in front;
      }
    }
  }

  function Inserted<T>(xs: seq<T>, x: T, le: (T, T) -> bool): seq<T> {
    if xs == [] || le(xs[|xs| - 1], x) then xs + [x]
    else Inserted(xs[..|xs| - 1], x, le) + [xs[|xs| - 1]]
  }

  function Sort<T>(xs: seq<T>, le: (T, T) -> bool): seq<T> {
    if xs == [] then [] else Inserted(Sort(xs[..|xs| - 1], le), xs[|xs| - 1], le)
  }

  lemma {:induction false} InsertedBag<T>(xs: seq<T>, x: T, le: (T, T) -> bool)
    ensures multiset(Inserted(xs, x, le)) == multiset(xs) + multiset{x}
  {
    if xs != [] && !le(xs[|xs| - 1], x) {
      InsertedBag(xs[..|xs| - 1], x, le);
      assert xs == xs[..|xs| - 1] + [xs[|xs| - 1]];
    }
  }

  lemma SortedOneMore<T>(xs: seq<T>, x: T, le: (T, T) -> bool)
    requires Sorted(xs, le) && forall y | y in xs :: le(y, x)
    ensures Sorted(xs + [x], le)
  {
  }

  lemma {:induction false} InsertedSorts<T(!new)>(xs: seq<T>, x: T, le: (T, T) -> bool)
    requires Orders(le) && Sorted(xs, le)
    ensures Sorted(Inserted(xs, x, le), le)
  {
    if xs == [] {
      SortedOneMore(xs, x, le);
    } else {
      var front, last := xs[..|xs| - 1], xs[|xs| - 1];
      assert forall y | y in front :: le(y, last);
      if le(last, x) {
        SortedOneMore(xs, x, le);
      } else {
        InsertedSorts(front, x, le);
        InsertedBag(front, x, le);
        var ys := Inserted(front, x, le);
        forall y | y in ys ensures le(y, last) {
          assert y in multiset(ys);
        }
        SortedOneMore(ys, last, le);
      }
    }
  }

  lemma {:induction false} SortBag<T>(xs: seq<T>, le: (T, T) -> bool)
    ensures multiset(Sort(xs, le)) == multiset(xs)
  {
    if xs != [] {
      SortBag(xs[..|xs| - 1], le);
      InsertedBag(Sort(xs[..|xs| - 1], le), xs[|xs| - 1], le);
      assert xs == xs[..|xs| - 1] + [xs[|xs| - 1]];
    }
  }

  lemma {:induction false} SortSorts<T(!new)>(xs: seq<T>, le: (T, T) -> bool)
    requires Orders(le)
    ensures Sorted(Sort(xs, le), le) && multiset(Sort(xs, le)) == multiset(xs)
  {
    SortBag(xs, le);
    if xs != [] {
      SortSorts(xs[..|xs| - 1], le);
      InsertedSorts(Sort(xs[..|xs| - 1], le), xs[|xs| - 1], le);
    }
  }

  /** Go's order on strings. */
  predicate StringLe(a: string, b: string) {
    a == [] || (b != [] && (a[0] < b[0] || (a[0] == b[0] && StringLe(a[1..], b[1..]))))
  }

  lemma {:induction false} StringLeTotal(a: string, b: string)
    ensures StringLe(a, b) || StringLe(b, a)
  {
    if a != [] && b != [] && a[0] == b[0] {
      StringLeTotal(a[1..], b[1..]);
    }
  }

  lemma {:induction false} StringLeTransitive(a: string, b: string, c: string)
    requires StringLe(a, b) && StringLe(b, c)
    ensures StringLe(a, c)
  {
    if a != [] && a[0] == b[0] && b[0] == c[0] {
      StringLeTransitive(a[1..], b[1..], c[1..]);
    }
  }

  /** The order of strings is Go's: the first position at which they differ decides, and a prefix comes first. */
  lemma {:induction false} StringLeByFirstDifference(a: string, b: string, n: nat)
    requires n <= |a| && n <= |b| && forall k | 0 <= k < n :: a[k] == b[k]
    requires n == |a| || n == |b| || a[n] != b[n]
    ensures StringLe(a, b) <==> n == |a| || (n < |b| && a[n] < b[n])
  {
    if n > 0 {
      StringLeByFirstDifference(a[1..], b[1..], n - 1);
    }
  }

  lemma StringLeOrders()
    ensures Orders(StringLe)
  {
    forall a, b ensures StringLe(a, b) || StringLe(b, a) { StringLeTotal(a, b); }
    forall a, b, c | StringLe(a, b) && StringLe(b, c) ensures StringLe(a, c) { StringLeTransitive(a, b, c); }
  }
}
