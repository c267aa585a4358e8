/** Sorting by the key `(-count, name)`, as the analytics lists do. */
module Leaderboard {
  import opened Sequences

  datatype Entry<+T> = Entry(count: nat, name: string, item: T)

  /** Python's order on strings. */
  predicate LexLeq(a: string, b: string) {
    a == [] || (b != [] && (a[0] < b[0] || (a[0] == b[0] && LexLeq(a[1..], b[1..]))))
  }

  /** `a` may stand before `b`. */
  predicate Precedes<T>(a: Entry<T>, b: Entry<T>) {
    a.count > b.count || (a.count == b.count && LexLeq(a.name, b.name))
  }

  predicate InOrder<T>(s: seq<Entry<T>>) {
    forall i, j | 0 <= i < j < |s| :: Precedes(s[i], s[j])
  }

  /** Ties keep their order: an entry goes before the later ones it may precede. */
  function Insert<T>(x: Entry<T>, s: seq<Entry<T>>): seq<Entry<T>> {
    if s == [] then [x]
    else if Precedes(x, s[0]) then [x] + s
    else [s[0]] + Insert(x, s[1..])
  }

  /** `sorted(…, key=lambda e: (-e.count, e.name))`. */
  function Sorted<T>(s: seq<Entry<T>>): seq<Entry<T>> {
    if s == [] then [] else Insert(s[0], Sorted(s[1..]))
  }

  function Items<T>(entries: seq<Entry<T>>): (r: seq<T>)
    ensures |r| == |entries| && forall i | 0 <= i < |r| :: r[i] == entries[i].item
  {
    seq(|entries|, i requires 0 <= i < |entries| => entries[i].item)
  }

  lemma {:induction false} LexTotal(a: string, b: string)
    ensures LexLeq(a, b) || LexLeq(b, a)
    ensures LexLeq(a, b) && LexLeq(b, a) ==> a == b
    ensures a == b ==> LexLeq(a, b)
    decreases |a|
  {
    if a != [] && b != [] && a[0] == b[0] {
      LexTotal(a[1..], b[1..]);
      assert a == [a[0]] + a[1..] && b == [b[0]] + b[1..];
    }
  }

  lemma {:induction false} LexTransitive(a: string, b: string, c: string)
    requires LexLeq(a, b) && LexLeq(b, c)
    ensures LexLeq(a, c)
    decreases |a|
  {
    if a != [] && a[0] == b[0] && b[0] == c[0] {
      LexTransitive(a[1..], b[1..], c[1..]);
    }
  }

  lemma {:induction false} PrecedesTransitive<T>(a: Entry<T>, b: Entry<T>, c: Entry<T>)
    requires Precedes(a, b) && Precedes(b, c)
    ensures Precedes(a, c)
  {
    if a.count == b.count == c.count {
      LexTransitive(a.name, b.name, c.name);
    }
  }

  lemma {:induction false} InsertPermutes<T>(x: Entry<T>, s: seq<Entry<T>>)
    ensures multiset(Insert(x, s)) == multiset(s) + multiset{x}
  {
    if s != [] && !Precedes(x, s[0]) {
      InsertPermutes(x, s[1..]);
      assert s == [s[0]] + s[1..];
    }
  }

  lemma {:induction false} InsertKeepsOrder<T>(x: Entry<T>, s: seq<Entry<T>>)
    requires InOrder(s)
    ensures InOrder(Insert(x, s))
  {
    if s != [] {
      if Precedes(x, s[0]) {
        forall j | 0 < j < |s| ensures Precedes(x, s[j]) {
          PrecedesTransitive(x, s[0], s[j]);
        }
      } else {
        var rest := Insert(x, s[1..]);
        InsertKeepsOrder(x, s[1..]);
        LexTotal(x.name, s[0].name);
        InsertPermutes(x, s[1..]);
        forall j | 0 <= j < |rest| ensures Precedes(s[0], rest[j]) {
          assert rest[j] in multiset(rest);
          if rest[j] != x {
            assert rest[j] in s[1..];
          }
        }
      }
    }
  }

  lemma {:induction false} SortedPermutes<T>(s: seq<Entry<T>>)
    ensures multiset(Sorted(s)) == multiset(s)
  {
    if s != [] {
      SortedPermutes(s[1..]);
      InsertPermutes(s[0], Sorted(s[1..]));
      assert s == [s[0]] + s[1..];
    }
  }

  lemma {:induction false} SortedInOrder<T>(s: seq<Entry<T>>)
    ensures InOrder(Sorted(s))
  {
    if s != [] {
      SortedInOrder(s[1..]);
      InsertKeepsOrder(s[0], Sorted(s[1..]));
    }
  }

  lemma {:induction false} SameLength<T>(a: seq<T>, b: seq<T>)
    requires multiset(a) == multiset(b)
    ensures |a| == |b|
  {
    assert |multiset(a)| == |a| && |multiset(b)| == |b|;
  }

  /** The sorted list is in order and a permutation of the input. */
  lemma {:induction false} SortedMeaning<T>(s: seq<Entry<T>>)
    ensures InOrder(Sorted(s)) && multiset(Sorted(s)) == multiset(s) && |Sorted(s)| == |s|
  {
    SortedInOrder(s);
    SortedPermutes(s);
    SameLength(Sorted(s), s);
  }

  /** Cutting after `n`: every entry kept precedes every entry left out. */
  lemma {:induction false} TopMeaning<T>(s: seq<Entry<T>>, n: nat)
    ensures var top := Take(Sorted(s), n);
            && InOrder(top) && |top| == (if |s| <= n then |s| else n)
            && (forall x <- top :: x in s)
            && (forall x <- s :: x !in top ==> |top| == n && forall y <- top :: Precedes(y, x))
  {
    var sorted := Sorted(s);
    var top := Take(sorted, n);
    SortedMeaning(s);
    forall x | x in sorted ensures x in s {
      assert x in multiset(sorted);
    }
    forall x | x in s && x !in top ensures |top| == n && forall y <- top :: Precedes(y, x) {
      assert x in multiset(s);
      assert x in sorted;
    }
  }

  /** Strings compare by their first difference, and a prefix comes first. */
  lemma {:induction false} FirstDifferenceDecides(p: string, c: char, a: string, d: char, b: string)
    requires c < d
    ensures LexLeq(p + [c] + a, p + [d] + b) && !LexLeq(p + [d] + b, p + [c] + a)
    ensures LexLeq(p, p + a)
  {
    if p != "" {
      var q := p[1..];
      FirstDifferenceDecides(q, c, a, d, b);
      assert (p + [c] + a)[1..] == q + [c] + a && (p + [d] + b)[1..] == q + [d] + b && (p + a)[1..] == q + a;
    }
  }
}
