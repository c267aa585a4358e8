/**
 * Ranked lists: Python's stable `sort(key=score, reverse=True)` and the slice that follows it.
 */
module Ranking {
  import opened Sequences

  datatype Ranked<+T> = Ranked(item: T, score: real)

  predicate Descending<T>(s: seq<Ranked<T>>) {
    forall i, j | 0 <= i < j < |s| :: s[i].score >= s[j].score
  }

  /** The elements of one score, in list order. */
  function AtScore<T>(s: seq<Ranked<T>>, v: real): seq<Ranked<T>> {
    if s == [] then [] else (if s[0].score == v then [s[0]] else []) + AtScore(s[1..], v)
  }

  /** Puts `x` behind every element that scores at least as much. */
  function Insert<T>(s: seq<Ranked<T>>, x: Ranked<T>): (r: seq<Ranked<T>>)
    ensures |r| == |s| + 1
  {
    if s == [] || s[|s| - 1].score >= x.score then s + [x]
    else Insert(s[..|s| - 1], x) + [s[|s| - 1]]
  }

  /** Highest score first; equal scores keep their order. */
  function Sort<T>(s: seq<Ranked<T>>): (r: seq<Ranked<T>>)
    ensures |r| == |s|
  {
    if s == [] then [] else Insert(Sort(s[..|s| - 1]), s[|s| - 1])
  }

  lemma {:induction false} InsertPermutes<T>(s: seq<Ranked<T>>, x: Ranked<T>)
    ensures multiset(Insert(s, x)) == multiset(s) + multiset{x}
  {
    if s != [] && s[|s| - 1].score < x.score {
      InsertPermutes(s[..|s| - 1], x);
      assert s == s[..|s| - 1] + [s[|s| - 1]];
    }
  }

  lemma {:induction false} InsertKeepsOrder<T>(s: seq<Ranked<T>>, x: Ranked<T>)
    requires Descending(s)
    ensures Descending(Insert(s, x))
  {
    if s != [] && s[|s| - 1].score < x.score {
      var front, last := s[..|s| - 1], s[|s| - 1];
      InsertKeepsOrder(front, x);
      InsertPermutes(front, x);
      var r := Insert(front, x);
      forall i | 0 <= i < |r| ensures r[i].score >= last.score {
        assert r[i] in multiset(r);
        assert r[i] == x || r[i] in front;
      }
    }
  }

  /** Sorting yields a descending permutation. */
  lemma {:induction false} SortOrders<T>(s: seq<Ranked<T>>)
    ensures Descending(Sort(s)) && multiset(Sort(s)) == multiset(s)
  {
    if s != [] {
      var front, last := s[..|s| - 1], s[|s| - 1];
      SortOrders(front);
      InsertKeepsOrder(Sort(front), last);
      InsertPermutes(Sort(front), last);
      assert s == front + [last];
    }
  }

  lemma {:induction false} SortMembers<T>(s: seq<Ranked<T>>, x: Ranked<T>)
    ensures x in Sort(s) <==> x in s
  {
    SortOrders(s);
    assert x in s <==> x in multiset(s);
    assert x in Sort(s) <==> x in multiset(Sort(s));
  }

  lemma {:induction false} AtScoreAppend<T>(a: seq<Ranked<T>>, b: seq<Ranked<T>>, v: real)
    ensures AtScore(a + b, v) == AtScore(a, v) + AtScore(b, v)
  {
    if a == [] {
      assert a + b == b;
    } else {
      HeadOfSum(a, b);
      AtScoreAppend(a[1..], b, v);
      Associate(if a[0].score == v then [a[0]] else [], AtScore(a[1..], v), AtScore(b, v));
    }
  }

  lemma {:induction false} InsertIsStable<T>(s: seq<Ranked<T>>, x: Ranked<T>, v: real)
    requires Descending(s)
    ensures AtScore(Insert(s, x), v) == AtScore(s + [x], v)
  {
    if s != [] && s[|s| - 1].score < x.score {
      var front, last := s[..|s| - 1], s[|s| - 1];
      assert s == front + [last];
      InsertIsStable(front, x, v);
      AtScoreAppend(Insert(front, x), [last], v);
      AtScoreAppend(front, [x], v);
      AtScoreAppend(front, [last], v);
      AtScoreAppend(s, [x], v);
    }
  }

  /** Sorting keeps the order of elements with equal scores. */
  lemma {:induction false} SortIsStable<T>(s: seq<Ranked<T>>, v: real)
    ensures AtScore(Sort(s), v) == AtScore(s, v)
  {
    if s != [] {
      var front, last := s[..|s| - 1], s[|s| - 1];
      SortOrders(front);
      InsertIsStable(Sort(front), last, v);
      SortIsStable(front, v);
      AtScoreAppend(Sort(front), [last], v);
      AtScoreAppend(front, [last], v);
      assert s == front + [last];
    }
  }

  lemma {:induction false} AtScoreHead<T>(s: seq<Ranked<T>>, v: real)
    requires Descending(s) && AtScore(s, v) != []
    ensures s[0].score >= v
    ensures s[0].score == v ==> AtScore(s, v)[0] == s[0]
  {
    if s[0].score != v {
      AtScoreHead(s[1..], v);
    }
  }

  lemma {:induction false} SameScoresSameEmptiness<T>(a: seq<Ranked<T>>, b: seq<Ranked<T>>)
    requires forall v :: AtScore(a, v) == AtScore(b, v)
    ensures a != [] ==> b != []
  {
    if a != [] {
      assert AtScore(b, a[0].score) == AtScore(a, a[0].score);
    }
  }

  /** Order and stability leave only one possible arrangement. */
  lemma {:induction false} StableOrderIsUnique<T>(a: seq<Ranked<T>>, b: seq<Ranked<T>>)
    requires Descending(a) && Descending(b)
    requires forall v :: AtScore(a, v) == AtScore(b, v)
    ensures a == b
  {
    SameScoresSameEmptiness(a, b);
    SameScoresSameEmptiness(b, a);
    if a != [] {
      AtScoreHead(b, a[0].score);
      AtScoreHead(a, b[0].score);
      assert a[0] == b[0];
      forall v ensures AtScore(a[1..], v) == AtScore(b[1..], v) {
        assert AtScore(a, v) == AtScore(b, v);
        assert AtScore(a[1..], v) == AtScore(a, v)[if a[0].score == v then 1 else 0..];
        assert AtScore(b[1..], v) == AtScore(b, v)[if a[0].score == v then 1 else 0..];
      }
      StableOrderIsUnique(a[1..], b[1..]);
      assert a == [a[0]] + a[1..] && b == [b[0]] + b[1..];
    }
  }

  /** `Sort` is the only descending arrangement that keeps equal scores in order. */
  lemma {:induction false} SortIsTheStableOrder<T>(s: seq<Ranked<T>>, t: seq<Ranked<T>>)
    requires Descending(t) && forall v :: AtScore(t, v) == AtScore(s, v)
    ensures t == Sort(s)
  {
    SortOrders(s);
    forall v ensures AtScore(t, v) == AtScore(Sort(s), v) {
      SortIsStable(s, v);
    }
    StableOrderIsUnique(t, Sort(s));
  }

  /** What a sorted list keeps after a cut is no worse than what it leaves out. */
  lemma {:induction false} TopMeaning<T>(s: seq<Ranked<T>>, k: nat)
    ensures var top := Take(Sort(s), k);
            && Descending(top) && |top| == (if k < |s| then k else |s|)
            && (forall x <- top :: x in s)
            && (forall x <- s :: x in top || (|top| == k && forall y <- top :: x.score <= y.score))
  {
    var t, top := Sort(s), Take(Sort(s), k);
    SortOrders(s);
    forall x | x in top ensures x in s {
      SortMembers(s, x);
    }
    forall x | x in s && x !in top ensures |top| == k && forall y <- top :: x.score <= y.score {
      SortMembers(s, x);
      var i :| 0 <= i < |t| && t[i] == x;
      assert forall j | 0 <= j < |top| :: top[j] == t[j] && top[j] in top;
    }
  }

  // ---------- Permutations of lists without repetition ----------

  lemma {:induction false} CountOnce<T>(s: seq<T>, x: T)
    requires NoRepeats(s)
    ensures multiset(s)[x] <= 1
  {
    if s != [] {
      var front := s[..|s| - 1];
      assert s == front + [s[|s| - 1]];
      CountOnce(front, x);
      if s[|s| - 1] == x {
        assert x !in front;
      }
    }
  }

  lemma {:induction false} CountTwice<T>(t: seq<T>, i: nat, j: nat)
    requires i < j < |t| && t[i] == t[j]
    ensures multiset(t)[t[i]] >= 2
  {
    assert t == t[..j] + [t[j]] + t[j + 1..];
    assert t[i] in t[..j];
  }

  /** A permutation repeats nothing either. */
  lemma {:induction false} NoRepeatsByCount<T>(s: seq<T>, t: seq<T>)
    requires NoRepeats(s) && multiset(t) == multiset(s)
    ensures NoRepeats(t)
  {
    forall i, j | 0 <= i < j < |t| ensures t[i] != t[j] {
      CountOnce(s, t[i]);
      if t[i] == t[j] {
        CountTwice(t, i, j);
      }
    }
  }
}
