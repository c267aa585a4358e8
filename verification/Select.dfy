/** Table queries: counting rows, finding one, and counting by key. */
module Select {
  import opened Sequences
  import opened Wrappers

  /** `select(func.count())` with a `where` clause. */
  function Count<T>(rows: seq<T>, where: T -> bool): nat {
    if rows == [] then 0 else Count(rows[..|rows| - 1], where) + if where(rows[|rows| - 1]) then 1 else 0
  }

  /** The first row that satisfies a `where` clause. */
  function Find<T>(rows: seq<T>, where: T -> bool): (r: Option<nat>)
    ensures r.Some? ==> r.value < |rows| && where(rows[r.value]) && forall i | 0 <= i < r.value :: !where(rows[i])
    ensures r.None? ==> forall i | 0 <= i < |rows| :: !where(rows[i])
  {
    if rows == [] then None
    else
      var before := Find(rows[..|rows| - 1], where);
      if before.Some? then before
      else if where(rows[|rows| - 1]) then Some(|rows| - 1)
      else None
  }

  /** The rows that satisfy a `where` clause, in table order. */
  function Where<T>(rows: seq<T>, where: T -> bool): seq<T> {
    if rows == [] then []
    else Where(rows[..|rows| - 1], where) + if where(rows[|rows| - 1]) then [rows[|rows| - 1]] else []
  }

  /** Rows that do not satisfy the clause may be appended unseen. */
  lemma {:induction false} WhereAppendNone<T>(rows: seq<T>, more: seq<T>, where: T -> bool)
    requires forall i | 0 <= i < |more| :: !where(more[i])
    ensures Where(rows + more, where) == Where(rows, where)
  {
    if more == [] {
      assert rows + more == rows;
    } else {
      assert (rows + more)[..|rows + more| - 1] == rows + more[..|more| - 1];
      WhereAppendNone(rows, more[..|more| - 1], where);
    }
  }

  lemma {:induction false} WhereHead<T>(rows: seq<T>, where: T -> bool)
    requires rows != []
    ensures Where(rows, where) == (if where(rows[0]) then [rows[0]] else []) + Where(rows[1..], where)
  {
    if |rows| > 1 {
      var last := |rows| - 1;
      WhereHead(rows[..last], where);
      assert rows[..last][1..] == rows[1..][..last - 1];
    }
  }

  lemma {:induction false} WhereStep<T>(rows: seq<T>, i: nat, where: T -> bool)
    requires i < |rows|
    ensures Where(rows[..i + 1], where)
         == if where(rows[i]) then Where(rows[..i], where) + [rows[i]] else Where(rows[..i], where)
  {
    assert rows[..i + 1][..i] == rows[..i];
    assert Where(rows[..i], where) + [] == Where(rows[..i], where);
  }

  lemma {:induction false} WhereCount<T>(rows: seq<T>, where: T -> bool)
    ensures |Where(rows, where)| == Count(rows, where)
  {
    if rows != [] {
      WhereCount(rows[..|rows| - 1], where);
    }
  }

  /** Counting what a filter keeps is counting both clauses at once. */
  lemma {:induction false} CountWhere<T>(rows: seq<T>, keep: T -> bool, where: T -> bool, both: T -> bool)
    requires forall i | 0 <= i < |rows| :: both(rows[i]) <==> keep(rows[i]) && where(rows[i])
    ensures Count(Where(rows, keep), where) == Count(rows, both)
  {
    if rows != [] {
      var front, last := rows[..|rows| - 1], rows[|rows| - 1];
      assert forall i | 0 <= i < |front| :: front[i] == rows[i];
      CountWhere(front, keep, where, both);
      if keep(last) {
        CountAppend(Where(front, keep), last, where);
      } else {
        assert Where(front, keep) + [] == Where(front, keep);
      }
    }
  }

  /** A quantity added up over the rows. */
  function SumOf<T>(rows: seq<T>, amount: T -> real): real {
    if rows == [] then 0.0 else SumOf(rows[..|rows| - 1], amount) + amount(rows[|rows| - 1])
  }

  lemma {:induction false} SumWhere<T>(rows: seq<T>, keep: T -> bool, amount: T -> real, kept: T -> real)
    requires forall i | 0 <= i < |rows| :: kept(rows[i]) == if keep(rows[i]) then amount(rows[i]) else 0.0
    ensures SumOf(Where(rows, keep), amount) == SumOf(rows, kept)
  {
    if rows != [] {
      var front, last := rows[..|rows| - 1], rows[|rows| - 1];
      assert forall i | 0 <= i < |front| :: front[i] == rows[i];
      SumWhere(front, keep, amount, kept);
      if keep(last) {
        assert (Where(front, keep) + [last])[..|Where(front, keep)|] == Where(front, keep);
      } else {
        assert Where(front, keep) + [] == Where(front, keep);
      }
    }
  }

  lemma {:induction false} CountAppend<T>(rows: seq<T>, row: T, where: T -> bool)
    ensures Count(rows + [row], where) == Count(rows, where) + if where(row) then 1 else 0
  {
    assert (rows + [row])[..|rows|] == rows;
  }

  lemma {:induction false} CountUpdate<T>(rows: seq<T>, i: nat, row: T, where: T -> bool)
    requires i < |rows|
    ensures Count(rows[i := row], where) + (if where(rows[i]) then 1 else 0)
         == Count(rows, where) + if where(row) then 1 else 0
  {
    var last := |rows| - 1;
    if i == last {
      assert rows[i := row][..last] == rows[..last];
    } else {
      assert rows[i := row][..last] == rows[..last][i := row];
      CountUpdate(rows[..last], i, row, where);
    }
  }

  /** A stronger clause counts no more, and just as many exactly when it holds wherever the weaker one does. */
  lemma {:induction false} CountImplies<T>(rows: seq<T>, strong: T -> bool, weak: T -> bool)
    requires forall i | 0 <= i < |rows| :: strong(rows[i]) ==> weak(rows[i])
    ensures Count(rows, strong) <= Count(rows, weak) <= |rows|
    ensures Count(rows, strong) == Count(rows, weak)
       <==> forall i | 0 <= i < |rows| :: weak(rows[i]) ==> strong(rows[i])
  {
    if rows != [] {
      var front := rows[..|rows| - 1];
      CountImplies(front, strong, weak);
      assert forall i | 0 <= i < |front| :: front[i] == rows[i];
    }
  }

  lemma {:induction false} CountAll<T>(rows: seq<T>, where: T -> bool)
    ensures Count(rows, where) <= |rows|
    ensures Count(rows, where) == |rows| <==> forall i | 0 <= i < |rows| :: where(rows[i])
    ensures Count(rows, where) > 0 <==> exists i :: 0 <= i < |rows| && where(rows[i])
  {
    if rows != [] {
      var front := rows[..|rows| - 1];
      CountAll(front, where);
      assert forall i | 0 <= i < |front| :: front[i] == rows[i];
      if where(rows[|rows| - 1]) {
        assert 0 <= |rows| - 1 < |rows| && where(rows[|rows| - 1]);
      }
    }
  }

  lemma {:induction false} CountSplit<T>(rows: seq<T>, p: T -> bool, q: T -> bool, either: T -> bool)
    requires forall i | 0 <= i < |rows| ::
               (either(rows[i]) <==> p(rows[i]) || q(rows[i])) && !(p(rows[i]) && q(rows[i]))
    ensures Count(rows, either) == Count(rows, p) + Count(rows, q)
  {
    if rows != [] {
      var front := rows[..|rows| - 1];
      assert forall i | 0 <= i < |front| :: front[i] == rows[i];
      CountSplit(front, p, q, either);
    }
  }

  // ---------- Counting by key ----------

  function KeyIs<T, K(==)>(key: T -> K, k: K): T -> bool {
    (x: T) => key(x) == k
  }

  function KeyIn<T, K(==)>(key: T -> K, keys: seq<K>): T -> bool {
    (x: T) => key(x) in keys
  }

  /** The counts of all listed keys, added up. */
  function SumCounts<T, K(==)>(rows: seq<T>, key: T -> K, keys: seq<K>): nat {
    if keys == [] then 0
    else SumCounts(rows, key, keys[..|keys| - 1]) + Count(rows, KeyIs(key, keys[|keys| - 1]))
  }

  /** Counting key by key conserves: distinct keys account for each row with a listed key once. */
  lemma {:induction false} PartitionByKey<T, K>(rows: seq<T>, key: T -> K, keys: seq<K>)
    requires NoRepeats(keys)
    ensures SumCounts(rows, key, keys) == Count(rows, KeyIn(key, keys))
    ensures SumCounts(rows, key, keys) <= |rows|
    ensures SumCounts(rows, key, keys) == |rows| <==> forall i | 0 <= i < |rows| :: key(rows[i]) in keys
  {
    if keys != [] {
      var front, last := keys[..|keys| - 1], keys[|keys| - 1];
      PartitionByKey(rows, key, front);
      assert keys == front + [last];
      CountSplit(rows, KeyIn(key, front), KeyIs(key, last), KeyIn(key, keys));
    } else {
      CountNone(rows, KeyIn(key, keys));
    }
    CountAll(rows, KeyIn(key, keys));
    assert forall i | 0 <= i < |rows| :: KeyIn(key, keys)(rows[i]) <==> key(rows[i]) in keys;
  }

  lemma {:induction false} CountNone<T>(rows: seq<T>, where: T -> bool)
    requires forall i | 0 <= i < |rows| :: !where(rows[i])
    ensures Count(rows, where) == 0
  {
    if rows != [] {
      assert forall i | 0 <= i < |rows| - 1 :: rows[..|rows| - 1][i] == rows[i];
      CountNone(rows[..|rows| - 1], where);
    }
  }

  // ---------- First occurrences ----------

  /** `list(dict.fromkeys(xs))`: first occurrences, in order. */
  function Dedup<T(==)>(xs: seq<T>): seq<T> {
    if xs == [] then []
    else
      var front, last := Dedup(xs[..|xs| - 1]), xs[|xs| - 1];
      if last in front then front else front + [last]
  }

  lemma {:induction false} DedupMembers<T>(xs: seq<T>)
    ensures NoRepeats(Dedup(xs)) && forall x :: x in Dedup(xs) <==> x in xs
  {
    if xs != [] {
      DedupMembers(xs[..|xs| - 1]);
      assert xs == xs[..|xs| - 1] + [xs[|xs| - 1]];
    }
  }

  /** What comes first in the input comes first in the output. */
  lemma {:induction false} DedupPrefix<T>(a: seq<T>, b: seq<T>)
    ensures Dedup(a) <= Dedup(a + b)
  {
    if b == [] {
      assert a + b == a;
    } else {
      assert (a + b)[..|a + b| - 1] == a + b[..|b| - 1];
      DedupPrefix(a, b[..|b| - 1]);
    }
  }
}
