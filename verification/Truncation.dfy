/**
 * Early truncation, chunk by chunk (backend/app/agents/nodes.py): the node merges rankings that the hybrid
 * search has already cut to the size of the answer. Which chunks can that change?
 */
module Truncation {
  import opened Wrappers
  import opened Store
  import opened Ranking
  import opened Retrieval
  import opened Retriever
  import opened Select
  import opened Sequences

  ghost function IdSet(s: Hits): set<Uuid> {
    set x | x in s :: IdOf(x)
  }

  /** The ids of one score. */
  ghost function Exactly(s: Hits, v: real): set<Uuid> {
    set x | x in s && x.score == v :: IdOf(x)
  }

  // ---------- Groups that the answer can hold ----------

  /** When at most `k` chunks score `v` or more, the cut loses none of them. */
  lemma {:induction false} SmallGroupsSurvive(lists: seq<Hits>, k: nat, v: real)
    requires Rankings(lists) && |AtLeast(Merge(lists), v)| <= k
    ensures AtLeast(Merge(CutAll(lists, k)), v) == AtLeast(Merge(lists), v)
  {
    var some, all := AtLeast(Merge(CutAll(lists, k)), v), AtLeast(Merge(lists), v);
    CutLowers(lists, k, v);
    if id :| id in all && id !in some {
      LostMeansFull(lists, k, v, id);
      SubsetCount(some, all - {id});
    }
  }

  /** A chunk that survives the cut scores no more than it did. */
  lemma {:induction false} CutScoresLess(lists: seq<Hits>, k: nat, x: Ranked<Hit>)
    requires x in Merge(CutAll(lists, k))
    ensures Covers(Merge(lists), x)
  {
    MergeIsBest(CutAll(lists, k));
    MergeIsBest(lists);
    CutSeen(lists, k, x);
  }

  /** One entry per id. */
  lemma {:induction false} SameIdSameHit(m: Hits, x: Ranked<Hit>, y: Ranked<Hit>)
    requires DistinctHits(m) && x in m && y in m && IdOf(x) == IdOf(y)
    ensures x == y
  {
  }

  /** So each score at or above `v` belongs to the same chunks before and after. */
  lemma {:induction false} SmallGroupsKeepScores(lists: seq<Hits>, k: nat, v: real)
    requires Rankings(lists) && |AtLeast(Merge(lists), v)| <= k
    ensures Exactly(Merge(CutAll(lists, k)), v) == Exactly(Merge(lists), v)
  {
    var cut, full := Merge(CutAll(lists, k)), Merge(lists);
    MergeIsBest(CutAll(lists, k));
    MergeIsBest(lists);
    SmallGroupsSurvive(lists, k, v);
    forall id | id in Exactly(full, v) ensures id in Exactly(cut, v) {
      var y :| y in full && y.score == v && IdOf(y) == id;
      assert id in AtLeast(full, v);
      var x :| x in cut && x.score >= v && IdOf(x) == id;
      CutScoresLess(lists, k, x);
      var i :| 0 <= i < |full| && IdOf(full[i]) == IdOf(x) && full[i].score >= x.score;
      SameIdSameHit(full, y, full[i]);
    }
    forall id | id in Exactly(cut, v) ensures id in Exactly(full, v) {
      var x :| x in cut && x.score == v && IdOf(x) == id;
      SurvivorKeepsScore(lists, k, v, x);
    }
  }

  lemma {:induction false} SurvivorKeepsScore(lists: seq<Hits>, k: nat, v: real, x: Ranked<Hit>)
    requires Rankings(lists) && |AtLeast(Merge(lists), v)| <= k
    requires x in Merge(CutAll(lists, k)) && x.score == v
    ensures IdOf(x) in Exactly(Merge(lists), v)
  {
    var cut, full := Merge(CutAll(lists, k)), Merge(lists);
    MergeIsBest(CutAll(lists, k));
    CutScoresLess(lists, k, x);
    var i :| 0 <= i < |full| && IdOf(full[i]) == IdOf(x) && full[i].score >= x.score;
    var u := full[i].score;
    HigherGroup(full, v, u);
    SmallGroupsSurvive(lists, k, u);
    assert IdOf(x) in AtLeast(full, u);
    var z :| z in cut && z.score >= u && IdOf(z) == IdOf(x);
    SameIdSameHit(cut, x, z);
  }

  lemma {:induction false} HigherGroup(s: Hits, v: real, u: real)
    requires u >= v
    ensures |AtLeast(s, u)| <= |AtLeast(s, v)|
  {
    SubsetCount(AtLeast(s, u), AtLeast(s, v));
  }

  // ---------- The returned set ----------

  /** The last score of the full answer. */
  function LastScore(s: Hits): real
    requires s != []
  {
    s[|s| - 1].score
  }

  /** No tie across the `k`-th place: the answer is everything, nothing, or ends at a drop in score. */
  predicate BoundaryClear(lists: seq<Hits>, k: nat) {
    var s := Sort(Merge(lists));
    k == 0 || |s| <= k || s[k - 1].score > s[k].score
  }

  /** The first `n` entries of a ranking are those at or above a threshold, when there are no more of these. */
  lemma {:induction false} TopIds(s: Hits, n: nat, v: real)
    requires Descending(s) && DistinctHits(s) && n <= |s| && |AtLeast(s, v)| <= n
    requires n > 0 ==> s[n - 1].score >= v
    ensures IdSet(s[..n]) == AtLeast(s, v)
  {
    var top := s[..n];
    assert forall h <- top :: h.score >= v;
    assert AtLeast(top, v) == IdSet(top);
    TopIsAbove(top, v, n);
    assert forall h <- top :: h in s;
    assert AtLeast(top, v) <= AtLeast(s, v);
    SubsetOfSameCount(AtLeast(top, v), AtLeast(s, v));
  }

  lemma {:induction false} SubsetOfSameCount(a: set<Uuid>, b: set<Uuid>)
    requires a <= b && |b| <= |a|
    ensures a == b
  {
    if x :| x in b && x !in a {
      SubsetCount(a, b - {x});
    }
  }

  /**
   * Without a tie across the `k`-th place the cut returns the same chunks, whatever ties there are
   * elsewhere.
   */
  lemma {:induction false} TruncationKeepsSet(lists: seq<Hits>, k: nat)
    requires Rankings(lists) && BoundaryClear(lists, k)
    ensures IdSet(TopMerge(CutAll(lists, k), k)) == IdSet(TopMerge(lists, k))
    ensures forall v :: Exactly(TopMerge(CutAll(lists, k), k), v) == Exactly(TopMerge(lists, k), v)
  {
    TruncationKeepsScores(lists, k);
    var cut, full := TopMerge(CutAll(lists, k), k), TopMerge(lists, k);
    assert |ScoresOf(cut)| == |ScoresOf(full)|;
    if full != [] {
      assert ScoresOf(cut)[|cut| - 1] == ScoresOf(full)[|full| - 1];
      var v := LastScore(full);
      ClearBoundaryCount(lists, k);
      AnswerIds(lists, k, v);
      SmallGroupsSurvive(lists, k, v);
      AnswerIds(CutAll(lists, k), k, v);
      forall u ensures Exactly(cut, u) == Exactly(full, u) {
        ClearGroup(lists, k, u);
      }
    }
  }

  lemma {:induction false} ClearGroup(lists: seq<Hits>, k: nat, u: real)
    requires Rankings(lists) && TopMerge(lists, k) != [] && TopMerge(CutAll(lists, k), k) != []
    requires var v, n := LastScore(TopMerge(lists, k)), |TopMerge(lists, k)|;
             && LastScore(TopMerge(CutAll(lists, k), k)) == v && |TopMerge(CutAll(lists, k), k)| == n
             && |AtLeast(Merge(lists), v)| <= n && |AtLeast(Merge(CutAll(lists, k)), v)| <= n
    ensures Exactly(TopMerge(CutAll(lists, k), k), u) == Exactly(TopMerge(lists, k), u)
  {
    var v := LastScore(TopMerge(lists, k));
    AnswerGroup(lists, k, v, u);
    AnswerGroup(CutAll(lists, k), k, v, u);
    if u >= v {
      HigherGroup(Merge(lists), v, u);
      SmallGroupsKeepScores(lists, k, u);
    }
  }

  /** The answer holds a whole tie group at or above its last score, and none below. */
  lemma {:induction false} AnswerGroup(lists: seq<Hits>, k: nat, v: real, u: real)
    requires TopMerge(lists, k) != [] && LastScore(TopMerge(lists, k)) == v
    requires |AtLeast(Merge(lists), v)| <= |TopMerge(lists, k)|
    ensures Exactly(TopMerge(lists, k), u) == if u >= v then Exactly(Merge(lists), u) else {}
  {
    var m, top := Merge(lists), TopMerge(lists, k);
    MergeIsBest(lists);
    MergedShape(lists);
    AnswerIds(lists, k, v);
    forall x | x in top ensures x in m {
      SortMembers(m, x);
    }
    forall id | u >= v && id in Exactly(m, u) ensures id in Exactly(top, u) {
      var y :| y in m && y.score == u && IdOf(y) == id;
      assert id in AtLeast(m, v);
      var x :| x in top && IdOf(x) == id;
      SameIdSameHit(m, x, y);
    }
  }

  /** With a clear boundary the answer holds all that score as much as its last chunk. */
  lemma {:induction false} ClearBoundaryCount(lists: seq<Hits>, k: nat)
    requires BoundaryClear(lists, k) && TopMerge(lists, k) != []
    ensures |AtLeast(Merge(lists), LastScore(TopMerge(lists, k)))| <= |TopMerge(lists, k)|
  {
    var full, v := Sort(Merge(lists)), LastScore(TopMerge(lists, k));
    MergedShape(lists);
    CountTop(full, v, |TopMerge(lists, k)|);
    AtLeastPermuted(Merge(lists), v);
  }

  lemma {:induction false} AnswerIds(lists: seq<Hits>, k: nat, v: real)
    requires TopMerge(lists, k) != [] && LastScore(TopMerge(lists, k)) == v
    requires |AtLeast(Merge(lists), v)| <= |TopMerge(lists, k)|
    ensures IdSet(TopMerge(lists, k)) == AtLeast(Merge(lists), v)
  {
    MergedShape(lists);
    AtLeastPermuted(Merge(lists), v);
    TopIds(Sort(Merge(lists)), |TopMerge(lists, k)|, v);
  }

  // ---------- The returned order ----------

  /** The chunks of one score, in the order of the merge dictionary. */
  function Ties(lists: seq<Hits>, v: real): seq<Uuid> {
    IdsOf(AtScore(Merge(lists), v))
  }

  /** How many chunks of one score the full answer holds. */
  function Room(lists: seq<Hits>, k: nat, v: real): nat {
    |AtScore(TopMerge(lists, k), v)|
  }

  /** The two dictionaries start this tie group alike, as far as the answer reaches into it. */
  predicate SameStart(lists: seq<Hits>, k: nat, v: real) {
    Take(Ties(CutAll(lists, k), v), Room(lists, k, v)) == Take(Ties(lists, v), Room(lists, k, v))
  }

  /** Within one score, a cut sorted list is a cut list. */
  lemma {:induction false} TakeAtScore(m: Hits, k: nat, v: real)
    ensures AtScore(Take(Sort(m), k), v) == Take(AtScore(m, v), |AtScore(Take(Sort(m), k), v)|)
  {
    var s := Sort(m);
    SortIsStable(m, v);
    var n := |Take(s, k)|;
    assert s == s[..n] + s[n..];
    AtScoreAppend(s[..n], s[n..], v);
    TakePrefix(AtScore(s[..n], v), AtScore(s[n..], v));
  }

  lemma {:induction false} TakePrefix<T>(a: seq<T>, b: seq<T>)
    ensures Take(a + b, |a|) == a
  {
  }

  /** Equal scores give tie groups of equal size. */
  lemma {:induction false} SameSizes(a: Hits, b: Hits, v: real)
    requires ScoresOf(a) == ScoresOf(b)
    ensures |AtScore(a, v)| == |AtScore(b, v)|
  {
    assert |ScoresOf(a)| == |ScoresOf(b)|;
    if a != [] {
      assert a[0].score == ScoresOf(a)[0] == ScoresOf(b)[0] == b[0].score;
      forall i | 0 <= i < |a| - 1 ensures a[1..][i].score == b[1..][i].score {
        assert ScoresOf(a)[i + 1] == ScoresOf(b)[i + 1];
      }
      assert ScoresOf(a[1..]) == ScoresOf(b[1..]);
      SameSizes(a[1..], b[1..], v);
    }
  }

  lemma {:induction false} IdsTake(s: Hits, n: nat)
    ensures IdsOf(Take(s, n)) == Take(IdsOf(s), n)
  {
  }

  /** One tie group of the two answers. */
  lemma {:induction false} GroupOfAnswer(lists: seq<Hits>, k: nat, v: real)
    requires Rankings(lists)
    ensures IdsOf(AtScore(TopMerge(lists, k), v)) == Take(Ties(lists, v), Room(lists, k, v))
    ensures IdsOf(AtScore(TopMerge(CutAll(lists, k), k), v)) == Take(Ties(CutAll(lists, k), v), Room(lists, k, v))
  {
    TruncationKeepsScores(lists, k);
    SameSizes(TopMerge(CutAll(lists, k), k), TopMerge(lists, k), v);
    TakeAtScore(Merge(lists), k, v);
    TakeAtScore(Merge(CutAll(lists, k)), k, v);
    IdsTake(AtScore(Merge(lists), v), Room(lists, k, v));
    IdsTake(AtScore(Merge(CutAll(lists, k)), v), Room(lists, k, v));
  }

  lemma {:induction false} IdsHead(s: Hits)
    requires s != []
    ensures IdsOf(s) == [IdOf(s[0])] + IdsOf(s[1..]) && ScoresOf(s) == [s[0].score] + ScoresOf(s[1..])
  {
  }

  lemma {:induction false} IdsSplit(a: Hits, b: Hits)
    ensures IdsOf(a + b) == IdsOf(a) + IdsOf(b)
  {
  }

  lemma {:induction false} AtScoreCons(s: Hits, v: real)
    requires s != []
    ensures IdsOf(AtScore(s, v)) == (if s[0].score == v then [IdOf(s[0])] else []) + IdsOf(AtScore(s[1..], v))
  {
    IdsSplit(if s[0].score == v then [s[0]] else [], AtScore(s[1..], v));
  }

  /** Two lists have the same ids of one score, in the same order. */
  predicate SameGroup(a: Hits, b: Hits, v: real) {
    IdsOf(AtScore(a, v)) == IdsOf(AtScore(b, v))
  }

  lemma {:induction false} SameGroupCons(a: Hits, b: Hits, v: real)
    requires a != [] && b != [] && a[0].score == b[0].score
    ensures SameGroup(a, b, v) <==> (v == a[0].score ==> IdOf(a[0]) == IdOf(b[0])) && SameGroup(a[1..], b[1..], v)
  {
    AtScoreCons(a, v);
    AtScoreCons(b, v);
    GroupCons(IdOf(a[0]), IdOf(b[0]), a[0].score == v, IdsOf(AtScore(a[1..], v)), IdsOf(AtScore(b[1..], v)));
  }

  /** Lists with the same scores have the same ids exactly when every tie group has. */
  lemma {:induction false} IdsByGroup(a: Hits, b: Hits)
    requires ScoresOf(a) == ScoresOf(b)
    ensures IdsOf(a) == IdsOf(b) <==> forall v :: SameGroup(a, b, v)
  {
    assert |ScoresOf(a)| == |ScoresOf(b)|;
    if a != [] {
      IdsHead(a);
      IdsHead(b);
      HeadsAndTails(ScoresOf(a), ScoresOf(b), a[0].score, b[0].score, ScoresOf(a[1..]), ScoresOf(b[1..]));
      IdsByGroup(a[1..], b[1..]);
      forall v ensures SameGroup(a, b, v) <==>
        (v == a[0].score ==> IdOf(a[0]) == IdOf(b[0])) && SameGroup(a[1..], b[1..], v)
      {
        SameGroupCons(a, b, v);
      }
      GroupCons(IdOf(a[0]), IdOf(b[0]), true, IdsOf(a[1..]), IdsOf(b[1..]));
      assert SameGroup(a, b, a[0].score) ==> IdOf(a[0]) == IdOf(b[0]);
    }
  }

  lemma {:induction false} HeadsAndTails(s: seq<real>, t: seq<real>, x: real, y: real, a: seq<real>, b: seq<real>)
    requires s == t && s == [x] + a && t == [y] + b
    ensures x == y && a == b
  {
    assert s[0] == t[0] && s[1..] == a && t[1..] == b;
  }

  lemma {:induction false} GroupCons(x: Uuid, y: Uuid, both: bool, a: seq<Uuid>, b: seq<Uuid>)
    ensures (if both then [x] else []) + a == (if both then [y] else []) + b <==> (both ==> x == y) && a == b
  {
    var s, t := (if both then [x] else []) + a, (if both then [y] else []) + b;
    if both {
      assert s[0] == x && s[1..] == a && t[0] == y && t[1..] == b;
    } else {
      assert s == a && t == b;
    }
  }

  /**
   * The cut returns the very same chunks in the same order exactly when the two merge dictionaries start
   * every tie group alike, as far as the answer reaches into it.
   */
  lemma {:induction false} ChunksKeptIff(lists: seq<Hits>, k: nat)
    requires Rankings(lists)
    ensures IdsOf(TopMerge(CutAll(lists, k), k)) == IdsOf(TopMerge(lists, k)) <==> forall v :: SameStart(lists, k, v)
  {
    TruncationKeepsScores(lists, k);
    var a, b := TopMerge(CutAll(lists, k), k), TopMerge(lists, k);
    IdsByGroup(a, b);
    forall v ensures SameStart(lists, k, v) <==> SameGroup(a, b, v) {
      GroupOfAnswer(lists, k, v);
    }
  }

  lemma {:induction false} GroupMembers(s: Hits, v: real)
    ensures forall id :: id in IdsOf(AtScore(s, v)) <==> id in Exactly(s, v)
  {
    if s != [] {
      AtScoreCons(s, v);
      GroupMembers(s[1..], v);
      assert s == [s[0]] + s[1..];
      forall id ensures id in IdsOf(AtScore(s, v)) <==> id in Exactly(s, v) {
        OneMoreExactly(s, v, id);
      }
    }
  }

  lemma {:induction false} OneMoreExactly(s: Hits, v: real, id: Uuid)
    requires s != []
    ensures id in Exactly(s, v) <==> (s[0].score == v && IdOf(s[0]) == id) || id in Exactly(s[1..], v)
  {
    if id in Exactly(s, v) {
      var x :| x in s && x.score == v && IdOf(x) == id;
      assert x == s[0] || x in s[1..];
    }
  }

  /** With a clear boundary and no two returned scores equal, the very same chunks come back in the same order. */
  lemma {:induction false} TruncationKeepsChunks(lists: seq<Hits>, k: nat)
    requires Rankings(lists) && BoundaryClear(lists, k)
    requires forall i, j | 0 <= i < j < |TopMerge(lists, k)| ::
               TopMerge(lists, k)[i].score != TopMerge(lists, k)[j].score
    ensures IdsOf(TopMerge(CutAll(lists, k), k)) == IdsOf(TopMerge(lists, k))
  {
    var a, b := TopMerge(CutAll(lists, k), k), TopMerge(lists, k);
    TruncationKeepsScores(lists, k);
    TruncationKeepsSet(lists, k);
    forall v ensures SameGroup(a, b, v) {
      SameSizes(a, b, v);
      AloneAtScore(b, v);
      GroupMembers(a, v);
      GroupMembers(b, v);
      Singletons(IdsOf(AtScore(a, v)), IdsOf(AtScore(b, v)));
    }
    IdsByGroup(a, b);
  }

  lemma {:induction false} AloneAtScore(s: Hits, v: real)
    requires forall i, j | 0 <= i < j < |s| :: s[i].score != s[j].score
    ensures |AtScore(s, v)| <= 1
    ensures (forall i | 0 <= i < |s| :: s[i].score != v) ==> AtScore(s, v) == []
  {
    if s != [] {
      AloneAtScore(s[1..], v);
    }
  }

  lemma {:induction false} Singletons(a: seq<Uuid>, b: seq<Uuid>)
    requires |a| == |b| <= 1 && forall id :: id in a <==> id in b
    ensures a == b
  {
    if a != [] {
      assert a[0] in b;
    }
  }

  // ---------- The tie across the boundary ----------

  ghost function Members(s: seq<Uuid>): set<Uuid> {
    set x | x in s
  }

  ghost function Above(s: Hits, v: real): set<Uuid> {
    set x | x in s && x.score > v :: IdOf(x)
  }

  lemma {:induction false} IdSetSplits(s: Hits, v: real)
    requires DistinctHits(s) && forall x <- s :: x.score >= v
    ensures IdSet(s) == Above(s, v) + Exactly(s, v) && Above(s, v) !! Exactly(s, v)
  {
    forall id | id in Above(s, v) && id in Exactly(s, v) ensures false {
      var x :| x in s && x.score > v && IdOf(x) == id;
      var y :| y in s && y.score == v && IdOf(y) == id;
      SameIdSameHit(s, x, y);
    }
  }

  /** Whatever scores more than the last returned chunk is returned. */
  lemma {:induction false} HigherIsReturned(lists: seq<Hits>, k: nat, x: Ranked<Hit>)
    requires TopMerge(lists, k) != [] && x in Merge(lists) && x.score > LastScore(TopMerge(lists, k))
    ensures x in TopMerge(lists, k)
  {
    var s, n := Sort(Merge(lists)), |TopMerge(lists, k)|;
    MergedShape(lists);
    SortMembers(Merge(lists), x);
    var i :| 0 <= i < |s| && s[i] == x;
    assert forall j | n <= j < |s| :: s[j].score <= s[n - 1].score;
    assert TopMerge(lists, k)[i] == x;
  }

  /** Fewer than `k` chunks score more than the last returned one. */
  lemma {:induction false} FewScoreMore(lists: seq<Hits>, k: nat, u: real)
    requires TopMerge(lists, k) != [] && u > LastScore(TopMerge(lists, k))
    ensures |AtLeast(Merge(lists), u)| < k
  {
    MergedShape(lists);
    CountTop(Sort(Merge(lists)), u, |TopMerge(lists, k)| - 1);
    AtLeastPermuted(Merge(lists), u);
  }

  /** The chunks that score more than the last returned one are the same. */
  lemma {:induction false} AboveIsKept(lists: seq<Hits>, k: nat)
    requires Rankings(lists) && TopMerge(lists, k) != [] && TopMerge(CutAll(lists, k), k) != []
    requires LastScore(TopMerge(CutAll(lists, k), k)) == LastScore(TopMerge(lists, k))
    ensures Above(TopMerge(CutAll(lists, k), k), LastScore(TopMerge(lists, k)))
         == Above(TopMerge(lists, k), LastScore(TopMerge(lists, k)))
  {
    var cut, w := CutAll(lists, k), LastScore(TopMerge(lists, k));
    forall id | id in Above(TopMerge(lists, k), w) ensures id in Above(TopMerge(cut, k), w) {
      var x :| x in TopMerge(lists, k) && x.score > w && IdOf(x) == id;
      SortMembers(Merge(lists), x);
      FewScoreMore(lists, k, x.score);
      SmallGroupsKeepScores(lists, k, x.score);
      assert id in Exactly(Merge(lists), x.score);
      var y :| y in Merge(cut) && y.score == x.score && IdOf(y) == id;
      HigherIsReturned(cut, k, y);
    }
    forall id | id in Above(TopMerge(cut, k), w) ensures id in Above(TopMerge(lists, k), w) {
      var x :| x in TopMerge(cut, k) && x.score > w && IdOf(x) == id;
      SortMembers(Merge(cut), x);
      FewScoreMore(lists, k, x.score);
      SmallGroupsKeepScores(lists, k, x.score);
      assert id in Exactly(Merge(cut), x.score);
      var y :| y in Merge(lists) && y.score == x.score && IdOf(y) == id;
      HigherIsReturned(lists, k, y);
    }
  }

  /**
   * The cut returns the same set of chunks exactly when the two merge dictionaries start the last tie
   * group of the answer with the same chunks, in whatever order.
   */
  lemma {:induction false} SetKeptIff(lists: seq<Hits>, k: nat)
    requires Rankings(lists) && TopMerge(lists, k) != []
    ensures var w := LastScore(TopMerge(lists, k));
            var r := Room(lists, k, w);
            IdSet(TopMerge(CutAll(lists, k), k)) == IdSet(TopMerge(lists, k))
            <==> Members(Take(Ties(CutAll(lists, k), w), r)) == Members(Take(Ties(lists, w), r))
  {
    var a, b, w := TopMerge(CutAll(lists, k), k), TopMerge(lists, k), LastScore(TopMerge(lists, k));
    SameLastScore(lists, k);
    AboveIsKept(lists, k);
    AnswerSplits(lists, k);
    AnswerSplits(CutAll(lists, k), k);
    SplitSets(Above(b, w), Exactly(a, w), Exactly(b, w));
    LastTies(lists, k);
  }

  lemma {:induction false} SameLastScore(lists: seq<Hits>, k: nat)
    requires Rankings(lists) && TopMerge(lists, k) != []
    ensures TopMerge(CutAll(lists, k), k) != []
    ensures LastScore(TopMerge(CutAll(lists, k), k)) == LastScore(TopMerge(lists, k))
  {
    TruncationKeepsScores(lists, k);
    var a, b := TopMerge(CutAll(lists, k), k), TopMerge(lists, k);
    assert |ScoresOf(a)| == |ScoresOf(b)|;
    assert ScoresOf(a)[|a| - 1] == ScoresOf(b)[|b| - 1];
  }

  lemma {:induction false} AnswerSplits(lists: seq<Hits>, k: nat)
    requires TopMerge(lists, k) != []
    ensures var b, w := TopMerge(lists, k), LastScore(TopMerge(lists, k));
            IdSet(b) == Above(b, w) + Exactly(b, w) && Above(b, w) !! Exactly(b, w)
  {
    MergedShape(lists);
    IdSetSplits(TopMerge(lists, k), LastScore(TopMerge(lists, k)));
  }

  /** The last tie group of the two answers, as sets. */
  lemma {:induction false} LastTies(lists: seq<Hits>, k: nat)
    requires Rankings(lists) && TopMerge(lists, k) != []
    ensures var w := LastScore(TopMerge(lists, k));
            var r := Room(lists, k, w);
            && Exactly(TopMerge(lists, k), w) == Members(Take(Ties(lists, w), r))
            && Exactly(TopMerge(CutAll(lists, k), k), w) == Members(Take(Ties(CutAll(lists, k), w), r))
  {
    var w := LastScore(TopMerge(lists, k));
    GroupOfAnswer(lists, k, w);
    GroupMembers(TopMerge(lists, k), w);
    GroupMembers(TopMerge(CutAll(lists, k), k), w);
  }

  lemma {:induction false} SplitSets(common: set<Uuid>, a: set<Uuid>, b: set<Uuid>)
    requires common !! a && common !! b
    ensures common + a == common + b <==> a == b
  {
    if common + a == common + b {
      assert forall x <- a :: x in common + b;
      assert forall x <- b :: x in common + a;
    }
  }

  // ---------- The order of the merge dictionary ----------

  /** The ids of all lists, one list after the other. */
  function AllIds(lists: seq<Hits>): seq<Uuid> {
    if lists == [] then [] else AllIds(lists[..|lists| - 1]) + IdsOf(lists[|lists| - 1])
  }

  /** The merge dictionary lists its chunks by first appearance in the result lists. */
  lemma {:induction false} MergeOrder(lists: seq<Hits>)
    ensures IdsOf(Merge(lists)) == Dedup(AllIds(lists))
  {
    if lists != [] {
      var front := lists[..|lists| - 1];
      MergeOrder(front);
      PutAllOrder(Merge(front), lists[|lists| - 1], AllIds(front));
    }
  }

  lemma {:induction false} PutAllOrder(m: Hits, s: Hits, ids: seq<Uuid>)
    requires IdsOf(m) == Dedup(ids)
    ensures IdsOf(PutAll(m, s)) == Dedup(ids + IdsOf(s))
    decreases |s|
  {
    if s == [] {
      assert ids + IdsOf(s) == ids;
    } else {
      PutOrder(m, s[0], ids);
      PutAllOrder(Put(m, s[0]), s[1..], ids + [IdOf(s[0])]);
      IdsHead(s);
      Associate(ids, [IdOf(s[0])], IdsOf(s[1..]));
    }
  }

  lemma {:induction false} PutOrder(m: Hits, x: Ranked<Hit>, ids: seq<Uuid>)
    requires IdsOf(m) == Dedup(ids)
    ensures IdsOf(Put(m, x)) == Dedup(ids + [IdOf(x)])
  {
    assert (ids + [IdOf(x)])[..|ids|] == ids;
    match Retriever.Find(m, IdOf(x))
    case None =>
      forall i | 0 <= i < |m| ensures IdsOf(m)[i] != IdOf(x) {
        assert m[i] in m;
      }
      IdsSplit(m, [x]);
    case Some(i) =>
      assert IdsOf(m)[i] == IdOf(x);
  }

  // ---------- The node ----------

  /** What the node would return from uncut rankings. */
  ghost function Ideal(e: Engine, embed: string -> seq<real>, db: Db, tenant: Uuid, allowed: Access,
                       subqueries: seq<string>): seq<RetrievedChunk>
    requires ScoresAll(e)
  {
    Present(db, TopMerge(FullSearches(e, embed, db, tenant, allowed, subqueries), e.finalTopK))
  }

  /**
   * `retriever` returns what uncut rankings would give exactly when the two dictionaries start every tie
   * group alike as far as the answer reaches, and always when the boundary is clear and no returned
   * scores are equal.
   */
  lemma {:induction false} RetrieverKeepsChunksIff(e: Engine, embed: string -> seq<real>, db: Db, tenant: Uuid,
                                                   allowed: Access, subqueries: seq<string>)
    requires ScoresAll(e) && UniqueIds(db.chunks)
    ensures var full, k := FullSearches(e, embed, db, tenant, allowed, subqueries), e.finalTopK;
            Retrieved(e, embed, db, tenant, allowed, subqueries) == Ideal(e, embed, db, tenant, allowed, subqueries)
            <==> forall v :: SameStart(full, k, v)
  {
    var full, k := FullSearches(e, embed, db, tenant, allowed, subqueries), e.finalTopK;
    SearchesAreCut(e, embed, db, tenant, allowed, subqueries);
    TruncationKeepsScores(full, k);
    ChunksKeptIff(full, k);
    StoredRows(e, embed, db, tenant, allowed, subqueries);
    SamePresentation(db, TopMerge(CutAll(full, k), k), TopMerge(full, k));
  }

  lemma {:induction false} SamePresentation(db: Db, a: Hits, b: Hits)
    requires UniqueIds(db.chunks) && ScoresOf(a) == ScoresOf(b)
    requires (forall x <- a :: x.item.chunk in db.chunks) && (forall y <- b :: y.item.chunk in db.chunks)
    ensures Present(db, a) == Present(db, b) <==> IdsOf(a) == IdsOf(b)
  {
    assert |ScoresOf(a)| == |ScoresOf(b)|;
    forall i | 0 <= i < |a| ensures Present(db, a)[i] == Present(db, b)[i] <==> IdsOf(a)[i] == IdsOf(b)[i] {
      assert a[i] in a && b[i] in b && ScoresOf(a)[i] == ScoresOf(b)[i];
    }
  }

  /** Both answers hold stored rows. */
  lemma {:induction false} StoredRows(e: Engine, embed: string -> seq<real>, db: Db, tenant: Uuid, allowed: Access,
                                      subqueries: seq<string>)
    requires ScoresAll(e) && UniqueIds(db.chunks)
    ensures var full, k := FullSearches(e, embed, db, tenant, allowed, subqueries), e.finalTopK;
            && (forall x <- TopMerge(full, k) :: x.item.chunk in db.chunks)
            && (forall x <- TopMerge(CutAll(full, k), k) :: x.item.chunk in db.chunks)
  {
    var full, k := FullSearches(e, embed, db, tenant, allowed, subqueries), e.finalTopK;
    forall lists, x | lists in [full, CutAll(full, k)] && x in TopMerge(lists, k) ensures x.item.chunk in db.chunks {
      SortMembers(Merge(lists), x);
      MergeIsBest(lists);
      if lists != full {
        CutSeen(full, k, x);
      }
      FullAreStored(e, embed, db, tenant, allowed, subqueries, x);
    }
    assert full in [full, CutAll(full, k)] && CutAll(full, k) in [full, CutAll(full, k)];
  }

  lemma {:induction false} FullAreStored(e: Engine, embed: string -> seq<real>, db: Db, tenant: Uuid, allowed: Access,
                                         subqueries: seq<string>, x: Ranked<Hit>)
    requires ScoresAll(e) && UniqueIds(db.chunks)
    requires x in Seen(FullSearches(e, embed, db, tenant, allowed, subqueries))
    ensures x.item.chunk in db.chunks
  {
    SeenIsAnyList(FullSearches(e, embed, db, tenant, allowed, subqueries), x);
    var j :| 0 <= j < |subqueries| && x in FullSearches(e, embed, db, tenant, allowed, subqueries)[j];
    FullRankingShape(e, db.chunks, tenant, allowed, subqueries[j], embed(subqueries[j]));
    VisibleMembers(db.chunks, tenant, allowed, x.item.chunk);
  }
}
