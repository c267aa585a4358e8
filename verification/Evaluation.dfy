/**
 * Answer quality scores (backend/app/services/evaluation.py): the deterministic scorer and the gate.
 * Texts come as sets of terms; scores are reals, so rounding to four digits is absent.
 */
module Evaluation {
  import opened Select

  type Terms = set<string>

  // ---------- Average precision of a ranked list ----------

  /** Which of the ranked contexts share a term with the question. */
  function Relevance(question: Terms, contexts: seq<Terms>): (r: seq<bool>)
    ensures |r| == |contexts|
    ensures forall k | 0 <= k < |r| :: r[k] <==> question * contexts[k] != {}
  {
    seq(|contexts|, k requires 0 <= k < |contexts| => question * contexts[k] != {})
  }

  /** How many entries are relevant. */
  function Seen(rel: seq<bool>): (n: nat)
    ensures n <= |rel|
  {
    if rel == [] then 0 else Seen(rel[..|rel| - 1]) + if rel[|rel| - 1] then 1 else 0
  }

  /** Precision at the end of a nonempty list. */
  function Precision(rel: seq<bool>): real
    requires rel != []
  {
    Seen(rel) as real / |rel| as real
  }

  /** The sum of the precisions at the relevant positions. */
  function PrecisionSum(rel: seq<bool>): real {
    if rel == [] then 0.0
    else PrecisionSum(rel[..|rel| - 1]) + if rel[|rel| - 1] then Precision(rel) else 0.0
  }

  function AveragePrecision(rel: seq<bool>): real {
    if Seen(rel) == 0 then 0.0 else PrecisionSum(rel) / Seen(rel) as real
  }

  /** `_average_precision`. */
  method AveragePrecisionOf(question: Terms, contexts: seq<Terms>) returns (score: real)
    ensures score == AveragePrecision(Relevance(question, contexts))
  {
    ghost var rel := Relevance(question, contexts);
    if contexts == [] || question == {} {
      NoneSeen(rel);
      return 0.0;
    }
    var relevantSeen, precisionSum := 0, 0.0;
    for k := 0 to |contexts|
      invariant relevantSeen == Seen(rel[..k])
      invariant precisionSum == PrecisionSum(rel[..k])
    {
      assert rel[..k + 1][..k] == rel[..k];
      if question * contexts[k] != {} {
        relevantSeen := relevantSeen + 1;
        precisionSum := precisionSum + relevantSeen as real / (k + 1) as real;
      }
    }
    assert rel[..|contexts|] == rel;
    if relevantSeen == 0 {
      return 0.0;
    }
    return precisionSum / relevantSeen as real;
  }

  lemma {:induction false} NoneSeen(rel: seq<bool>)
    requires forall k | 0 <= k < |rel| :: !rel[k]
    ensures Seen(rel) == 0
  {
    if rel != [] {
      NoneSeen(rel[..|rel| - 1]);
    }
  }

  lemma {:induction false} AllSeen(rel: seq<bool>)
    ensures Seen(rel) == |rel| <==> forall k | 0 <= k < |rel| :: rel[k]
  {
    if rel != [] {
      AllSeen(rel[..|rel| - 1]);
    }
  }

  lemma {:induction false} SomeSeen(rel: seq<bool>)
    ensures Seen(rel) > 0 <==> exists k :: 0 <= k < |rel| && rel[k]
  {
    if rel != [] {
      SomeSeen(rel[..|rel| - 1]);
      if rel[|rel| - 1] {
        assert 0 <= |rel| - 1 < |rel| && rel[|rel| - 1];
      }
    }
  }

  lemma {:induction false} RatioAtMostOne(a: nat, b: nat)
    requires a <= b && 0 < b
    ensures 0.0 <= a as real / b as real <= 1.0
    ensures a as real / b as real == 1.0 <==> a == b
  {
  }

  /** Relevant contexts come first. */
  predicate RelevantFirst(rel: seq<bool>) {
    forall i, j | 0 <= i < j < |rel| && rel[j] :: rel[i]
  }

  lemma {:induction false} PrecisionSumBounds(rel: seq<bool>)
    ensures 0.0 <= PrecisionSum(rel) <= Seen(rel) as real
    ensures PrecisionSum(rel) == Seen(rel) as real <==> RelevantFirst(rel)
  {
    if rel != [] {
      var front := rel[..|rel| - 1];
      PrecisionSumBounds(front);
      RatioAtMostOne(Seen(rel), |rel|);
      AllSeen(rel);
      if rel[|rel| - 1] {
        if RelevantFirst(rel) {
          assert forall i | 0 <= i < |rel| :: rel[i];
        }
      } else if RelevantFirst(front) {
        assert forall i | 0 <= i < |front| :: rel[i] == front[i];
      }
      if RelevantFirst(rel) {
        assert forall i | 0 <= i < |front| :: front[i] == rel[i];
      }
    }
  }

  /** Average precision lies in [0, 1], and is 1 exactly when something is relevant and it all comes first. */
  lemma {:induction false} AveragePrecisionBounds(rel: seq<bool>)
    ensures 0.0 <= AveragePrecision(rel) <= 1.0
    ensures AveragePrecision(rel) == 1.0 <==> (exists k :: 0 <= k < |rel| && rel[k]) && RelevantFirst(rel)
  {
    PrecisionSumBounds(rel);
    SomeSeen(rel);
    if Seen(rel) > 0 {
      QuotientBounds(PrecisionSum(rel), Seen(rel) as real);
    }
  }

  lemma {:induction false} QuotientBounds(x: real, n: real)
    requires 0.0 <= x <= n && 0.0 < n
    ensures 0.0 <= x / n <= 1.0
    ensures x / n == 1.0 <==> x == n
  {
  }

  // ---------- Better rankings score higher ----------

  lemma {:induction false} SeenSwap(a: seq<bool>, b: seq<bool>)
    ensures Seen(a + [true, false] + b) == Seen(a + [false, true] + b)
  {
    var good, bad := a + [true, false] + b, a + [false, true] + b;
    var last := |good| - 1;
    if b == [] {
      assert good[..last] == a + [true] && bad[..last] == a + [false];
      assert good[..last][..|a|] == a && bad[..last][..|a|] == a;
    } else {
      var front := b[..|b| - 1];
      assert good[..last] == a + [true, false] + front && bad[..last] == a + [false, true] + front;
      SeenSwap(a, front);
    }
  }

  lemma {:induction false} SmallerDivisor(s: nat, k: nat)
    requires 0 < s && 0 < k
    ensures s as real / k as real > s as real / (k + 1) as real
  {
    assert s as real / k as real - s as real / (k + 1) as real == s as real / (k as real * (k + 1) as real);
  }

  lemma {:induction false} PrecisionSumSwap(a: seq<bool>, b: seq<bool>)
    ensures PrecisionSum(a + [true, false] + b) > PrecisionSum(a + [false, true] + b)
  {
    var good, bad := a + [true, false] + b, a + [false, true] + b;
    var last := |good| - 1;
    if b == [] {
      PrecisionSumPair(a);
      assert good == a + [true, false] && bad == a + [false, true];
    } else {
      var front := b[..|b| - 1];
      assert good[..last] == a + [true, false] + front && bad[..last] == a + [false, true] + front;
      PrecisionSumSwap(a, front);
      SeenSwap(a, b);
    }
  }

  lemma {:induction false} PrecisionSumPair(a: seq<bool>)
    ensures PrecisionSum(a + [true, false]) > PrecisionSum(a + [false, true])
  {
    var n, s := |a|, Seen(a);
    assert (a + [true, false])[..n + 1] == a + [true] && (a + [true])[..n] == a;
    assert (a + [false, true])[..n + 1] == a + [false] && (a + [false])[..n] == a;
    assert Seen(a + [true]) == s + 1 && Seen(a + [false]) == s;
    assert PrecisionSum(a + [true, false]) == PrecisionSum(a) + (s + 1) as real / (n + 1) as real;
    assert PrecisionSum(a + [false, true]) == PrecisionSum(a) + (s + 1) as real / (n + 2) as real;
    SmallerDivisor(s + 1, n + 1);
  }

  /** Moving a relevant context one place ahead of an irrelevant one strictly raises the score. */
  lemma {:induction false} BetterOrderScoresHigher(a: seq<bool>, b: seq<bool>)
    ensures AveragePrecision(a + [true, false] + b) > AveragePrecision(a + [false, true] + b)
  {
    var good, bad := a + [true, false] + b, a + [false, true] + b;
    SeenSwap(a, b);
    PrecisionSumSwap(a, b);
    assert good[|a|];
    SomeSeen(good);
    DivideBySame(PrecisionSum(good), PrecisionSum(bad), Seen(good) as real);
  }

  lemma {:induction false} DivideBySame(x: real, y: real, n: real)
    requires x > y && n > 0.0
    ensures x / n > y / n
  {
    assert x / n - y / n == (x - y) / n;
  }

  // ---------- The scorer ----------

  datatype ItemScores = ItemScores(faithfulness: real, contextPrecision: real, answerRelevancy: real)

  function Union(contexts: seq<Terms>): Terms {
    if contexts == [] then {} else contexts[0] + Union(contexts[1..])
  }

  /** The share of `part` that lies in `whole`, or zero for an empty `part`. */
  function Share(part: Terms, whole: Terms): real {
    if part == {} then 0.0 else |part * whole| as real / |part| as real
  }

  /** `FakeEvaluator._score`. */
  function Score(question: Terms, answer: Terms, reference: Terms, contexts: seq<Terms>): ItemScores {
    ItemScores(Share(answer, Union(contexts)),
               AveragePrecision(Relevance(question, contexts)),
               Share(question + reference, answer))
  }

  lemma {:induction false} ShareBounds(part: Terms, whole: Terms)
    ensures 0.0 <= Share(part, whole) <= 1.0
    ensures Share(part, whole) == 1.0 <==> part != {} && part <= whole
    ensures Share(part, whole) == 0.0 <==> part * whole == {}
  {
    if part != {} {
      var rest := part - whole;
      assert part == part * whole + rest;
      assert |part| == |part * whole| + |rest|;
      RatioAtMostOne(|part * whole|, |part|);
      assert rest == {} <==> part <= whole;
      PositiveQuotient(|part * whole|, |part|);
    }
  }

  lemma {:induction false} PositiveQuotient(a: nat, b: nat)
    requires 0 < b
    ensures a as real / b as real == 0.0 <==> a == 0
  {
  }

  lemma {:induction false} UnionMembers(contexts: seq<Terms>, t: string)
    ensures t in Union(contexts) <==> exists k :: 0 <= k < |contexts| && t in contexts[k]
  {
    if contexts != [] {
      UnionMembers(contexts[1..], t);
      if t in contexts[0] {
        assert 0 <= 0 < |contexts| && t in contexts[0];
      } else if t in Union(contexts[1..]) {
        var k :| 0 <= k < |contexts[1..]| && t in contexts[1..][k];
        assert t in contexts[k + 1];
      }
    }
  }

  /** Every term is in some context. */
  predicate Grounded(answer: Terms, contexts: seq<Terms>) {
    forall t <- answer :: exists k :: 0 <= k < |contexts| && t in contexts[k]
  }

  /**
   * Each metric lies in [0, 1]. Faithfulness is 1 exactly for a nonempty answer all of whose terms
   * occur in some context and 0 exactly when none does; relevancy is 1 exactly when the answer covers
   * a nonempty question and reference.
   */
  lemma {:induction false} ScoreMeaning(question: Terms, answer: Terms, reference: Terms, contexts: seq<Terms>)
    ensures var s := Score(question, answer, reference, contexts);
            && 0.0 <= s.faithfulness <= 1.0 && 0.0 <= s.contextPrecision <= 1.0 && 0.0 <= s.answerRelevancy <= 1.0
            && (s.faithfulness == 1.0 <==> answer != {} && Grounded(answer, contexts))
            && (s.faithfulness == 0.0 <==> forall k | 0 <= k < |contexts| :: answer * contexts[k] == {})
            && (s.answerRelevancy == 1.0 <==> question + reference != {} && question + reference <= answer)
  {
    AveragePrecisionBounds(Relevance(question, contexts));
    ShareBounds(answer, Union(contexts));
    ShareBounds(question + reference, answer);
    forall t ensures t in Union(contexts) <==> exists k :: 0 <= k < |contexts| && t in contexts[k] {
      UnionMembers(contexts, t);
    }
    assert answer * Union(contexts) == {} <==> forall k | 0 <= k < |contexts| :: answer * contexts[k] == {} by {
      if answer * Union(contexts) == {} {
        forall k | 0 <= k < |contexts| ensures answer * contexts[k] == {} {
          assert forall t <- answer * contexts[k] :: t in Union(contexts) && t in answer * Union(contexts);
        }
      } else {
        var t :| t in answer * Union(contexts);
        var k :| 0 <= k < |contexts| && t in contexts[k];
        assert t in answer * contexts[k];
      }
    }
  }

  // ---------- The gate ----------

  function Total(values: seq<real>): real {
    if values == [] then 0.0 else Total(values[..|values| - 1]) + values[|values| - 1]
  }

  function Mean(values: seq<real>): real {
    if values == [] then 0.0 else Total(values) / |values| as real
  }

  const METRIC_NAMES := {"faithfulness", "context_precision", "answer_relevancy"}

  function Metric(s: ItemScores, name: string): real
    requires name in METRIC_NAMES
  {
    if name == "faithfulness" then s.faithfulness
    else if name == "context_precision" then s.contextPrecision
    else s.answerRelevancy
  }

  function Column(items: seq<ItemScores>, name: string): (r: seq<real>)
    requires name in METRIC_NAMES
    ensures |r| == |items| && forall i | 0 <= i < |r| :: r[i] == Metric(items[i], name)
  {
    seq(|items|, i requires 0 <= i < |items| => Metric(items[i], name))
  }

  /** `AggregateScores.from_items`: the mean of each metric. */
  function FromItems(items: seq<ItemScores>): map<string, real> {
    map name | name in METRIC_NAMES :: Mean(Column(items, name))
  }

  /** `AggregateScores.passed`: a metric without a mean counts as zero. */
  predicate Passed(means: map<string, real>, thresholds: map<string, real>) {
    forall name | name in thresholds :: (if name in means then means[name] else 0.0) >= thresholds[name]
  }

  lemma {:induction false} TotalBounds(values: seq<real>, lo: real, hi: real)
    requires forall k | 0 <= k < |values| :: lo <= values[k] <= hi
    ensures lo * |values| as real <= Total(values) <= hi * |values| as real
  {
    if values != [] {
      TotalBounds(values[..|values| - 1], lo, hi);
    }
  }

  /** A mean lies between the bounds of its items, so a run whose items all reach a threshold reaches it. */
  lemma {:induction false} MeanBounds(values: seq<real>, lo: real, hi: real)
    requires values != [] && forall k | 0 <= k < |values| :: lo <= values[k] <= hi
    ensures lo <= Mean(values) <= hi
  {
    TotalBounds(values, lo, hi);
    QuotientBetween(Total(values), lo, hi, |values| as real);
  }

  lemma {:induction false} QuotientBetween(x: real, lo: real, hi: real, n: real)
    requires n > 0.0 && lo * n <= x <= hi * n
    ensures lo <= x / n <= hi
  {
    assert x / n * n == x;
  }

  /** An item's score under a metric name; a name that is no metric scores nothing. */
  function Scored(s: ItemScores, name: string): real {
    if name in METRIC_NAMES then Metric(s, name) else 0.0
  }

  /** The items add up to the threshold on average; an empty run or an unknown metric averages zero. */
  predicate Reaches(items: seq<ItemScores>, name: string, threshold: real) {
    if items == [] || name !in METRIC_NAMES then threshold <= 0.0
    else Total(Column(items, name)) >= threshold * |items| as real
  }

  predicate AllReach(items: seq<ItemScores>, thresholds: map<string, real>) {
    forall i, name | 0 <= i < |items| && name in thresholds :: Scored(items[i], name) >= thresholds[name]
  }

  /** All items stay below the threshold of one metric. */
  predicate OneMissed(items: seq<ItemScores>, thresholds: map<string, real>) {
    exists name :: name in thresholds && forall i | 0 <= i < |items| :: Scored(items[i], name) < thresholds[name]
  }

  /**
   * The gate: a run passes exactly when its items add up to every threshold. So one all of whose items
   * reach every threshold passes, one all of whose items stay below one threshold fails, and an empty run
   * passes exactly when no threshold is above zero.
   */
  lemma {:induction false} GateFollowsItems(items: seq<ItemScores>, thresholds: map<string, real>)
    ensures Passed(FromItems(items), thresholds)
       <==> forall name | name in thresholds :: Reaches(items, name, thresholds[name])
    ensures items != [] && AllReach(items, thresholds) ==> Passed(FromItems(items), thresholds)
    ensures items != [] && OneMissed(items, thresholds) ==> !Passed(FromItems(items), thresholds)
    ensures items == [] ==>
      (Passed(FromItems(items), thresholds) <==> forall name | name in thresholds :: thresholds[name] <= 0.0)
  {
    forall name | name in thresholds
      ensures MeanOf(items, name) >= thresholds[name] <==> Reaches(items, name, thresholds[name])
    {
      MeanReaches(items, name, thresholds[name]);
    }
    forall name | name in thresholds && items != []
      ensures (forall i | 0 <= i < |items| :: Scored(items[i], name) >= thresholds[name])
          ==> MeanOf(items, name) >= thresholds[name]
      ensures (forall i | 0 <= i < |items| :: Scored(items[i], name) < thresholds[name])
          ==> MeanOf(items, name) < thresholds[name]
    {
      OneMetric(items, name, thresholds[name]);
    }
  }

  /** What `passed` compares with a threshold. */
  function MeanOf(items: seq<ItemScores>, name: string): real {
    if name in FromItems(items) then FromItems(items)[name] else 0.0
  }

  lemma {:induction false} MeanReaches(items: seq<ItemScores>, name: string, threshold: real)
    ensures MeanOf(items, name) >= threshold <==> Reaches(items, name, threshold)
  {
    if items != [] && name in METRIC_NAMES {
      var n, total := |items| as real, Total(Column(items, name));
      assert MeanOf(items, name) == total / n;
      QuotientReaches(total, n, threshold);
    }
  }

  lemma {:induction false} QuotientReaches(x: real, n: real, t: real)
    requires n > 0.0
    ensures x / n >= t <==> x >= t * n
  {
    assert x / n * n == x;
    if x / n >= t {
      assert x / n * n >= t * n;
    } else {
      assert x / n * n < t * n;
    }
  }

  lemma {:induction false} OneMetric(items: seq<ItemScores>, name: string, threshold: real)
    requires items != []
    ensures (forall i | 0 <= i < |items| :: Scored(items[i], name) >= threshold) ==> MeanOf(items, name) >= threshold
    ensures (forall i | 0 <= i < |items| :: Scored(items[i], name) < threshold) ==> MeanOf(items, name) < threshold
  {
    if name in METRIC_NAMES {
      assert forall i | 0 <= i < |items| :: Column(items, name)[i] == Scored(items[i], name);
      MeanFollows(Column(items, name), threshold);
    } else {
      assert Scored(items[0], name) == 0.0;
    }
  }

  lemma {:induction false} MeanFollows(values: seq<real>, t: real)
    requires values != []
    ensures (forall k | 0 <= k < |values| :: values[k] >= t) ==> Mean(values) >= t
    ensures (forall k | 0 <= k < |values| :: values[k] < t) ==> Mean(values) < t
  {
    var hi := Largest(values);
    var lo := Smallest(values);
    MeanBounds(values, lo, hi);
  }

  ghost function Largest(values: seq<real>): (m: real)
    requires values != []
    ensures m in values && forall k | 0 <= k < |values| :: values[k] <= m
  {
    if |values| == 1 then values[0]
    else
      var rest := Largest(values[..|values| - 1]);
      if rest <= values[|values| - 1] then values[|values| - 1] else rest
  }

  ghost function Smallest(values: seq<real>): (m: real)
    requires values != []
    ensures m in values && forall k | 0 <= k < |values| :: m <= values[k]
  {
    if |values| == 1 then values[0]
    else
      var rest := Smallest(values[..|values| - 1]);
      if values[|values| - 1] <= rest then values[|values| - 1] else rest
  }

  // ---------- The metrics as numbers ----------

  /** The share counts common terms. */
  lemma {:induction false} ShareCounts(part: Terms, whole: Terms)
    ensures Share(part, whole) * |part| as real == |part * whole| as real
    ensures part == {} ==> Share(part, whole) == 0.0
  {
    if part != {} {
      Undivide(|part * whole| as real, |part| as real);
    } else {
      assert part * whole == {};
    }
  }

  lemma {:induction false} Undivide(x: real, d: real)
    requires d != 0.0
    ensures x / d * d == x
  {
  }

  /** The positions of the relevant entries. */
  ghost function Relevant(rel: seq<bool>): set<int> {
    set k | 0 <= k < |rel| && rel[k]
  }

  lemma {:induction false} SeenIsRelevant(rel: seq<bool>)
    ensures Seen(rel) == |Relevant(rel)|
  {
    if rel != [] {
      var n := |rel| - 1;
      SeenIsRelevant(rel[..n]);
      assert Relevant(rel) == Relevant(rel[..n]) + if rel[n] then {n} else {};
    }
  }

  /**
   * Average precision entry by entry: an irrelevant entry at the end changes nothing, a relevant one adds the
   * share of relevant entries up to it before the mean over all relevant entries is taken.
   */
  lemma {:induction false} AveragePrecisionGrows(rel: seq<bool>)
    ensures AveragePrecision([]) == 0.0 && AveragePrecision(rel + [false]) == AveragePrecision(rel)
    ensures var r := |Relevant(rel)| as real;
            AveragePrecision(rel + [true]) * (r + 1.0) == AveragePrecision(rel) * r + (r + 1.0) / (|rel| + 1) as real
  {
    IrrelevantIgnored(rel);
    RelevantAdds(rel);
  }

  lemma {:induction false} IrrelevantIgnored(rel: seq<bool>)
    ensures AveragePrecision([]) == 0.0 && AveragePrecision(rel + [false]) == AveragePrecision(rel)
  {
    assert (rel + [false])[..|rel|] == rel;
  }

  lemma {:induction false} RelevantAdds(rel: seq<bool>)
    ensures var r := |Relevant(rel)| as real;
            AveragePrecision(rel + [true]) * (r + 1.0) == AveragePrecision(rel) * r + (r + 1.0) / (|rel| + 1) as real
  {
    SeenIsRelevant(rel);
    OneMoreRelevant(rel);
    var r := |Relevant(rel)| as real;
    PrecisionScaled(rel, r);
    PrecisionScaled(rel + [true], r + 1.0);
  }

  lemma {:induction false} OneMoreRelevant(rel: seq<bool>)
    ensures Seen(rel + [true]) == Seen(rel) + 1
    ensures PrecisionSum(rel + [true]) == PrecisionSum(rel) + (Seen(rel) + 1) as real / (|rel| + 1) as real
  {
    assert (rel + [true])[..|rel|] == rel;
  }

  lemma {:induction false} PrecisionScaled(rel: seq<bool>, seen: real)
    requires seen == Seen(rel) as real
    ensures AveragePrecision(rel) * seen == PrecisionSum(rel)
  {
    PrecisionSumBounds(rel);
    if Seen(rel) > 0 {
      Undivide(PrecisionSum(rel), seen);
    }
  }

  /** The three metrics of an item: which sets they compare. */
  lemma {:induction false} ScoreCompares(question: Terms, answer: Terms, reference: Terms, contexts: seq<Terms>)
    ensures var s := Score(question, answer, reference, contexts);
            && s.faithfulness == Share(answer, Union(contexts))
            && s.answerRelevancy == Share(question + reference, answer)
            && exists rel :: |rel| == |contexts| && s.contextPrecision == AveragePrecision(rel)
                             && forall k | 0 <= k < |rel| :: rel[k] <==> exists t <- question :: t in contexts[k]
  {
    var rel := Relevance(question, contexts);
    forall k | 0 <= k < |rel| ensures rel[k] <==> exists t <- question :: t in contexts[k] {
      if rel[k] {
        var t :| t in question * contexts[k];
      }
      if t :| t in question && t in contexts[k] {
        assert t in question * contexts[k];
      }
    }
  }

  function Faithfulness(): ItemScores -> real {
    (s: ItemScores) => s.faithfulness
  }

  function ContextPrecision(): ItemScores -> real {
    (s: ItemScores) => s.contextPrecision
  }

  function AnswerRelevancy(): ItemScores -> real {
    (s: ItemScores) => s.answerRelevancy
  }

  lemma {:induction false} TotalIsSumOf(items: seq<ItemScores>, name: string, metric: ItemScores -> real)
    requires name in METRIC_NAMES && forall s :: metric(s) == Metric(s, name)
    ensures Total(Column(items, name)) == SumOf(items, metric)
  {
    if items != [] {
      var front := items[..|items| - 1];
      TotalIsSumOf(front, name, metric);
      assert Column(items, name)[..|items| - 1] == Column(front, name);
    }
  }

  /** A run has a mean for each of the three metrics and for nothing else: the sum over its items by their number. */
  lemma {:induction false} MeansOfMetrics(items: seq<ItemScores>)
    ensures FromItems(items).Keys == {"faithfulness", "context_precision", "answer_relevancy"}
    ensures FromItems(items)["faithfulness"] * |items| as real == SumOf(items, Faithfulness())
    ensures FromItems(items)["context_precision"] * |items| as real == SumOf(items, ContextPrecision())
    ensures FromItems(items)["answer_relevancy"] * |items| as real == SumOf(items, AnswerRelevancy())
    ensures items == [] ==> forall name <- FromItems(items) :: MeanOf(items, name) == 0.0
  {
    OneMean(items, "faithfulness", Faithfulness());
    OneMean(items, "context_precision", ContextPrecision());
    OneMean(items, "answer_relevancy", AnswerRelevancy());
    NamesOfMetrics(items);
  }

  lemma {:induction false} NamesOfMetrics(items: seq<ItemScores>)
    ensures FromItems(items).Keys == {"faithfulness", "context_precision", "answer_relevancy"}
    ensures items == [] ==> forall name <- FromItems(items) :: MeanOf(items, name) == 0.0
  {
    forall name | name in FromItems(items) && items == [] ensures MeanOf(items, name) == 0.0 {
      MeanOfColumn(items, name);
    }
  }

  lemma {:induction false} OneMean(items: seq<ItemScores>, name: string, metric: ItemScores -> real)
    requires name in METRIC_NAMES && forall s :: metric(s) == Metric(s, name)
    ensures FromItems(items)[name] * |items| as real == SumOf(items, metric)
    ensures items == [] ==> FromItems(items)[name] == 0.0
  {
    TotalIsSumOf(items, name, metric);
    ScaledMean(items, name);
  }

  lemma {:induction false} ScaledMean(items: seq<ItemScores>, name: string)
    requires name in METRIC_NAMES
    ensures FromItems(items)[name] * |items| as real == Total(Column(items, name))
    ensures items == [] ==> FromItems(items)[name] == 0.0
  {
    MeanOfColumn(items, name);
    MeanScaled(Column(items, name), |items| as real);
  }

  lemma {:induction false} MeanOfColumn(items: seq<ItemScores>, name: string)
    requires name in METRIC_NAMES
    ensures FromItems(items)[name] == Mean(Column(items, name))
  {
  }

  lemma {:induction false} MeanScaled(values: seq<real>, n: real)
    requires n == |values| as real
    ensures Mean(values) * n == Total(values)
  {
    if values != [] {
      Undivide(Total(values), n);
    }
  }
}
