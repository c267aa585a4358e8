/**
 * What applying templates guarantees: re-applying is a no-op, uniqueness is kept exactly when the new
 * entries are distinct, every entry is reported, and tags go to the new objections only.
 */
module TemplateLaws {
  import opened Segments
  import opened Select
  import opened Sequences
  import opened Templates
  import opened Wrappers

  // ---------- After one application everything exists ----------

  lemma {:induction false} SegmentsExist(segments: seq<Segment>, tenant: Uuid, names: seq<string>, firstId: Uuid)
    ensures var after := SegmentsByName(AddSegments(segments, tenant, names, firstId), tenant);
            && (forall name <- names :: name in after)
            && SegmentsByName(segments, tenant).Keys <= after.Keys
            && (forall name | name in SegmentsByName(segments, tenant) ::
                  after[name] == SegmentsByName(segments, tenant)[name])
  {
    if names != [] {
      var front, name := names[..|names| - 1], names[|names| - 1];
      SegmentsExist(segments, tenant, front, firstId);
      assert names == front + [name];
      var before := AddSegments(segments, tenant, front, firstId);
      ByNameAppend(before, Segment(firstId + (|before| - |segments|), tenant, name, |names| - 1), tenant);
    }
  }

  lemma {:induction false} NoSegmentAdded(segments: seq<Segment>, tenant: Uuid, names: seq<string>, firstId: Uuid)
    requires forall name <- names :: name in SegmentsByName(segments, tenant)
    ensures AddSegments(segments, tenant, names, firstId) == segments
    ensures SiftSegments(segments, tenant, names, firstId) == Bucket([], names)
  {
    if names != [] {
      var front := names[..|names| - 1];
      assert names == front + [names[|names| - 1]];
      NoSegmentAdded(segments, tenant, front, firstId);
    }
  }

  predicate HasTitle(topics: seq<Topic>, title: string) {
    exists i :: 0 <= i < |topics| && topics[i].title == title
  }

  lemma {:induction false} HasTitleAppend(topics: seq<Topic>, row: Topic, title: string)
    ensures HasTitle(topics + [row], title) <==> HasTitle(topics, title) || row.title == title
  {
    var after := topics + [row];
    assert after[|topics|] == row && forall i | 0 <= i < |topics| :: after[i] == topics[i];
  }

  lemma {:induction false} NewTopicTitles(existing: set<string>, tenant: Uuid, defs: seq<TopicDef>, title: string)
    ensures HasTitle(NewTopics(existing, tenant, defs), title) <==> title in Titles(defs) && title !in existing
  {
    if defs != [] {
      var front, last := defs[..|defs| - 1], defs[|defs| - 1];
      var before := NewTopics(existing, tenant, front);
      NewTopicTitles(existing, tenant, front, title);
      assert Titles(defs) == Titles(front) + [last.title];
      if last.title in existing {
        assert NewTopics(existing, tenant, defs) == before;
      } else {
        HasTitleAppend(before, Topic(tenant, last.title, last.question, |defs| - 1), title);
      }
    }
  }

  lemma {:induction false} NewTopicTenant(existing: set<string>, tenant: Uuid, defs: seq<TopicDef>)
    ensures forall i | 0 <= i < |NewTopics(existing, tenant, defs)| ::
              NewTopics(existing, tenant, defs)[i].tenant == tenant
  {
    if defs != [] {
      NewTopicTenant(existing, tenant, defs[..|defs| - 1]);
    }
  }

  lemma {:induction false} TitlesAfter(topics: seq<Topic>, tenant: Uuid, defs: seq<TopicDef>)
    ensures TitlesOf(topics + NewTopics(TitlesOf(topics, tenant), tenant, defs), tenant)
        == TitlesOf(topics, tenant) + (set t | t in Titles(defs))
  {
    var existing := TitlesOf(topics, tenant);
    var added := NewTopics(existing, tenant, defs);
    NewTopicTenant(existing, tenant, defs);
    forall t ensures t in TitlesOf(topics + added, tenant) <==> t in existing || t in Titles(defs) {
      NewTopicTitles(existing, tenant, defs, t);
      if t in existing {
        var i :| 0 <= i < |topics| && topics[i].tenant == tenant && topics[i].title == t;
        assert (topics + added)[i] == topics[i];
      }
      if i :| 0 <= i < |added| && added[i].title == t {
        assert (topics + added)[|topics| + i] == added[i];
      }
    }
  }

  lemma {:induction false} NoTopicAdded(existing: set<string>, tenant: Uuid, defs: seq<TopicDef>)
    requires forall t <- Titles(defs) :: t in existing
    ensures NewTopics(existing, tenant, defs) == []
  {
    if defs != [] {
      assert Titles(defs) == Titles(defs[..|defs| - 1]) + [defs[|defs| - 1].title];
      NoTopicAdded(existing, tenant, defs[..|defs| - 1]);
    }
  }

  lemma {:induction false} AllSkipped(existing: set<string>, names: seq<string>)
    requires forall name <- names :: name in existing
    ensures Sift(existing, names) == Bucket([], names)
  {
    if names != [] {
      assert names == names[..|names| - 1] + [names[|names| - 1]];
      AllSkipped(existing, names[..|names| - 1]);
    }
  }

  predicate HasLabel(objections: seq<Objection>, name: string) {
    exists i :: 0 <= i < |objections| && objections[i].labelText == name
  }

  lemma {:induction false} HasLabelAppend(objections: seq<Objection>, row: Objection, name: string)
    ensures HasLabel(objections + [row], name) <==> HasLabel(objections, name) || row.labelText == name
  {
    var after := objections + [row];
    assert after[|objections|] == row && forall i | 0 <= i < |objections| :: after[i] == objections[i];
  }

  lemma {:induction false} NewObjectionLabels(existing: set<string>, tenant: Uuid, defs: seq<ObjectionDef>,
                                              firstId: Uuid, name: string)
    ensures HasLabel(NewObjections(existing, tenant, defs, firstId), name)
       <==> name in Labels(defs) && name !in existing
  {
    if defs != [] {
      var front, last := defs[..|defs| - 1], defs[|defs| - 1];
      var before := NewObjections(existing, tenant, front, firstId);
      NewObjectionLabels(existing, tenant, front, firstId, name);
      assert Labels(defs) == Labels(front) + [last.labelText];
      if last.labelText !in existing {
        HasLabelAppend(before, Objection(firstId + |before|, tenant, last.labelText, last.prompt, |defs| - 1), name);
      }
    }
  }

  predicate Consecutive(objections: seq<Objection>, tenant: Uuid, firstId: Uuid) {
    forall i | 0 <= i < |objections| :: objections[i].tenant == tenant && objections[i].id == firstId + i
  }

  lemma {:induction false} ConsecutiveAppend(objections: seq<Objection>, row: Objection, tenant: Uuid, firstId: Uuid)
    requires Consecutive(objections, tenant, firstId) && row.tenant == tenant && row.id == firstId + |objections|
    ensures Consecutive(objections + [row], tenant, firstId)
  {
  }

  /** Created objections belong to the tenant and have consecutive ids. */
  lemma {:induction false} NewObjectionIds(existing: set<string>, tenant: Uuid, defs: seq<ObjectionDef>, firstId: Uuid)
    ensures Consecutive(NewObjections(existing, tenant, defs, firstId), tenant, firstId)
  {
    if defs != [] {
      var last := defs[|defs| - 1];
      var before := NewObjections(existing, tenant, defs[..|defs| - 1], firstId);
      NewObjectionIds(existing, tenant, defs[..|defs| - 1], firstId);
      if last.labelText !in existing {
        ConsecutiveAppend(before, Objection(firstId + |before|, tenant, last.labelText, last.prompt, |defs| - 1),
            tenant, firstId);
      }
    }
  }

  lemma {:induction false} LabelsAfter(objections: seq<Objection>, tenant: Uuid, defs: seq<ObjectionDef>, firstId: Uuid)
    ensures LabelsOf(objections + NewObjections(LabelsOf(objections, tenant), tenant, defs, firstId), tenant)
         == LabelsOf(objections, tenant) + (set t | t in Labels(defs))
  {
    var existing := LabelsOf(objections, tenant);
    var added := NewObjections(existing, tenant, defs, firstId);
    NewObjectionIds(existing, tenant, defs, firstId);
    forall t ensures t in LabelsOf(objections + added, tenant) <==> t in existing || t in Labels(defs) {
      NewObjectionLabels(existing, tenant, defs, firstId, t);
      if t in existing {
        var i :| 0 <= i < |objections| && objections[i].tenant == tenant && objections[i].labelText == t;
        assert (objections + added)[i] == objections[i];
      }
      if i :| 0 <= i < |added| && added[i].labelText == t {
        assert (objections + added)[|objections| + i] == added[i];
      }
    }
  }

  lemma {:induction false} NothingAdded(t: Tables, tenant: Uuid, existing: set<string>, byName: map<string, Uuid>,
                                        defs: seq<ObjectionDef>)
    requires forall name <- Labels(defs) :: name in existing
    ensures AddObjections(t, tenant, existing, byName, defs) == t
  {
    if defs != [] {
      assert Labels(defs) == Labels(defs[..|defs| - 1]) + [defs[|defs| - 1].labelText];
      NothingAdded(t, tenant, existing, byName, defs[..|defs| - 1]);
    }
  }

  /** The tables after one application, in closed form. */
  lemma {:induction false} ApplyShape(t: Tables, tenant: Uuid, tpl: Template)
    ensures var after, mid := Apply(t, tenant, tpl), WithSegments(t, tenant, tpl.segments);
            var labels := LabelsOf(t.objections, tenant);
            && after.segments == mid.segments
            && after.topics == t.topics + NewTopics(TitlesOf(t.topics, tenant), tenant, tpl.topics)
            && after.objections == t.objections + NewObjections(labels, tenant, tpl.objections, mid.nextId)
            && after.tags == t.tags + NewTags(labels, tenant, tpl.objections, mid.nextId,
                SegmentsByName(mid.segments, tenant))
            && after.nextId == mid.nextId + |NewObjections(labels, tenant, tpl.objections, mid.nextId)|
  {
    var t2 := WithTopics(WithSegments(t, tenant, tpl.segments), tenant, tpl.topics);
    AddObjectionsShape(t2, tenant, LabelsOf(t2.objections, tenant), SegmentsByName(t2.segments, tenant),
        tpl.objections);
  }

  /** Everything the template names exists for the tenant. */
  predicate Covers(t: Tables, tenant: Uuid, tpl: Template) {
    && (forall name <- tpl.segments :: name in SegmentsByName(t.segments, tenant))
    && (forall title <- Titles(tpl.topics) :: title in TitlesOf(t.topics, tenant))
    && (forall name <- Labels(tpl.objections) :: name in LabelsOf(t.objections, tenant))
  }

  /** One application makes the tenant cover the template. */
  lemma {:induction false} ApplyCovers(t: Tables, tenant: Uuid, tpl: Template)
    ensures Covers(Apply(t, tenant, tpl), tenant, tpl)
  {
    ApplyShape(t, tenant, tpl);
    SegmentsExist(t.segments, tenant, tpl.segments, t.nextId);
    TitlesAfter(t.topics, tenant, tpl.topics);
    LabelsAfter(t.objections, tenant, tpl.objections, WithSegments(t, tenant, tpl.segments).nextId);
  }

  /** Where the tenant covers a template, applying it changes nothing and reports every entry as skipped. */
  lemma {:induction false} CoveredIsNoOp(t: Tables, tenant: Uuid, tpl: Template)
    requires Covers(t, tenant, tpl)
    ensures Apply(t, tenant, tpl) == t
    ensures Reported(t, tenant, tpl)
         == Report(Bucket([], tpl.segments), Bucket([], Titles(tpl.topics)), Bucket([], Labels(tpl.objections)))
  {
    CoveredStays(t, tenant, tpl);
    NoSegmentAdded(t.segments, tenant, tpl.segments, t.nextId);
    AllSkipped(TitlesOf(t.topics, tenant), Titles(tpl.topics));
    AllSkipped(LabelsOf(t.objections, tenant), Labels(tpl.objections));
  }

  lemma {:induction false} CoveredStays(t: Tables, tenant: Uuid, tpl: Template)
    requires Covers(t, tenant, tpl)
    ensures Apply(t, tenant, tpl) == t
  {
    NoSegmentAdded(t.segments, tenant, tpl.segments, t.nextId);
    assert WithSegments(t, tenant, tpl.segments) == t;
    NoTopicAdded(TitlesOf(t.topics, tenant), tenant, tpl.topics);
    assert t.topics + [] == t.topics;
    assert WithTopics(t, tenant, tpl.topics) == t;
    NothingAdded(t, tenant, LabelsOf(t.objections, tenant), SegmentsByName(t.segments, tenant), tpl.objections);
  }

  /**
   * Idempotence, for every template, even one that repeats entries: the second application leaves all
   * tables as they are, creates nothing and reports every entry as skipped.
   */
  lemma {:induction false} ApplyTwiceIsOnce(t: Tables, tenant: Uuid, tpl: Template)
    ensures var once := Apply(t, tenant, tpl);
            && Apply(once, tenant, tpl) == once
            && Reported(once, tenant, tpl)
                 == Report(Bucket([], tpl.segments), Bucket([], Titles(tpl.topics)), Bucket([], Labels(tpl.objections)))
  {
    ApplyCovers(t, tenant, tpl);
    CoveredIsNoOp(Apply(t, tenant, tpl), tenant, tpl);
  }

  // ---------- No duplicates ----------

  predicate UniqueNames(segments: seq<Segment>, tenant: Uuid) {
    forall i, j | 0 <= i < j < |segments| && segments[i].tenant == tenant && segments[j].tenant == tenant ::
      segments[i].name != segments[j].name
  }

  predicate UniqueTitles(topics: seq<Topic>, tenant: Uuid) {
    forall i, j | 0 <= i < j < |topics| && topics[i].tenant == tenant && topics[j].tenant == tenant ::
      topics[i].title != topics[j].title
  }

  predicate UniqueLabels(objections: seq<Objection>, tenant: Uuid) {
    forall i, j | 0 <= i < j < |objections| && objections[i].tenant == tenant && objections[j].tenant == tenant ::
      objections[i].labelText != objections[j].labelText
  }

  /** No name that is missing from `existing` occurs twice. */
  predicate MissingAreDistinct(existing: set<string>, names: seq<string>) {
    forall i, j | 0 <= i < j < |names| && names[i] !in existing :: names[i] != names[j]
  }

  /** Segment names stay unique, whatever the template repeats. */
  lemma {:induction false} SegmentsStayUnique(segments: seq<Segment>, tenant: Uuid, names: seq<string>, firstId: Uuid)
    requires UniqueNames(segments, tenant)
    ensures UniqueNames(AddSegments(segments, tenant, names, firstId), tenant)
  {
    if names != [] {
      var front, name := names[..|names| - 1], names[|names| - 1];
      SegmentsStayUnique(segments, tenant, front, firstId);
      ByNameMembers(AddSegments(segments, tenant, front, firstId), tenant, name);
    }
  }

  lemma {:induction false} TopicsUniqueIff(existing: set<string>, tenant: Uuid, defs: seq<TopicDef>)
    ensures UniqueTitles(NewTopics(existing, tenant, defs), tenant) <==> MissingAreDistinct(existing, Titles(defs))
  {
    if defs != [] {
      var front, last := defs[..|defs| - 1], defs[|defs| - 1];
      TopicsUniqueIff(existing, tenant, front);
      NewTopicTenant(existing, tenant, front);
      NewTopicTitles(existing, tenant, front, last.title);
      DistinctLast(existing, Titles(front), last.title);
      assert Titles(defs) == Titles(front) + [last.title];
      var before := NewTopics(existing, tenant, front);
      if last.title !in existing {
        TopicsUniqueLast(before, tenant, Topic(tenant, last.title, last.question, |defs| - 1));
      } else {
        assert NewTopics(existing, tenant, defs) == before;
      }
    }
  }

  lemma {:induction false} TopicsUniqueLast(before: seq<Topic>, tenant: Uuid, row: Topic)
    requires row.tenant == tenant && forall i | 0 <= i < |before| :: before[i].tenant == tenant
    ensures UniqueTitles(before + [row], tenant) <==>
            UniqueTitles(before, tenant) && forall i | 0 <= i < |before| :: before[i].title != row.title
  {
    var after := before + [row];
    assert forall i | 0 <= i < |before| :: after[i] == before[i];
    assert after[|before|] == row;
  }

  lemma {:induction false} DistinctLast(existing: set<string>, front: seq<string>, last: string)
    ensures MissingAreDistinct(existing, front + [last]) <==>
            MissingAreDistinct(existing, front) && (last in existing || last !in front)
  {
    var all := front + [last];
    assert forall i | 0 <= i < |front| :: all[i] == front[i];
    assert all[|front|] == last;
  }

  /**
   * The topics of a tenant without duplicates stay so exactly when no missing title occurs twice in
   * the template: the second pass does not record the titles it adds.
   */
  lemma {:induction false} TopicsStayUniqueIff(t: Tables, tenant: Uuid, tpl: Template)
    requires UniqueTitles(t.topics, tenant)
    ensures UniqueTitles(Apply(t, tenant, tpl).topics, tenant) <==>
            MissingAreDistinct(TitlesOf(t.topics, tenant), Titles(tpl.topics))
  {
    var existing := TitlesOf(t.topics, tenant);
    var added := NewTopics(existing, tenant, tpl.topics);
    ApplyShape(t, tenant, tpl);
    TopicsUniqueIff(existing, tenant, tpl.topics);
    forall i | 0 <= i < |added| ensures added[i].title !in existing {
      NewTopicTitles(existing, tenant, tpl.topics, added[i].title);
    }
    TopicsJoin(t.topics, added, tenant);
  }

  /** Appending topics with new titles keeps uniqueness exactly when they are unique among themselves. */
  lemma {:induction false} TopicsJoin(topics: seq<Topic>, added: seq<Topic>, tenant: Uuid)
    requires UniqueTitles(topics, tenant) && forall i | 0 <= i < |added| :: added[i].title !in TitlesOf(topics, tenant)
    ensures UniqueTitles(topics + added, tenant) <==> UniqueTitles(added, tenant)
  {
    var after, n := topics + added, |topics|;
    if UniqueTitles(after, tenant) {
      forall i, j | 0 <= i < j < |added| && added[i].tenant == tenant && added[j].tenant == tenant
        ensures added[i].title != added[j].title {
        assert after[n + i] == added[i] && after[n + j] == added[j];
      }
    }
  }

  lemma {:induction false} ObjectionsUniqueIff(existing: set<string>, tenant: Uuid, defs: seq<ObjectionDef>,
                                               firstId: Uuid)
    ensures UniqueLabels(NewObjections(existing, tenant, defs, firstId), tenant)
        <==> MissingAreDistinct(existing, Labels(defs))
  {
    if defs != [] {
      var front, last := defs[..|defs| - 1], defs[|defs| - 1];
      ObjectionsUniqueIff(existing, tenant, front, firstId);
      NewObjectionIds(existing, tenant, front, firstId);
      NewObjectionLabels(existing, tenant, front, firstId, last.labelText);
      DistinctLast(existing, Labels(front), last.labelText);
      assert Labels(defs) == Labels(front) + [last.labelText];
      var before := NewObjections(existing, tenant, front, firstId);
      if last.labelText !in existing {
        LabelsUniqueLast(before, tenant, Objection(firstId + |before|, tenant, last.labelText, last.prompt,
            |defs| - 1));
      }
    }
  }

  lemma {:induction false} LabelsUniqueLast(before: seq<Objection>, tenant: Uuid, row: Objection)
    requires row.tenant == tenant && forall i | 0 <= i < |before| :: before[i].tenant == tenant
    ensures UniqueLabels(before + [row], tenant) <==>
            UniqueLabels(before, tenant) && forall i | 0 <= i < |before| :: before[i].labelText != row.labelText
  {
    var after := before + [row];
    assert forall i | 0 <= i < |before| :: after[i] == before[i];
    assert after[|before|] == row;
  }

  /** The same for objections and their labels. */
  lemma {:induction false} ObjectionsStayUniqueIff(t: Tables, tenant: Uuid, tpl: Template)
    requires UniqueLabels(t.objections, tenant)
    ensures UniqueLabels(Apply(t, tenant, tpl).objections, tenant) <==>
            MissingAreDistinct(LabelsOf(t.objections, tenant), Labels(tpl.objections))
  {
    var existing, firstId := LabelsOf(t.objections, tenant), WithSegments(t, tenant, tpl.segments).nextId;
    var added := NewObjections(existing, tenant, tpl.objections, firstId);
    ApplyShape(t, tenant, tpl);
    ObjectionsUniqueIff(existing, tenant, tpl.objections, firstId);
    forall i | 0 <= i < |added| ensures added[i].labelText !in existing {
      NewObjectionLabels(existing, tenant, tpl.objections, firstId, added[i].labelText);
    }
    ObjectionsJoin(t.objections, added, tenant);
  }

  lemma {:induction false} ObjectionsJoin(objections: seq<Objection>, added: seq<Objection>, tenant: Uuid)
    requires UniqueLabels(objections, tenant) && forall i | 0 <= i < |added| ::
        added[i].labelText !in LabelsOf(objections, tenant)
    ensures UniqueLabels(objections + added, tenant) <==> UniqueLabels(added, tenant)
  {
    var after, n := objections + added, |objections|;
    if UniqueLabels(after, tenant) {
      forall i, j | 0 <= i < j < |added| && added[i].tenant == tenant && added[j].tenant == tenant
        ensures added[i].labelText != added[j].labelText
      {
        assert after[n + i] == added[i] && after[n + j] == added[j];
      }
    }
  }

  /** A template that repeated a title the tenant lacks would create it twice; none that ships does. */
  lemma {:induction false} RepeatedTitleIsCreatedTwice(tenant: Uuid, question: string)
    ensures var tpl := Template([], [TopicDef("Pricing", question), TopicDef("Pricing", question)], []);
            Apply(Tables([], [], [], {}, 0), tenant, tpl).topics
              == [Topic(tenant, "Pricing", question, 0), Topic(tenant, "Pricing", question, 1)]
  {
    var d := TopicDef("Pricing", question);
    var tpl, t := Template([], [d, d], []), Tables([], [], [], {}, 0);
    ApplyShape(t, tenant, tpl);
    assert [d, d][..1] == [d] && [d][..0] == [];
    assert TitlesOf([], tenant) == {};
    assert NewTopics({}, tenant, [d]) == [Topic(tenant, "Pricing", question, 0)];
  }

  // ---------- Tags ----------

  /** The segments an objection definition is to be tagged with. */
  function ResolvedSet(byName: map<string, Uuid>, names: seq<string>): set<Uuid> {
    set name | name in names && name in byName :: byName[name]
  }

  lemma {:induction false} ResolvedMembers(byName: map<string, Uuid>, names: seq<string>)
    ensures (set id | id in ResolvedIds(byName, names)) == ResolvedSet(byName, names)
  {
    if names != [] {
      var front, last := names[..|names| - 1], names[|names| - 1];
      ResolvedMembers(byName, front);
      assert names == front + [last];
      assert ResolvedSet(byName, names) == ResolvedSet(byName, front) + if last in byName then {byName[last]} else {};
    }
  }

  /** Position of a definition's objection among the created ones. */
  function CreatedBefore(existing: set<string>, defs: seq<ObjectionDef>, k: nat): nat
    requires k < |defs|
  {
    |Sift(existing, Labels(defs[..k])).created|
  }

  lemma {:induction false} CreatedCount(existing: set<string>, tenant: Uuid, defs: seq<ObjectionDef>, firstId: Uuid)
    ensures |NewObjections(existing, tenant, defs, firstId)| == |Sift(existing, Labels(defs)).created|
  {
    if defs != [] {
      var front := defs[..|defs| - 1];
      CreatedCount(existing, tenant, front, firstId);
      assert Labels(defs)[..|defs| - 1] == Labels(front);
    }
  }

  /** New tags carry only ids handed out in this pass. */
  lemma {:induction false} NewTagIds(existing: set<string>, tenant: Uuid, defs: seq<ObjectionDef>, firstId: Uuid,
                                     byName: map<string, Uuid>)
    ensures forall x <- NewTags(existing, tenant, defs, firstId, byName) ::
              x.tenant == tenant && firstId <= x.objection < firstId + |NewObjections(existing, tenant, defs, firstId)|
  {
    if defs != [] {
      NewTagIds(existing, tenant, defs[..|defs| - 1], firstId, byName);
    }
  }

  lemma {:induction false} TagsOfSum(a: set<ObjectionTag>, b: set<ObjectionTag>, tenant: Uuid, id: Uuid)
    ensures TagsOf(a + b, tenant, id) == TagsOf(a, tenant, id) + TagsOf(b, tenant, id)
  {
  }

  lemma {:induction false} TagsOfFor(tenant: Uuid, objection: Uuid, ids: seq<Uuid>, id: Uuid)
    ensures TagsOf(TagsFor(tenant, objection, ids), tenant, id) == if id == objection
        then TagsFor(tenant, objection, ids) else {}
  {
  }

  lemma {:induction false} NoTagsOf(tags: set<ObjectionTag>, tenant: Uuid, id: Uuid)
    requires forall x <- tags :: x.objection != id
    ensures TagsOf(tags, tenant, id) == {}
  {
  }

  /** The tags of the objection created for the `k`-th definition. */
  lemma {:induction false} TagsOfCreated(existing: set<string>, tenant: Uuid, defs: seq<ObjectionDef>, firstId: Uuid,
                                         byName: map<string, Uuid>, k: nat)
    requires k < |defs| && defs[k].labelText !in existing
    ensures var id := firstId + CreatedBefore(existing, defs, k);
            TagsOf(NewTags(existing, tenant, defs, firstId, byName), tenant, id)
              == TagsFor(tenant, id, ResolvedIds(byName, defs[k].segments))
  {
    var front, last := defs[..|defs| - 1], defs[|defs| - 1];
    var id := firstId + CreatedBefore(existing, defs, k);
    var n := firstId + |NewObjections(existing, tenant, front, firstId)|;
    TagsOfLast(existing, tenant, defs, firstId, byName, id);
    CreatedCount(existing, tenant, front, firstId);
    if k < |defs| - 1 {
      assert front[..k] == defs[..k];
      TagsOfCreated(existing, tenant, front, firstId, byName, k);
      CreatedEarlier(existing, front, k);
    } else {
      NewTagIds(existing, tenant, front, firstId, byName);
      NoTagsOf(NewTags(existing, tenant, front, firstId, byName), tenant, id);
    }
  }

  /** The tags of one objection after one more definition. */
  lemma {:induction false} TagsOfLast(existing: set<string>, tenant: Uuid, defs: seq<ObjectionDef>, firstId: Uuid,
                                      byName: map<string, Uuid>, id: Uuid)
    requires defs != []
    ensures var front, last := defs[..|defs| - 1], defs[|defs| - 1];
            var n := firstId + |NewObjections(existing, tenant, front, firstId)|;
            TagsOf(NewTags(existing, tenant, defs, firstId, byName), tenant, id)
              == TagsOf(NewTags(existing, tenant, front, firstId, byName), tenant, id)
                 + (if id == n && last.labelText !in existing then
                      TagsFor(tenant, n, ResolvedIds(byName, last.segments))
                    else {})
  {
    var front, last := defs[..|defs| - 1], defs[|defs| - 1];
    var n := firstId + |NewObjections(existing, tenant, front, firstId)|;
    var added := if last.labelText in existing then {} else TagsFor(tenant, n, ResolvedIds(byName, last.segments));
    TagsOfSum(NewTags(existing, tenant, front, firstId, byName), added, tenant, id);
    TagsOfFor(tenant, n, ResolvedIds(byName, last.segments), id);
  }

  lemma {:induction false} SiftGrows(existing: set<string>, a: seq<string>, b: seq<string>)
    ensures |Sift(existing, a).created| <= |Sift(existing, a + b).created|
  {
    if b == [] {
      assert a + b == a;
    } else {
      assert (a + b)[..|a + b| - 1] == a + b[..|b| - 1];
      SiftGrows(existing, a, b[..|b| - 1]);
    }
  }

  lemma {:induction false} CreatedEarlier(existing: set<string>, defs: seq<ObjectionDef>, k: nat)
    requires k < |defs| && defs[k].labelText !in existing
    ensures CreatedBefore(existing, defs, k) < |Sift(existing, Labels(defs)).created|
  {
    var all := Labels(defs);
    assert all[..k + 1][..k] == Labels(defs[..k]);
    assert all == all[..k + 1] + all[k + 1..];
    SiftGrows(existing, all[..k + 1], all[k + 1..]);
  }

  /**
   * Each created objection is tagged with exactly the tenant's segments its definition names (each of
   * them exists if the template lists it), and every tag of any other objection stays as it was.
   */
  lemma {:induction false} TagsFollowTemplate(t: Tables, tenant: Uuid, tpl: Template, k: nat)
    requires TagsBelow(t.tags, t.nextId)
    requires k < |tpl.objections| && tpl.objections[k].labelText !in LabelsOf(t.objections, tenant)
    ensures var after, labels := Apply(t, tenant, tpl), LabelsOf(t.objections, tenant);
            var j := CreatedBefore(labels, tpl.objections, k);
            && |t.objections| + j < |after.objections|
            && after.objections[|t.objections| + j].labelText == tpl.objections[k].labelText
            && (set x | x in TagsOf(after.tags, tenant, after.objections[|t.objections| + j].id) :: x.segment)
                 == ResolvedSet(SegmentsByName(after.segments, tenant), tpl.objections[k].segments)
  {
    var after, labels := Apply(t, tenant, tpl), LabelsOf(t.objections, tenant);
    var firstId := WithSegments(t, tenant, tpl.segments).nextId;
    var j := CreatedBefore(labels, tpl.objections, k);
    var id, ids := firstId + j, ResolvedIds(SegmentsByName(after.segments, tenant), tpl.objections[k].segments);
    ApplyShape(t, tenant, tpl);
    CreatedCount(labels, tenant, tpl.objections, firstId);
    CreatedEarlier(labels, tpl.objections, k);
    NewObjectionIds(labels, tenant, tpl.objections, firstId);
    CreatedAt(labels, tenant, tpl.objections, firstId, k);
    TagsOfCreated(labels, tenant, tpl.objections, firstId, SegmentsByName(after.segments, tenant), k);
    var added := NewTags(labels, tenant, tpl.objections, firstId, SegmentsByName(after.segments, tenant));
    TagsOfSum(t.tags, added, tenant, id);
    NoTagsOf(t.tags, tenant, id);
    ResolvedMembers(SegmentsByName(after.segments, tenant), tpl.objections[k].segments);
    SegmentsOfTags(tenant, id, ids);
  }

  lemma {:induction false} SegmentsOfTags(tenant: Uuid, objection: Uuid, ids: seq<Uuid>)
    ensures (set x | x in TagsFor(tenant, objection, ids) :: x.segment) == (set id | id in ids)
  {
    forall id | id in ids ensures id in (set x | x in TagsFor(tenant, objection, ids) :: x.segment) {
      assert ObjectionTag(tenant, objection, id) in TagsFor(tenant, objection, ids);
    }
  }

  lemma {:induction false} CreatedAt(existing: set<string>, tenant: Uuid, defs: seq<ObjectionDef>, firstId: Uuid,
                                     k: nat)
    requires k < |defs| && defs[k].labelText !in existing
    ensures var added, j := NewObjections(existing, tenant, defs, firstId), CreatedBefore(existing, defs, k);
            j < |added| && added[j] == Objection(firstId + j, tenant, defs[k].labelText, defs[k].prompt, k)
  {
    var front := defs[..|defs| - 1];
    CreatedCount(existing, tenant, front, firstId);
    if k < |defs| - 1 {
      assert front[..k] == defs[..k];
      CreatedAt(existing, tenant, front, firstId, k);
    }
  }

  /** Tags of objections that existed before are untouched. */
  lemma {:induction false} OtherTagsStay(t: Tables, tenant: Uuid, tpl: Template, x: ObjectionTag)
    requires x.objection < t.nextId
    ensures x in Apply(t, tenant, tpl).tags <==> x in t.tags
  {
    var firstId := WithSegments(t, tenant, tpl.segments).nextId;
    ApplyShape(t, tenant, tpl);
    NewTagIds(LabelsOf(t.objections, tenant), tenant, tpl.objections, firstId,
              SegmentsByName(Apply(t, tenant, tpl).segments, tenant));
  }

  // ---------- Other tenants ----------

  /** The first pass only appends rows of its tenant. */
  lemma {:induction false} SegmentsAppended(segments: seq<Segment>, tenant: Uuid, names: seq<string>, firstId: Uuid)
    ensures var after := AddSegments(segments, tenant, names, firstId);
            && after[..|segments|] == segments
            && forall i | |segments| <= i < |after| :: after[i].tenant == tenant
  {
    if names != [] {
      SegmentsAppended(segments, tenant, names[..|names| - 1], firstId);
    }
  }

  function SegmentOf(tenant: Uuid): Segment -> bool {
    (row: Segment) => row.tenant == tenant
  }

  function TopicOf(tenant: Uuid): Topic -> bool {
    (row: Topic) => row.tenant == tenant
  }

  function ObjectionOf(tenant: Uuid): Objection -> bool {
    (row: Objection) => row.tenant == tenant
  }

  /** Every row and every tag of another tenant stays as it was, in its place among that tenant's rows. */
  lemma {:induction false} OtherTenantsUnchanged(t: Tables, tenant: Uuid, tpl: Template, other: Uuid)
    requires other != tenant
    ensures var after := Apply(t, tenant, tpl);
            && Where(after.segments, SegmentOf(other)) == Where(t.segments, SegmentOf(other))
            && Where(after.topics, TopicOf(other)) == Where(t.topics, TopicOf(other))
            && Where(after.objections, ObjectionOf(other)) == Where(t.objections, ObjectionOf(other))
            && (set x | x in after.tags && x.tenant == other) == (set x | x in t.tags && x.tenant == other)
  {
    var firstId := WithSegments(t, tenant, tpl.segments).nextId;
    var labels := LabelsOf(t.objections, tenant);
    ApplyShape(t, tenant, tpl);
    SegmentsOfOthersStay(t.segments, tenant, tpl.segments, t.nextId, other);
    NewTopicTenant(TitlesOf(t.topics, tenant), tenant, tpl.topics);
    WhereAppendNone(t.topics, NewTopics(TitlesOf(t.topics, tenant), tenant, tpl.topics), TopicOf(other));
    NewObjectionIds(labels, tenant, tpl.objections, firstId);
    WhereAppendNone(t.objections, NewObjections(labels, tenant, tpl.objections, firstId), ObjectionOf(other));
    NewTagIds(labels, tenant, tpl.objections, firstId, SegmentsByName(Apply(t, tenant, tpl).segments, tenant));
  }

  lemma {:induction false} SegmentsOfOthersStay(segments: seq<Segment>, tenant: Uuid, names: seq<string>, firstId: Uuid,
                                                other: Uuid)
    requires other != tenant
    ensures Where(AddSegments(segments, tenant, names, firstId), SegmentOf(other)) == Where(segments, SegmentOf(other))
  {
    var after := AddSegments(segments, tenant, names, firstId);
    SegmentsAppended(segments, tenant, names, firstId);
    assert after == segments + after[|segments|..];
    WhereAppendNone(segments, after[|segments|..], SegmentOf(other));
  }

  // ---------- The report ----------

  /** Each entry is reported exactly once: created when missing, skipped when it exists. */
  lemma {:induction false} SiftPartitions(existing: set<string>, names: seq<string>)
    ensures var b := Sift(existing, names);
            && multiset(b.created) + multiset(b.skipped) == multiset(names)
            && (forall name <- b.created :: name !in existing)
            && (forall name <- b.skipped :: name in existing)
  {
    if names != [] {
      SiftPartitions(existing, names[..|names| - 1]);
      assert names == names[..|names| - 1] + [names[|names| - 1]];
    }
  }

  /** For segments, a name is created exactly when the template lists it and the tenant lacked it. */
  lemma {:induction false} SegmentCreatedIff(segments: seq<Segment>, tenant: Uuid, names: seq<string>, firstId: Uuid,
                                             name: string)
    ensures name in SiftSegments(segments, tenant, names, firstId).created
       <==> name in names && name !in SegmentsByName(segments, tenant)
  {
    if names != [] {
      var front, last := names[..|names| - 1], names[|names| - 1];
      SegmentCreatedIff(segments, tenant, front, firstId, name);
      SegmentNames(segments, tenant, front, firstId);
      assert names == front + [last];
    }
  }

  /** And it is created once, however often the template lists it. */
  lemma {:induction false} SegmentCreatedOnce(segments: seq<Segment>, tenant: Uuid, names: seq<string>, firstId: Uuid)
    ensures NoRepeats(SiftSegments(segments, tenant, names, firstId).created)
  {
    if names != [] {
      var front, last := names[..|names| - 1], names[|names| - 1];
      SegmentCreatedOnce(segments, tenant, front, firstId);
      SegmentCreatedIff(segments, tenant, front, firstId, last);
      SegmentNames(segments, tenant, front, firstId);
    }
  }

  /** Each segment entry is reported exactly once. */
  lemma {:induction false} SegmentsReported(segments: seq<Segment>, tenant: Uuid, names: seq<string>, firstId: Uuid)
    ensures var b := SiftSegments(segments, tenant, names, firstId);
            multiset(b.created) + multiset(b.skipped) == multiset(names)
  {
    if names != [] {
      SegmentsReported(segments, tenant, names[..|names| - 1], firstId);
      assert names == names[..|names| - 1] + [names[|names| - 1]];
    }
  }

  /** After some names, the tenant has its old names and these. */
  lemma {:induction false} SegmentNames(segments: seq<Segment>, tenant: Uuid, names: seq<string>, firstId: Uuid)
    ensures SegmentsByName(AddSegments(segments, tenant, names, firstId), tenant).Keys
         == SegmentsByName(segments, tenant).Keys + (set name | name in names)
  {
    if names != [] {
      var front, name := names[..|names| - 1], names[|names| - 1];
      SegmentNames(segments, tenant, front, firstId);
      assert names == front + [name];
      var before := AddSegments(segments, tenant, front, firstId);
      ByNameAppend(before, Segment(firstId + (|before| - |segments|), tenant, name, |names| - 1), tenant);
    }
  }

  // ---------- The rows that are written ----------

  /** A topic of the tenant has the title already. */
  predicate TopicExists(t: Tables, tenant: Uuid, title: string) {
    exists x <- t.topics :: x.tenant == tenant && x.title == title
  }

  /** The `k`-th topic definition becomes this row. */
  predicate IsTopicRow(defs: seq<TopicDef>, tenant: Uuid, x: Topic, k: int) {
    0 <= k < |defs| && x == Topic(tenant, defs[k].title, defs[k].question, k)
  }

  /** The topic rows added are those of the definitions whose title the tenant lacked, at their positions. */
  lemma {:induction false} TopicRows(t: Tables, tenant: Uuid, tpl: Template, x: Topic)
    ensures t.topics <= Apply(t, tenant, tpl).topics
    ensures var after := Apply(t, tenant, tpl);
            var added := after.topics[|t.topics|..];
            (x in added <==> !TopicExists(t, tenant, x.title) && exists k :: IsTopicRow(tpl.topics, tenant, x, k))
  {
    var existing := TitlesOf(t.topics, tenant);
    ApplyShape(t, tenant, tpl);
    AddedTopic(existing, tenant, tpl.topics, x);
    assert x.title in existing <==> TopicExists(t, tenant, x.title) by {
      if x.title in existing {
        var i :| 0 <= i < |t.topics| && t.topics[i].tenant == tenant && t.topics[i].title == x.title;
        assert t.topics[i] in t.topics;
      }
    }
  }

  lemma {:induction false} AddedTopic(existing: set<string>, tenant: Uuid, defs: seq<TopicDef>, x: Topic)
    ensures x in NewTopics(existing, tenant, defs)
       <==> x.title !in existing && exists k :: IsTopicRow(defs, tenant, x, k)
  {
    if defs != [] {
      var n := |defs| - 1;
      var front := defs[..n];
      AddedTopic(existing, tenant, front, x);
      if exists k :: IsTopicRow(front, tenant, x, k) {
        var k :| IsTopicRow(front, tenant, x, k);
        assert IsTopicRow(defs, tenant, x, k);
      }
      if exists k :: IsTopicRow(defs, tenant, x, k) {
        var k :| IsTopicRow(defs, tenant, x, k);
        assert k < n ==> IsTopicRow(front, tenant, x, k);
      }
      var last := Topic(tenant, defs[n].title, defs[n].question, n);
      assert IsTopicRow(defs, tenant, last, n);
    }
  }

  predicate ObjectionExists(t: Tables, tenant: Uuid, name: string) {
    exists x <- t.objections :: x.tenant == tenant && x.labelText == name
  }

  /** The `k`-th objection definition becomes this row, under whatever id. */
  predicate IsObjectionRow(tpl: Template, tenant: Uuid, x: Objection, k: int) {
    && 0 <= k < |tpl.objections|
    && x == Objection(x.id, tenant, tpl.objections[k].labelText, tpl.objections[k].prompt, k)
  }

  /** The objection rows added are those of the definitions whose label the tenant lacked, at their positions. */
  lemma {:induction false} ObjectionRows(t: Tables, tenant: Uuid, tpl: Template)
    ensures var after := Apply(t, tenant, tpl);
            && t.objections <= after.objections
            && (forall x <- after.objections[|t.objections|..] ::
                  exists k :: IsObjectionRow(tpl, tenant, x, k) && !ObjectionExists(t, tenant, x.labelText))
            && (forall k | 0 <= k < |tpl.objections| && !ObjectionExists(t, tenant, tpl.objections[k].labelText) ::
                  exists x <- after.objections[|t.objections|..] :: IsObjectionRow(tpl, tenant, x, k))
  {
    var existing, firstId := LabelsOf(t.objections, tenant), WithSegments(t, tenant, tpl.segments).nextId;
    var after := Apply(t, tenant, tpl);
    ApplyShape(t, tenant, tpl);
    forall name ensures name in existing <==> ObjectionExists(t, tenant, name) {
      if name in existing {
        var i :| 0 <= i < |t.objections| && t.objections[i].tenant == tenant && t.objections[i].labelText == name;
        assert t.objections[i] in t.objections;
      }
    }
    forall x | x in after.objections[|t.objections|..]
      ensures exists k :: IsObjectionRow(tpl, tenant, x, k) && !ObjectionExists(t, tenant, x.labelText)
    {
      var k := AddedObjection(existing, tenant, tpl.objections, firstId, x);
      assert IsObjectionRow(tpl, tenant, x, k);
    }
    forall k | 0 <= k < |tpl.objections| && !ObjectionExists(t, tenant, tpl.objections[k].labelText)
      ensures exists x <- after.objections[|t.objections|..] :: IsObjectionRow(tpl, tenant, x, k)
    {
      CreatedAt(existing, tenant, tpl.objections, firstId, k);
      var j := CreatedBefore(existing, tpl.objections, k);
      var x := NewObjections(existing, tenant, tpl.objections, firstId)[j];
      assert x in after.objections[|t.objections|..] && IsObjectionRow(tpl, tenant, x, k);
    }
  }

  lemma {:induction false} AddedObjection(existing: set<string>, tenant: Uuid, defs: seq<ObjectionDef>, firstId: Uuid,
                                          x: Objection) returns (k: int)
    requires x in NewObjections(existing, tenant, defs, firstId)
    ensures 0 <= k < |defs| && defs[k].labelText !in existing
    ensures x == Objection(x.id, tenant, defs[k].labelText, defs[k].prompt, k)
  {
    var n := |defs| - 1;
    if x in NewObjections(existing, tenant, defs[..n], firstId) {
      k := AddedObjection(existing, tenant, defs[..n], firstId, x);
    } else {
      k := n;
    }
  }

  /** A segment of the tenant has the name already. */
  predicate SegmentExists(segments: seq<Segment>, tenant: Uuid, name: string) {
    exists x <- segments :: x.tenant == tenant && x.name == name
  }

  /** The name stands at this position of the list, and nowhere before it. */
  predicate FirstAt(names: seq<string>, name: string, k: int) {
    0 <= k < |names| && names[k] == name && forall j | 0 <= j < k :: names[j] != name
  }

  /** The segment rows added are the names the tenant lacked, each once, at its first position in the list. */
  lemma {:induction false} SegmentRows(segments: seq<Segment>, tenant: Uuid, names: seq<string>, firstId: Uuid,
                                       name: string, k: int)
    requires FirstAt(names, name, k)
    ensures var after := AddSegments(segments, tenant, names, firstId);
            && segments <= after
            && (SegmentExists(segments, tenant, name) ==> forall x <- after[|segments|..] :: x.name != name)
            && (!SegmentExists(segments, tenant, name) ==>
                  exists x <- after[|segments|..] :: x == Segment(x.id, tenant, name, k))
  {
    SegmentsAppended(segments, tenant, names, firstId);
    NamesByExistence(segments, tenant, name);
    if SegmentExists(segments, tenant, name) {
      NoneAdded(segments, tenant, names, firstId, name);
    } else {
      AddedFirst(segments, tenant, names, firstId, name, k);
    }
  }

  lemma {:induction false} NamesByExistence(segments: seq<Segment>, tenant: Uuid, name: string)
    ensures name in SegmentsByName(segments, tenant) <==> SegmentExists(segments, tenant, name)
  {
    if segments != [] {
      var front, last := segments[..|segments| - 1], segments[|segments| - 1];
      NamesByExistence(front, tenant, name);
      assert segments == front + [last];
    }
  }

  lemma {:induction false} NoneAdded(segments: seq<Segment>, tenant: Uuid, names: seq<string>, firstId: Uuid,
                                     name: string)
    requires name in SegmentsByName(segments, tenant)
    ensures var after := AddSegments(segments, tenant, names, firstId);
            && name in SegmentsByName(after, tenant)
            && forall i | |segments| <= i < |after| :: after[i].name != name
  {
    if names != [] {
      var front := names[..|names| - 1];
      NoneAdded(segments, tenant, front, firstId, name);
      SegmentsAppended(segments, tenant, front, firstId);
      NamesByExistence(AddSegments(segments, tenant, front, firstId), tenant, name);
      NamesByExistence(AddSegments(segments, tenant, names, firstId), tenant, name);
      SegmentsExist(segments, tenant, names, firstId);
    }
  }

  lemma {:induction false} AddedFirst(segments: seq<Segment>, tenant: Uuid, names: seq<string>, firstId: Uuid,
                                      name: string, k: int)
    requires FirstAt(names, name, k) && name !in SegmentsByName(segments, tenant)
    ensures var after := AddSegments(segments, tenant, names, firstId);
            exists i :: |segments| <= i < |after| && after[i] == Segment(after[i].id, tenant, name, k)
  {
    var n := |names| - 1;
    var before := AddSegments(segments, tenant, names[..n], firstId);
    if k < n {
      assert FirstAt(names[..n], name, k);
      AddedFirst(segments, tenant, names[..n], firstId, name, k);
      var i :| |segments| <= i < |before| && before[i] == Segment(before[i].id, tenant, name, k);
      assert AddSegments(segments, tenant, names, firstId)[i] == before[i];
    } else {
      NotYet(segments, tenant, names[..n], firstId, name);
      assert AddSegments(segments, tenant, names, firstId)[|before|].order == k;
    }
  }

  lemma {:induction false} NotYet(segments: seq<Segment>, tenant: Uuid, names: seq<string>, firstId: Uuid, name: string)
    requires name !in names && name !in SegmentsByName(segments, tenant)
    ensures name !in SegmentsByName(AddSegments(segments, tenant, names, firstId), tenant)
  {
    if names != [] {
      var n := |names| - 1;
      NotYet(segments, tenant, names[..n], firstId, name);
      var before := AddSegments(segments, tenant, names[..n], firstId);
      NamesByExistence(before, tenant, name);
      NamesByExistence(AddSegments(segments, tenant, names, firstId), tenant, name);
    }
  }
}
