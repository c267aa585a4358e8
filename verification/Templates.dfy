/**
 * Applying a starter template to a tenant (backend/app/services/template_service.py): segments, ramp
 * topics and tagged objections are created unless one of that name already exists.
 */
module Templates {
  import opened Segments
  import opened Sequences
  import opened Wrappers

  datatype Topic = Topic(tenant: Uuid, title: string, question: string, order: nat)
  datatype Objection = Objection(id: Uuid, tenant: Uuid, labelText: string, prompt: string, order: nat)

  datatype TopicDef = TopicDef(title: string, question: string)
  datatype ObjectionDef = ObjectionDef(labelText: string, prompt: string, segments: seq<string>)
  datatype Template = Template(segments: seq<string>, topics: seq<TopicDef>, objections: seq<ObjectionDef>)

  /** The tables; rows get ids from `nextId` upwards. */
  datatype Tables = Tables(segments: seq<Segment>, topics: seq<Topic>, objections: seq<Objection>,
                           tags: set<ObjectionTag>, nextId: Uuid)

  datatype Bucket = Bucket(created: seq<string>, skipped: seq<string>)
  datatype Report = Report(segments: Bucket, topics: Bucket, objections: Bucket)

  const EMPTY_BUCKET := Bucket([], [])

  // ---------- What exists ----------

  /** The dictionary of the tenant's segments by name. */
  function SegmentsByName(segments: seq<Segment>, tenant: Uuid): map<string, Uuid> {
    if segments == [] then map[]
    else
      var before, last := SegmentsByName(segments[..|segments| - 1], tenant), segments[|segments| - 1];
      if last.tenant == tenant then before[last.name := last.id] else before
  }

  function TitlesOf(topics: seq<Topic>, tenant: Uuid): set<string> {
    set i | 0 <= i < |topics| && topics[i].tenant == tenant :: topics[i].title
  }

  function LabelsOf(objections: seq<Objection>, tenant: Uuid): set<string> {
    set i | 0 <= i < |objections| && objections[i].tenant == tenant :: objections[i].labelText
  }

  // ---------- The three passes ----------

  /** One name: a segment is added when the tenant has none of that name yet. */
  function AddSegment(segments: seq<Segment>, tenant: Uuid, name: string, order: nat, id: Uuid): seq<Segment> {
    if name in SegmentsByName(segments, tenant) then segments else segments + [Segment(id, tenant, name, order)]
  }

  /** The segment table after the pass over the names. */
  function AddSegments(segments: seq<Segment>, tenant: Uuid, names: seq<string>, firstId: Uuid): (r: seq<Segment>)
    ensures |segments| <= |r|
  {
    if names == [] then segments
    else
      var before := AddSegments(segments, tenant, names[..|names| - 1], firstId);
      AddSegment(before, tenant, names[|names| - 1], |names| - 1, firstId + (|before| - |segments|))
  }

  /** The topics added: those whose title did not exist before the pass. */
  function NewTopics(existing: set<string>, tenant: Uuid, defs: seq<TopicDef>): seq<Topic> {
    if defs == [] then []
    else
      var last := defs[|defs| - 1];
      NewTopics(existing, tenant, defs[..|defs| - 1])
        + if last.title in existing then [] else [Topic(tenant, last.title, last.question, |defs| - 1)]
  }

  /** The objections added, with consecutive ids. */
  function NewObjections(existing: set<string>, tenant: Uuid, defs: seq<ObjectionDef>, firstId: Uuid): seq<Objection> {
    if defs == [] then []
    else
      var before, last := NewObjections(existing, tenant, defs[..|defs| - 1], firstId), defs[|defs| - 1];
      if last.labelText in existing then before
      else before + [Objection(firstId + |before|, tenant, last.labelText, last.prompt, |defs| - 1)]
  }

  /** The ids of the named segments that exist. */
  function ResolvedIds(byName: map<string, Uuid>, names: seq<string>): seq<Uuid> {
    if names == [] then []
    else
      var last := names[|names| - 1];
      ResolvedIds(byName, names[..|names| - 1]) + if last in byName then [byName[last]] else []
  }

  /** The tags added along with the objections. */
  function NewTags(existing: set<string>, tenant: Uuid, defs: seq<ObjectionDef>, firstId: Uuid,
                   byName: map<string, Uuid>): set<ObjectionTag> {
    if defs == [] then {}
    else
      var front, last := defs[..|defs| - 1], defs[|defs| - 1];
      NewTags(existing, tenant, front, firstId, byName)
        + if last.labelText in existing then {}
          else TagsFor(tenant, firstId + |NewObjections(existing, tenant, front, firstId)|,
              ResolvedIds(byName, last.segments))
  }

  /** One definition of the third pass. */
  function AddObjection(t: Tables, tenant: Uuid, existing: set<string>, byName: map<string, Uuid>, d: ObjectionDef,
                        order: nat): Tables {
    if d.labelText in existing then t
    else
      t.(objections := t.objections + [Objection(t.nextId, tenant, d.labelText, d.prompt, order)],
         tags := t.tags + TagsFor(tenant, t.nextId, ResolvedIds(byName, d.segments)),
         nextId := t.nextId + 1)
  }

  /** The third pass, definition by definition. */
  function AddObjections(t: Tables, tenant: Uuid, existing: set<string>, byName: map<string, Uuid>,
                         defs: seq<ObjectionDef>): Tables {
    if defs == [] then t
    else
      AddObjection(AddObjections(t, tenant, existing, byName, defs[..|defs| - 1]), tenant, existing, byName,
                   defs[|defs| - 1], |defs| - 1)
  }

  function WithSegments(t: Tables, tenant: Uuid, names: seq<string>): Tables {
    var segments := AddSegments(t.segments, tenant, names, t.nextId);
    t.(segments := segments, nextId := t.nextId + (|segments| - |t.segments|))
  }

  function WithTopics(t: Tables, tenant: Uuid, defs: seq<TopicDef>): Tables {
    t.(topics := t.topics + NewTopics(TitlesOf(t.topics, tenant), tenant, defs))
  }

  function WithObjections(t: Tables, tenant: Uuid, defs: seq<ObjectionDef>): Tables {
    AddObjections(t, tenant, LabelsOf(t.objections, tenant), SegmentsByName(t.segments, tenant), defs)
  }

  /** The tables after `apply_template`. */
  function Apply(t: Tables, tenant: Uuid, tpl: Template): Tables {
    WithObjections(WithTopics(WithSegments(t, tenant, tpl.segments), tenant, tpl.topics), tenant, tpl.objections)
  }

  // ---------- The report ----------

  /** Names not among `existing`, in order: created; the others: skipped. */
  function Sift(existing: set<string>, names: seq<string>): Bucket {
    if names == [] then EMPTY_BUCKET
    else
      var before, last := Sift(existing, names[..|names| - 1]), names[|names| - 1];
      if last in existing then before.(skipped := before.skipped + [last])
          else before.(created := before.created + [last])
  }

  /** The same for segments, where a name counts as existing as soon as it was created. */
  function SiftSegments(segments: seq<Segment>, tenant: Uuid, names: seq<string>, firstId: Uuid): Bucket {
    if names == [] then EMPTY_BUCKET
    else
      var front, last := names[..|names| - 1], names[|names| - 1];
      var before := SiftSegments(segments, tenant, front, firstId);
      if last in SegmentsByName(AddSegments(segments, tenant, front, firstId), tenant)
      then before.(skipped := before.skipped + [last]) else before.(created := before.created + [last])
  }

  function Titles(defs: seq<TopicDef>): (r: seq<string>)
    ensures |r| == |defs| && forall i | 0 <= i < |r| :: r[i] == defs[i].title
  {
    seq(|defs|, i requires 0 <= i < |defs| => defs[i].title)
  }

  function Labels(defs: seq<ObjectionDef>): (r: seq<string>)
    ensures |r| == |defs| && forall i | 0 <= i < |r| :: r[i] == defs[i].labelText
  {
    seq(|defs|, i requires 0 <= i < |defs| => defs[i].labelText)
  }

  function Reported(t: Tables, tenant: Uuid, tpl: Template): Report {
    Report(SiftSegments(t.segments, tenant, tpl.segments, t.nextId),
           Sift(TitlesOf(t.topics, tenant), Titles(tpl.topics)),
           Sift(LabelsOf(t.objections, tenant), Labels(tpl.objections)))
  }

  // ---------- The service ----------

  /** The tables, changed in place. */
  class TemplateService {
    var segments: seq<Segment>
    var topics: seq<Topic>
    var objections: seq<Objection>
    var tags: set<ObjectionTag>
    var nextId: Uuid

    function State(): Tables
      reads this
    {
      Tables(segments, topics, objections, tags, nextId)
    }

    /** The first pass. */
    method CreateSegments(tenant: Uuid, names: seq<string>) returns (bucket: Bucket, byName: map<string, Uuid>)
      modifies `segments, `nextId
      ensures State() == WithSegments(old(State()), tenant, names)
      ensures bucket == SiftSegments(old(segments), tenant, names, old(nextId))
      ensures byName == SegmentsByName(segments, tenant)
    {
      bucket, byName := EMPTY_BUCKET, SegmentsByName(segments, tenant);
      for order := 0 to |names|
        invariant segments == AddSegments(old(segments), tenant, names[..order], old(nextId))
        invariant nextId == old(nextId) + (|segments| - |old(segments)|)
        invariant bucket == SiftSegments(old(segments), tenant, names[..order], old(nextId))
        invariant byName == SegmentsByName(segments, tenant)
      {
        SegmentPassStep(old(segments), tenant, names, old(nextId), order);
        bucket, byName := CreateSegment(tenant, names[order], order, bucket, byName);
      }
      assert names[..|names|] == names;
    }

    /** One name of the first pass. */
    method CreateSegment(tenant: Uuid, name: string, order: nat, bucket0: Bucket, byName0: map<string, Uuid>)
      returns (bucket: Bucket, byName: map<string, Uuid>)
      requires byName0 == SegmentsByName(segments, tenant)
      modifies `segments, `nextId
      ensures byName == SegmentsByName(segments, tenant)
      ensures segments == AddSegment(old(segments), tenant, name, order, old(nextId))
      ensures nextId == old(nextId) + (|segments| - |old(segments)|)
      ensures bucket == if name in byName0 then bucket0.(skipped := bucket0.skipped + [name])
                        else bucket0.(created := bucket0.created + [name])
    {
      bucket, byName := bucket0, byName0;
      if name in byName {
        bucket := bucket.(skipped := bucket.skipped + [name]);
        return;
      }
      var row := Segment(nextId, tenant, name, order);
      ByNameAppend(segments, row, tenant);
      segments, nextId := segments + [row], nextId + 1;
      byName := byName[name := row.id];
      bucket := bucket.(created := bucket.created + [name]);
    }

    /** The second pass. */
    method CreateTopics(tenant: Uuid, defs: seq<TopicDef>) returns (bucket: Bucket)
      modifies `topics
      ensures State() == WithTopics(old(State()), tenant, defs)
      ensures bucket == Sift(TitlesOf(old(topics), tenant), Titles(defs))
    {
      var existingTitles := TitlesOf(topics, tenant);
      bucket := EMPTY_BUCKET;
      for order := 0 to |defs|
        invariant topics == old(topics) + NewTopics(existingTitles, tenant, defs[..order])
        invariant bucket == Sift(existingTitles, Titles(defs[..order]))
      {
        var d := defs[order];
        assert defs[..order + 1][..order] == defs[..order];
        assert Titles(defs[..order + 1])[..order] == Titles(defs[..order]);
        if d.title in existingTitles {
          bucket := bucket.(skipped := bucket.skipped + [d.title]);
          continue;
        }
        topics := topics + [Topic(tenant, d.title, d.question, order)];
        bucket := bucket.(created := bucket.created + [d.title]);
      }
      assert defs[..|defs|] == defs;
    }

    /** The third pass. */
    method CreateObjections(tenant: Uuid, defs: seq<ObjectionDef>, byName: map<string, Uuid>) returns (bucket: Bucket)
      requires byName == SegmentsByName(segments, tenant) && TagsBelow(tags, nextId)
      modifies `objections, `tags, `nextId
      ensures State() == WithObjections(old(State()), tenant, defs)
      ensures bucket == Sift(LabelsOf(old(objections), tenant), Labels(defs))
    {
      var existingLabels := LabelsOf(objections, tenant);
      bucket := EMPTY_BUCKET;
      for order := 0 to |defs|
        invariant State() == AddObjections(old(State()), tenant, existingLabels, byName, defs[..order])
        invariant TagsBelow(tags, nextId)
        invariant bucket == Sift(existingLabels, Labels(defs[..order]))
      {
        var obj := defs[order];
        assert defs[..order + 1][..order] == defs[..order];
        assert Labels(defs[..order + 1])[..order] == Labels(defs[..order]);
        if obj.labelText in existingLabels {
          bucket := bucket.(skipped := bucket.skipped + [obj.labelText]);
          continue;
        }
        CreateObjection(tenant, existingLabels, obj, order, byName);
        bucket := bucket.(created := bucket.created + [obj.labelText]);
      }
      assert defs[..|defs|] == defs;
    }

    /** One objection and its tags; its id is fresh, so there are no tags to replace. */
    method CreateObjection(tenant: Uuid, ghost existing: set<string>, obj: ObjectionDef, order: nat, byName: map<string,
                           Uuid>)
      requires byName == SegmentsByName(segments, tenant) && TagsBelow(tags, nextId) && obj.labelText !in existing
      modifies `objections, `tags, `nextId
      ensures State() == AddObjection(old(State()), tenant, existing, byName, obj, order)
      ensures TagsBelow(tags, nextId)
    {
      var row := Objection(nextId, tenant, obj.labelText, obj.prompt, order);
      objections, nextId := objections + [row], nextId + 1;
      var ids := ResolvedIds(byName, obj.segments);
      ResolvedAreTenants(segments, tenant, obj.segments);
      if ids != [] {
        var r, tags' := ReplaceObjectionSegments(segments, tags, tenant, row.id, ids);
        assert TagsOf(tags, tenant, row.id) == {};
        tags := tags';
      }
    }

    /** `apply_template`, once the template was found. */
    method ApplyTemplate(tenant: Uuid, tpl: Template) returns (report: Report)
      requires TagsBelow(tags, nextId)
      modifies this
      ensures State() == Apply(old(State()), tenant, tpl)
      ensures report == Reported(old(State()), tenant, tpl)
    {
      var segmentBucket, byName := CreateSegments(tenant, tpl.segments);
      var topicBucket := CreateTopics(tenant, tpl.topics);
      var objectionBucket := CreateObjections(tenant, tpl.objections, byName);
      report := Report(segmentBucket, topicBucket, objectionBucket);
    }
  }

  /** No tag names an objection that is still to be created. */
  predicate TagsBelow(tags: set<ObjectionTag>, n: Uuid) {
    forall x <- tags :: x.objection < n
  }

  /** The third pass in closed form. */
  lemma {:induction false} AddObjectionsShape(t: Tables, tenant: Uuid, existing: set<string>, byName: map<string, Uuid>,
                                              defs: seq<ObjectionDef>)
    ensures AddObjections(t, tenant, existing, byName, defs)
         == t.(objections := t.objections + NewObjections(existing, tenant, defs, t.nextId),
               tags := t.tags + NewTags(existing, tenant, defs, t.nextId, byName),
               nextId := t.nextId + |NewObjections(existing, tenant, defs, t.nextId)|)
  {
    if defs != [] {
      var front, d := defs[..|defs| - 1], defs[|defs| - 1];
      var added, tagged := NewObjections(existing, tenant, front, t.nextId),
          NewTags(existing, tenant, front, t.nextId, byName);
      var id := t.nextId + |added|;
      AddObjectionsShape(t, tenant, existing, byName, front);
      if d.labelText !in existing {
        Associate(t.objections, added, [Objection(id, tenant, d.labelText, d.prompt, |defs| - 1)]);
        UnionAssociates(t.tags, tagged, TagsFor(tenant, id, ResolvedIds(byName, d.segments)));
      } else {
        UnionAssociates(t.tags, tagged, {});
      }
    }
  }

  lemma {:induction false} UnionAssociates<T>(a: set<T>, b: set<T>, c: set<T>)
    ensures a + b + c == a + (b + c)
  {
  }

  /** What one more name does in the first pass. */
  lemma {:induction false} SegmentPassStep(segments: seq<Segment>, tenant: Uuid, names: seq<string>, firstId: Uuid,
                                           i: nat)
    requires i < |names|
    ensures var before, name := AddSegments(segments, tenant, names[..i], firstId), names[i];
            var bucket := SiftSegments(segments, tenant, names[..i], firstId);
            && AddSegments(segments, tenant, names[..i + 1], firstId)
                 == AddSegment(before, tenant, name, i, firstId + (|before| - |segments|))
            && SiftSegments(segments, tenant, names[..i + 1], firstId)
                 == (if name in SegmentsByName(before, tenant) then
                       bucket.(skipped := bucket.skipped + [name])
                     else bucket.(created := bucket.created + [name]))
  {
    assert names[..i + 1][..i] == names[..i];
  }

  lemma {:induction false} ByNameAppend(segments: seq<Segment>, row: Segment, tenant: Uuid)
    ensures SegmentsByName(segments + [row], tenant)
         == if row.tenant == tenant then SegmentsByName(segments, tenant)[row.name := row.id]
             else SegmentsByName(segments, tenant)
  {
    assert (segments + [row])[..|segments|] == segments;
  }

  lemma {:induction false} ByNameMembers(segments: seq<Segment>, tenant: Uuid, name: string)
    ensures name in SegmentsByName(segments, tenant) <==>
            exists i :: 0 <= i < |segments| && segments[i].tenant == tenant && segments[i].name == name
    ensures name in SegmentsByName(segments, tenant) ==>
            exists i :: 0 <= i < |segments| && segments[i].tenant == tenant && segments[i].name == name
                        && segments[i].id == SegmentsByName(segments, tenant)[name]
  {
    if segments != [] {
      var n := |segments| - 1;
      ByNameMembers(segments[..n], tenant, name);
      if segments[n].tenant == tenant && segments[n].name == name {
        assert segments[n].id == SegmentsByName(segments, tenant)[name];
      }
    }
  }

  /** Resolved ids are segments of the tenant, so tagging with them is never refused. */
  lemma {:induction false} ResolvedAreTenants(segments: seq<Segment>, tenant: Uuid, names: seq<string>)
    ensures forall id <- ResolvedIds(SegmentsByName(segments, tenant), names) :: id in SegmentIdsOf(segments, tenant)
  {
    if names != [] {
      ResolvedAreTenants(segments, tenant, names[..|names| - 1]);
      ByNameMembers(segments, tenant, names[|names| - 1]);
    }
  }
}
