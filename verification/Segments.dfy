/**
 * Segment tagging (backend/app/services/segment_service.py): ids are checked against the tenant's
 * segments before the tags of an objection are replaced.
 */
module Segments {
  import opened Wrappers
  import opened Select
  import opened Sequences

  datatype Segment = Segment(id: Uuid, tenant: Uuid, name: string, order: nat)
  datatype ObjectionTag = ObjectionTag(tenant: Uuid, objection: Uuid, segment: Uuid)

  /** The ids of a tenant's segments. */
  function SegmentIdsOf(segments: seq<Segment>, tenant: Uuid): set<Uuid> {
    set i | 0 <= i < |segments| && segments[i].tenant == tenant :: segments[i].id
  }

  function Missing(ids: seq<Uuid>, found: set<Uuid>): seq<Uuid> {
    if ids == [] then []
    else Missing(ids[..|ids| - 1], found) + if ids[|ids| - 1] in found then [] else [ids[|ids| - 1]]
  }

  /** `validate_segment_ids`: the ids without repetitions, or those that are not the tenant's. */
  function ValidateSegmentIds(segments: seq<Segment>, tenant: Uuid, ids: seq<Uuid>): Result<seq<Uuid>, seq<Uuid>> {
    var wanted := Dedup(ids);
    var missing := Missing(wanted, SegmentIdsOf(segments, tenant));
    if missing == [] then Success(wanted) else Failure(missing)
  }

  lemma {:induction false} MissingMembers(ids: seq<Uuid>, found: set<Uuid>, id: Uuid)
    ensures id in Missing(ids, found) <==> id in ids && id !in found
  {
    if ids != [] {
      MissingMembers(ids[..|ids| - 1], found, id);
      assert ids == ids[..|ids| - 1] + [ids[|ids| - 1]];
    }
  }

  /**
   * Validation succeeds exactly when every id is a segment of the tenant. It then returns the same ids
   * without repetitions; otherwise it names exactly the foreign ones.
   */
  lemma {:induction false} ValidationMeaning(segments: seq<Segment>, tenant: Uuid, ids: seq<Uuid>)
    ensures var r := ValidateSegmentIds(segments, tenant, ids);
            && (r.Success? <==> forall id <- ids :: id in SegmentIdsOf(segments, tenant))
            && (r.Success? ==> NoRepeats(r.value) && forall id :: id in r.value <==> id in ids)
            && (r.Failure? ==> forall id :: id in r.error <==> id in ids && id !in SegmentIdsOf(segments, tenant))
  {
    var found := SegmentIdsOf(segments, tenant);
    DedupMembers(ids);
    forall id ensures id in Missing(Dedup(ids), found) <==> id in ids && id !in found {
      MissingMembers(Dedup(ids), found, id);
    }
    var missing := Missing(Dedup(ids), found);
    if missing != [] {
      assert missing[0] in missing;
    }
  }

  /** The tags of one objection. */
  function TagsOf(tags: set<ObjectionTag>, tenant: Uuid, objection: Uuid): set<ObjectionTag> {
    set t | t in tags && t.tenant == tenant && t.objection == objection
  }

  function TagsFor(tenant: Uuid, objection: Uuid, ids: seq<Uuid>): set<ObjectionTag> {
    set id | id in ids :: ObjectionTag(tenant, objection, id)
  }

  /**
   * `replace_objection_segments`: the objection ends up with exactly the given segments and no other
   * tag changes; foreign segments are refused and then nothing changes.
   */
  method ReplaceObjectionSegments(segments: seq<Segment>, tags0: set<ObjectionTag>, tenant: Uuid, objection: Uuid,
                                  ids: seq<Uuid>)
    returns (r: Result<seq<Uuid>, seq<Uuid>>, tags: set<ObjectionTag>)
    ensures r == ValidateSegmentIds(segments, tenant, ids)
    ensures r.Failure? ==> tags == tags0
    ensures r.Success? ==> tags == tags0 - TagsOf(tags0, tenant, objection) + TagsFor(tenant, objection, ids)
    ensures r.Success? ==> TagsOf(tags, tenant, objection) == TagsFor(tenant, objection, ids)
    ensures r.Success? <==> forall id <- ids :: exists s <- segments :: s.id == id && s.tenant == tenant
    ensures r.Success? ==>
      forall x: ObjectionTag :: x in tags
        <==> if x.tenant == tenant && x.objection == objection then x.segment in ids else x in tags0
  {
    ValidationMeaning(segments, tenant, ids);
    TenantSegments(segments, tenant);
    r, tags := ValidateSegmentIds(segments, tenant, ids), tags0;
    if r.Failure? {
      return;
    }
    tags := DeleteTags(tags0, TagsOf(tags0, tenant, objection));
    tags := AddTags(tags, tenant, objection, r.value);
    assert TagsFor(tenant, objection, r.value) == TagsFor(tenant, objection, ids);
    ReplacedTags(tags0, tenant, objection, ids);
  }

  lemma {:induction false} TenantSegments(segments: seq<Segment>, tenant: Uuid)
    ensures forall id :: id in SegmentIdsOf(segments, tenant)
              <==> exists s <- segments :: s.id == id && s.tenant == tenant
  {
    forall id
      ensures id in SegmentIdsOf(segments, tenant) <==> exists s <- segments :: s.id == id && s.tenant == tenant
    {
      if id in SegmentIdsOf(segments, tenant) {
        var i :| 0 <= i < |segments| && segments[i].tenant == tenant && segments[i].id == id;
        assert segments[i] in segments;
      }
    }
  }

  lemma {:induction false} ReplacedTags(tags0: set<ObjectionTag>, tenant: Uuid, objection: Uuid, ids: seq<Uuid>)
    ensures TagsOf(tags0 - TagsOf(tags0, tenant, objection) + TagsFor(tenant, objection, ids), tenant, objection)
         == TagsFor(tenant, objection, ids)
  {
  }

  /** The loop that deletes the existing rows. */
  method DeleteTags(tags0: set<ObjectionTag>, doomed: set<ObjectionTag>) returns (tags: set<ObjectionTag>)
    ensures tags == tags0 - doomed
  {
    tags := tags0;
    var existing := doomed;
    while existing != {}
      invariant existing <= doomed && tags0 - doomed <= tags <= tags0 - (doomed - existing)
      decreases |existing|
    {
      var row :| row in existing;
      tags := tags - {row};
      existing := existing - {row};
    }
  }

  lemma {:induction false} OneMoreTag(tenant: Uuid, objection: Uuid, ids: seq<Uuid>, i: nat)
    requires i < |ids|
    ensures TagsFor(tenant, objection, ids[..i + 1])
         == TagsFor(tenant, objection, ids[..i]) + {ObjectionTag(tenant, objection, ids[i])}
  {
    assert ids[..i + 1] == ids[..i] + [ids[i]];
  }

  /** The loop that adds one row per segment. */
  method AddTags(tags0: set<ObjectionTag>, tenant: Uuid, objection: Uuid, ids: seq<Uuid>)
                 returns (tags: set<ObjectionTag>)
    ensures tags == tags0 + TagsFor(tenant, objection, ids)
  {
    tags := tags0;
    for i := 0 to |ids|
      invariant tags == tags0 + TagsFor(tenant, objection, ids[..i])
    {
      OneMoreTag(tenant, objection, ids, i);
      tags := tags + {ObjectionTag(tenant, objection, ids[i])};
    }
    assert ids[..|ids|] == ids;
  }
}
