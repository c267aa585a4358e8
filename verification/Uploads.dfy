/** Uploads by content type (backend/app/services/analytics_service.py): counted in one loop, listed by type. */
module Uploads {
  import opened Analytics
  import opened Leaderboard
  import opened Select
  import opened Sequences
  import Ranking

  datatype UploadsByType = UploadsByType(contentType: string, count: nat)

  function UploadedSince(since: int): LibraryDocument -> bool {
    (d: LibraryDocument) => d.createdAt >= since
  }

  function TypeOf(): LibraryDocument -> string {
    (d: LibraryDocument) => d.contentType
  }

  function Types(documents: seq<LibraryDocument>): (r: seq<string>)
    ensures |r| == |documents| && forall i | 0 <= i < |r| :: r[i] == documents[i].contentType
  {
    seq(|documents|, i requires 0 <= i < |documents| => documents[i].contentType)
  }

  function EntryFor(recent: seq<LibraryDocument>, contentType: string): Entry<UploadsByType> {
    Entry(0, contentType, UploadsByType(contentType, Count(recent, KeyIs(TypeOf(), contentType))))
  }

  function UploadEntries(recent: seq<LibraryDocument>): (r: seq<Entry<UploadsByType>>)
    ensures |r| == |Dedup(Types(recent))|
    ensures forall i | 0 <= i < |r| :: r[i] == EntryFor(recent, Dedup(Types(recent))[i])
  {
    var types := Dedup(Types(recent));
    seq(|types|, i requires 0 <= i < |types| => EntryFor(recent, types[i]))
  }

  /** The content types of the documents uploaded since an instant, in order, each with its count. */
  function UploadsOf(documents: seq<LibraryDocument>, since: int): seq<UploadsByType> {
    Items(Sorted(UploadEntries(Where(documents, UploadedSince(since)))))
  }

  // ---------- The loop ----------

  lemma {:induction false} TypesAreCounted(recent: seq<LibraryDocument>, contentType: string)
    ensures contentType in Dedup(Types(recent)) <==> Count(recent, KeyIs(TypeOf(), contentType)) > 0
  {
    DedupMembers(Types(recent));
    CountAll(recent, KeyIs(TypeOf(), contentType));
    if contentType in Types(recent) {
      var i :| 0 <= i < |recent| && Types(recent)[i] == contentType;
      assert KeyIs(TypeOf(), contentType)(recent[i]);
    }
    if i :| 0 <= i < |recent| && KeyIs(TypeOf(), contentType)(recent[i]) {
      assert Types(recent)[i] == contentType;
    }
  }

  lemma {:induction false} TypesAppend(recent: seq<LibraryDocument>, d: LibraryDocument)
    ensures Dedup(Types(recent + [d]))
         == if d.contentType in Dedup(Types(recent)) then Dedup(Types(recent))
            else Dedup(Types(recent)) + [d.contentType]
  {
    assert Types(recent + [d])[..|recent|] == Types(recent);
  }

  /** The counting dictionary, with its keys in insertion order, against the documents seen. */
  ghost predicate UploadsBy(counts: map<string, nat>, keys: seq<string>, recent: seq<LibraryDocument>) {
    CountsBy(counts, recent, TypeOf()) && keys == Dedup(Types(recent))
  }

  method CountUpload(counts0: map<string, nat>, keys0: seq<string>, d: LibraryDocument,
                     ghost recent: seq<LibraryDocument>)
    returns (counts: map<string, nat>, keys: seq<string>)
    requires UploadsBy(counts0, keys0, recent)
    ensures UploadsBy(counts, keys, recent + [d])
  {
    BumpCounts(counts0, recent, TypeOf(), d);
    TypesAppend(recent, d);
    TypesAreCounted(recent, d.contentType);
    keys := if d.contentType in counts0 then keys0 else keys0 + [d.contentType];
    counts := Bump(counts0, d.contentType);
  }

  /** The loop over the documents, and the sorted list of its counts. */
  method CountUploads(documents: seq<LibraryDocument>, since: int) returns (r: seq<UploadsByType>)
    ensures r == UploadsOf(documents, since)
  {
    var counts: map<string, nat>, keys: seq<string> := map[], [];
    for i := 0 to |documents|
      invariant UploadsBy(counts, keys, Where(documents[..i], UploadedSince(since)))
    {
      var d := documents[i];
      WhereStep(documents, i, UploadedSince(since));
      if d.createdAt >= since {
        counts, keys := CountUpload(counts, keys, d, Where(documents[..i], UploadedSince(since)));
      }
    }
    assert documents[..|documents|] == documents;
    r := ListUploads(counts, keys, Where(documents, UploadedSince(since)));
  }

  method ListUploads(counts: map<string, nat>, keys: seq<string>, ghost recent: seq<LibraryDocument>)
    returns (r: seq<UploadsByType>)
    requires UploadsBy(counts, keys, recent)
    ensures r == Items(Sorted(UploadEntries(recent)))
  {
    forall i | 0 <= i < |keys| ensures keys[i] in counts {
      TypesAreCounted(recent, keys[i]);
      assert keys[i] in keys;
    }
    var entries :=
      seq(|keys|, i requires 0 <= i < |keys| => Entry(0, keys[i], UploadsByType(keys[i], counts[keys[i]])));
    assert entries == UploadEntries(recent);
    r := Items(Sorted(entries));
  }

  // ---------- What the list says ----------

  function SumUploads(list: seq<UploadsByType>): nat {
    if list == [] then 0 else SumUploads(list[..|list| - 1]) + list[|list| - 1].count
  }

  function Listed(list: seq<UploadsByType>): (r: seq<string>)
    ensures |r| == |list| && forall i | 0 <= i < |r| :: r[i] == list[i].contentType
  {
    seq(|list|, i requires 0 <= i < |list| => list[i].contentType)
  }

  lemma {:induction false} SumIsByType(recent: seq<LibraryDocument>, list: seq<UploadsByType>)
    requires forall i | 0 <= i < |list| :: list[i].count == Count(recent, KeyIs(TypeOf(), list[i].contentType))
    ensures SumUploads(list) == SumCounts(recent, TypeOf(), Listed(list))
  {
    if list != [] {
      var front := list[..|list| - 1];
      SumIsByType(recent, front);
      assert Listed(list)[..|list| - 1] == Listed(front);
    }
  }

  /** An entry of the sorted list is the entry of a type that occurs. */
  lemma {:induction false} SortedEntry(recent: seq<LibraryDocument>, i: nat)
    requires i < |Sorted(UploadEntries(recent))|
    ensures var x := Sorted(UploadEntries(recent))[i];
            x == EntryFor(recent, x.name) && x.name in Dedup(Types(recent)) && x in UploadEntries(recent)
  {
    var entries, x := UploadEntries(recent), Sorted(UploadEntries(recent))[i];
    SortedMeaning(entries);
    assert x in multiset(Sorted(entries));
    assert x in entries;
    var k :| 0 <= k < |entries| && entries[k] == x;
    assert Dedup(Types(recent))[k] in Dedup(Types(recent));
  }

  lemma {:induction false} EntriesDistinct(recent: seq<LibraryDocument>)
    ensures NoRepeats(Sorted(UploadEntries(recent)))
  {
    var entries := UploadEntries(recent);
    DedupMembers(Types(recent));
    forall i, j | 0 <= i < j < |entries| ensures entries[i] != entries[j] {
      assert entries[i].name == Dedup(Types(recent))[i] && entries[j].name == Dedup(Types(recent))[j];
    }
    SortedMeaning(entries);
    Ranking.NoRepeatsByCount(entries, Sorted(entries));
  }

  lemma {:induction false} TypeIsListed(recent: seq<LibraryDocument>, contentType: string)
    ensures contentType in Listed(Items(Sorted(UploadEntries(recent)))) <==> contentType in Types(recent)
  {
    var entries, sorted := UploadEntries(recent), Sorted(UploadEntries(recent));
    DedupMembers(Types(recent));
    SortedMeaning(entries);
    if contentType in Types(recent) {
      var k :| 0 <= k < |entries| && Dedup(Types(recent))[k] == contentType;
      assert entries[k] in multiset(entries);
      assert entries[k] in sorted;
      var i :| 0 <= i < |sorted| && sorted[i] == entries[k];
      assert Listed(Items(sorted))[i] == contentType;
    }
    if i :| 0 <= i < |sorted| && Listed(Items(sorted))[i] == contentType {
      SortedEntry(recent, i);
    }
  }

  /**
   * The list names exactly the types uploaded in the window, each once and in order, with its true count,
   * and its counts add up to all uploads of the window.
   */
  lemma {:induction false} UploadsConserve(documents: seq<LibraryDocument>, since: int)
    ensures var recent, list := Where(documents, UploadedSince(since)), UploadsOf(documents, since);
            && (forall i, j | 0 <= i < j < |list| ::
                  LexLeq(list[i].contentType, list[j].contentType) && list[i].contentType != list[j].contentType)
            && (forall i | 0 <= i < |list| :: list[i].count == Count(recent, KeyIs(TypeOf(), list[i].contentType)))
            && (forall ct :: ct in Listed(list) <==> ct in Types(recent))
            && SumUploads(list) == Count(documents, UploadedSince(since))
  {
    var recent, list := Where(documents, UploadedSince(since)), UploadsOf(documents, since);
    var sorted := Sorted(UploadEntries(recent));
    SortedMeaning(UploadEntries(recent));
    EntriesDistinct(recent);
    forall i | 0 <= i < |sorted| ensures sorted[i] == EntryFor(recent, sorted[i].name) {
      SortedEntry(recent, i);
    }
    forall ct ensures ct in Listed(list) <==> ct in Types(recent) {
      TypeIsListed(recent, ct);
    }
    assert NoRepeats(Listed(list));
    SumIsByType(recent, list);
    PartitionByKey(recent, TypeOf(), Listed(list));
    forall i | 0 <= i < |recent| ensures TypeOf()(recent[i]) in Listed(list) {
      assert Types(recent)[i] in Types(recent);
    }
    WhereCount(documents, UploadedSince(since));
  }
}
