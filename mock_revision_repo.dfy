/** `MockRevisionRepo`: a store seeded with five revisions of one process,
    whose lookups ignore the resource they are given. */
module MockStore {
  import opened Wrappers
  import opened Json
  import opened Uuids
  import opened Revisions
  import opened RevisionQueries
  import opened RevisionStore

  const ProcessUri: string := "/processes/85773f48-d7bb-4605-a0fe-9db6f1db5b82"
  const DomainKey: string := "7c087c77-6d05-4839-a819-533aaeffdc4c"

  /** The seeded times, `Instant.parse("2021-01-27T11:27:00.013621Z")` and the
      same time of day on the three following days, in nanoseconds since the
      epoch. Versions 4 and 5 share the last one. */
  const Day: int := 86_400_000_000_000
  const Time1: int := 1_611_746_820_013_621_000
  const Time2: int := Time1 + Day
  const Time3: int := Time1 + 2 * Day
  const Time4: int := Time1 + 3 * Day

  /** The body shared by the seeded process snapshots. */
  function ProcessContent(name: string, abbreviation: string, description: string,
                          updatedAt: string, updatedBy: string, subType: Json): Json
  {
    JObject(map[
      "name" := JString(name),
      "abbreviation" := JString(abbreviation),
      "description" := JString(description),
      "createdAt" := JString("2021-01-27T11:27:00.013621Z"),
      "createdBy" := JString("dm"),
      "updatedAt" := JString(updatedAt),
      "updatedBy" := JString(updatedBy),
      "domains" := JArray([JObject(map[
        "displayName" := JString("Placeholder domain - see issue VEO-227"),
        "searchesUri" := JString(""),
        "targetUri" := JString("/domains/" + DomainKey)])]),
      "owner" := JObject(map[
        "displayName" := JString("SerNet Berlin"),
        "resourcesUri" := JString("https://veo-web.develop.verinice.com/unitsmapOf(parent,displayName)"),
        "searchesUri" := JString("https://veo-web.develop.verinice.com/units/searches"),
        "targetUri" := JString("https://veo-web.develop.verinice.com/units/bcbddcde-cb35-4e82-83d1-dcd7e313748e")]),
      "links" := JObject(map[]),
      "customAspects" := JObject(map[]),
      "subType" := subType,
      "parts" := JArray([]),
      "id" := JString("85773f48-d7bb-4605-a0fe-9db6f1db5b82")])
  }

  /** The seeded list. The record type it was built with had no uuid, so the
      seeded revisions carry the nil UUID. */
  function Seed(clientId: Uuid): seq<Revision> {
    var vt := JObject(map[DomainKey := JString("VT")]);
    [ Revision(Nil, ProcessUri, Creation, 1, Time1, "dm", clientId,
        Some(ProcessContent("Process 1", "PS 1", "Lorem ipsum", "2021-01-27T11:27:00.013621Z", "dm", vt))),
      Revision(Nil, ProcessUri, Modification, 2, Time2, "jj", clientId,
        Some(ProcessContent("Super Process 1", "PS 1", "Lorem ipsum bipsum", "2021-01-28T11:27:00.013621Z", "jj", vt))),
      Revision(Nil, ProcessUri, Modification, 3, Time3, "jj", clientId,
        Some(ProcessContent("Super Process 1", "SPS 1", "Lorem ipsum bipsum", "2021-01-29T11:27:00.013621Z", "jj", vt))),
      Revision(Nil, ProcessUri, Modification, 4, Time4, "jk", clientId,
        Some(ProcessContent("Super Process 1", "SPS 1", "Lorem ipsum bipsum", "2021-01-29T11:27:00.013621Z", "jk",
          JObject(map[])))),
      Revision(Nil, ProcessUri, HardDeletion, 5, Time4, "dm", clientId, None) ]
  }

  /** The seed: five revisions of one process with versions 1 to 5 and
      non-decreasing times, all of one client, unique per key; only the last
      is a hard deletion and only it has no content. */
  lemma SeedShape(clientId: Uuid)
    ensures |Seed(clientId)| == 5 && UniqueKeys(Seed(clientId))
    ensures forall i :: 0 <= i < 5 ==>
      Seed(clientId)[i].uri == ProcessUri && Seed(clientId)[i].changeNumber == i + 1 &&
      Seed(clientId)[i].clientId == clientId
    ensures forall i, j :: 0 <= i < j < 5 ==> Seed(clientId)[i].time <= Seed(clientId)[j].time
    ensures forall i :: 0 <= i < 5 ==>
      (Seed(clientId)[i].revisionType == HardDeletion <==> i == 4) &&
      (Seed(clientId)[i].content.None? <==> i == 4)
  {
  }

  class MockRevisionRepo {
    const clientId: Uuid
    var revisions: seq<Revision>

    ghost predicate Valid()
      reads this
    {
      UniqueKeys(revisions)
    }

    /** The client id is `UUID.randomUUID()` in the source; here the caller
        supplies it. */
    constructor (clientId: Uuid)
      ensures Valid() && this.clientId == clientId && revisions == Seed(clientId)
    {
      this.clientId := clientId;
      revisions := Seed(clientId);
      SeedShape(clientId);
    }

    /** `findAll(uri)`: the whole list, whatever uri is asked for. */
    function FindAll(uri: string): (r: seq<Revision>)
      reads this
      ensures r == revisions
    {
      revisions
    }

    /** `find(uri, version)`: the first revision with that version, of any
        resource; none exactly when no revision has it. */
    function FindByVersion(uri: string, version: int): (r: Option<Revision>)
      reads this
      ensures r.None? <==> forall i :: 0 <= i < |revisions| ==> revisions[i].changeNumber != version
      ensures r.Some? ==> r.value.changeNumber == version
      ensures r.Some? ==>
        exists i :: 0 <= i < |revisions| && revisions[i] == r.value &&
          forall j :: 0 <= j < i ==> revisions[j].changeNumber != version
    {
      FindFirst(revisions, WithChangeNumber(version))
    }

    /** `find(uri, time)`: the latest revision of the whole list at or before
        `time`, the earliest-inserted among equal times; none when `time` is
        before every revision. */
    function FindAtTime(uri: string, time: int): (r: Option<Revision>)
      reads this
      ensures r.None? <==> forall y :: y in revisions ==> y.time > time
      ensures r.Some? ==> r.value in revisions && IsLatestAtOrBefore(revisions, time, r.value)
    {
      LatestAtOrBefore(revisions, time)
    }

    /** `add(revision)`: the same duplicate check as `RevisionRepo.add`, over
        the seeded revisions too. */
    method Add(revision: Revision) returns (result: AddResult)
      requires Valid()
      modifies this
      ensures Valid()
      ensures result == AddOutcome(old(revisions), revision)
      ensures revisions == AfterAdd(old(revisions), revision)
    {
      AddKeepsKeysUnique(revisions, revision);
      if HasKey(revisions, revision.uri, revision.changeNumber) {
        result := Duplicate;
      } else {
        revisions := revisions + [revision];
        result := Stored;
      }
    }
  }

  /** Versions 4 and 5 share a timestamp, so at or after it the seeded store
      answers with version 4, the earlier-inserted one; before the first
      revision it answers nothing. */
  lemma SeedLatestIsVersionFour(clientId: Uuid, t: int)
    ensures t >= Time4 ==> LatestAtOrBefore(Seed(clientId), t) == Some(Seed(clientId)[3])
    ensures t < Time1 ==> LatestAtOrBefore(Seed(clientId), t).None?
    ensures Time1 <= t < Time2 ==> LatestAtOrBefore(Seed(clientId), t) == Some(Seed(clientId)[0])
  {
    var s := Seed(clientId);
    assert |s| == 5 && s[0].time == Time1 && s[1].time == Time2 && s[2].time == Time3 &&
      s[3].time == Time4 && s[4].time == Time4;
    LatestOfSeedTimes(s, t);
  }

  /** The answer of `LatestAtOrBefore` for any five revisions timed like the
      seed. */
  lemma LatestOfSeedTimes(s: seq<Revision>, t: int)
    requires |s| == 5 && s[0].time == Time1 && s[1].time == Time2 && s[2].time == Time3
    requires s[3].time == Time4 && s[4].time == Time4
    ensures t >= Time4 ==> LatestAtOrBefore(s, t) == Some(s[3])
    ensures t < Time1 ==> LatestAtOrBefore(s, t).None?
    ensures Time1 <= t < Time2 ==> LatestAtOrBefore(s, t) == Some(s[0])
  {
    var r := LatestAtOrBefore(s, t);
    if t >= Time4 {
      assert s[3] in s;
      var x := r.value;
      var i :| 0 <= i < |s| && s[i] == x && forall j :: 0 <= j < i ==> s[j].time != x.time;
      assert x.time == Time4;
      assert i == 3 || i == 4;
      assert s[3].time == x.time;
    } else if t < Time1 {
      forall y | y in s ensures y.time > t {
        var k :| 0 <= k < 5 && s[k] == y;
      }
    } else if t < Time2 {
      assert s[0] in s;
      var x := r.value;
      var i :| 0 <= i < |s| && s[i] == x && forall j :: 0 <= j < i ==> s[j].time != x.time;
      assert i == 0;
    }
  }

  /** The mock's lookups ignore the resource: a stored revision of another
      resource is found however the uri is written. */
  lemma VersionLookupIgnoresUri(repo: MockRevisionRepo, u1: string, u2: string, version: int, t: int)
    ensures repo.FindAll(u1) == repo.FindAll(u2)
    ensures repo.FindByVersion(u1, version) == repo.FindByVersion(u2, version)
    ensures repo.FindAtTime(u1, t) == repo.FindAtTime(u2, t)
  {
  }
}
