/** The in-memory revision store `RevisionRepo`: an append-only list of
    revisions, unique per (uri, changeNumber) across all clients, queried per
    client. */
module RevisionStore {
  import opened Wrappers
  import opened Uuids
  import opened Revisions
  import opened RevisionQueries

  /** What `add` does: store the revision, or throw DuplicateRevisionException.
      `StorageError` stands for any other exception a store's `add` may throw;
      the in-memory stores never throw one. */
  datatype AddResult = Stored | Duplicate | StorageError

  /** `revisions.any { it.uri == uri && it.changeNumber == changeNumber }` */
  predicate HasKey(s: seq<Revision>, uri: string, changeNumber: int) {
    exists i :: 0 <= i < |s| && s[i].uri == uri && s[i].changeNumber == changeNumber
  }

  /** No two stored revisions share (uri, changeNumber). */
  predicate UniqueKeys(s: seq<Revision>) {
    forall i, j :: 0 <= i < j < |s| ==> s[i].uri != s[j].uri || s[i].changeNumber != s[j].changeNumber
  }

  /** The outcome of `add(r)` on a store holding `s`. */
  function AddOutcome(s: seq<Revision>, r: Revision): (result: AddResult)
    ensures result != StorageError
    ensures result == Duplicate <==> exists i :: 0 <= i < |s| && s[i].uri == r.uri && s[i].changeNumber == r.changeNumber
  {
    if HasKey(s, r.uri, r.changeNumber) then Duplicate else Stored
  }

  /** The list after `add(r)` on a store holding `s`. */
  function AfterAdd(s: seq<Revision>, r: Revision): (s': seq<Revision>)
    ensures AddOutcome(s, r) == Stored ==> s' == s + [r]
    ensures AddOutcome(s, r) == Duplicate ==> s' == s
  {
    if HasKey(s, r.uri, r.changeNumber) then s else s + [r]
  }

  /** Adding keeps the keys unique. */
  lemma AddKeepsKeysUnique(s: seq<Revision>, r: Revision)
    requires UniqueKeys(s)
    ensures UniqueKeys(AfterAdd(s, r))
  {
    if !HasKey(s, r.uri, r.changeNumber) {
      var s' := s + [r];
      forall i, j | 0 <= i < j < |s'| ensures s'[i].uri != s'[j].uri || s'[i].changeNumber != s'[j].changeNumber {
        if j == |s| {
          assert s'[i] == s[i];
        }
      }
    }
  }

  /** The list after a sequence of `add` calls, in order. */
  function AddAll(s: seq<Revision>, rs: seq<Revision>): seq<Revision>
    decreases |rs|
  {
    if rs == [] then s else AddAll(AfterAdd(s, rs[0]), rs[1..])
  }

  /** Any sequence of `add` calls, starting from an empty store, leaves no two
      stored revisions with the same (uri, changeNumber). */
  lemma {:induction false} AddsKeepKeysUnique(s: seq<Revision>, rs: seq<Revision>)
    requires UniqueKeys(s)
    ensures UniqueKeys(AddAll(s, rs))
    decreases |rs|
  {
    if rs != [] {
      AddKeepsKeysUnique(s, rs[0]);
      AddsKeepKeysUnique(AfterAdd(s, rs[0]), rs[1..]);
    }
  }

  /** `{ it.clientId == clientId && it.uri == uri }` */
  function OfResource(uri: string, clientId: Uuid): (p: Revision -> bool)
    ensures forall r :: p(r) <==> r.clientId == clientId && r.uri == uri
  {
    (r: Revision) => r.clientId == clientId && r.uri == uri
  }

  class RevisionRepo {
    var revisions: seq<Revision>

    ghost predicate Valid()
      reads this
    {
      UniqueKeys(revisions)
    }

    constructor ()
      ensures Valid() && revisions == []
    {
      revisions := [];
    }

    /** `findAll(uri, clientId)`: exactly the client's revisions of that
        resource, in insertion order. */
    function FindAll(uri: string, clientId: Uuid): (r: seq<Revision>)
      reads this
      ensures forall x :: x in r <==> x in revisions && x.uri == uri && x.clientId == clientId
      ensures IsSubsequence(r, revisions)
    {
      FilterKeepsOrder(revisions, OfResource(uri, clientId));
      FilterMembers(revisions, OfResource(uri, clientId));
      Filter(revisions, OfResource(uri, clientId))
    }

    /** `find(uri, changeNumber, clientId)`: the first of the client's
        revisions of that resource with that change number, or none exactly
        when there is no such revision. */
    function FindByChangeNumber(uri: string, changeNumber: int, clientId: Uuid): (r: Option<Revision>)
      reads this
      ensures r.None? <==> forall i :: 0 <= i < |revisions| ==>
        !(revisions[i].clientId == clientId && revisions[i].uri == uri && revisions[i].changeNumber == changeNumber)
      ensures r.Some? ==> r.value.clientId == clientId && r.value.uri == uri && r.value.changeNumber == changeNumber
      ensures r.Some? ==> exists i :: 0 <= i < |revisions| && revisions[i] == r.value &&
                            forall j :: 0 <= j < i ==> !(revisions[j].clientId == clientId &&
                                                         revisions[j].uri == uri && revisions[j].changeNumber == changeNumber)
    {
      FindFirstOfFilter(revisions, OfResource(uri, clientId), WithChangeNumber(changeNumber));
      FindFirst(FindAll(uri, clientId), WithChangeNumber(changeNumber))
    }

    /** `find(uri, time, clientId)`: among the client's revisions of that
        resource, the one with the greatest time not after `time` (the
        earliest-inserted among equal times), or none when all are later. */
    function FindAtTime(uri: string, time: int, clientId: Uuid): (r: Option<Revision>)
      reads this
      ensures r.None? <==> forall y :: y in revisions && y.uri == uri && y.clientId == clientId ==> y.time > time
      ensures r.Some? ==> r.value in revisions && r.value.uri == uri && r.value.clientId == clientId
      ensures r.Some? ==> IsLatestAtOrBefore(FindAll(uri, clientId), time, r.value)
    {
      LatestAtOrBefore(FindAll(uri, clientId), time)
    }

    /** `add(revision)`: appends, unless a revision with the same
        (uri, changeNumber) is stored for any client. */
    method Add(revision: Revision) returns (result: AddResult)
      requires Valid()
      modifies this
      ensures Valid()
      ensures result == AddOutcome(old(revisions), revision)
      ensures revisions == AfterAdd(old(revisions), revision)
    {
      AddKeepsKeysUnique(revisions, revision);
      if HasKey(revisions, revision.uri, revision.changeNumber) {
        result := Duplicate;
      } else {
        revisions := revisions + [revision];
        result := Stored;
      }
    }

    /** `clear()` */
    method Clear()
      modifies this
      ensures Valid() && revisions == []
    {
      revisions := [];
    }
  }

  /** A stored revision is found by its own client: among the resource's
      revisions, and under its key, since keys are unique. */
  lemma OwnRevisionFound(repo: RevisionRepo, r: Revision)
    requires r in repo.revisions && repo.Valid()
    ensures r in repo.FindAll(r.uri, r.clientId)
    ensures repo.FindByChangeNumber(r.uri, r.changeNumber, r.clientId) == Some(r)
  {
    var k :| 0 <= k < |repo.revisions| && repo.revisions[k] == r;
    var x := repo.FindByChangeNumber(r.uri, r.changeNumber, r.clientId);
    var i :| 0 <= i < |repo.revisions| && repo.revisions[i] == x.value &&
      x.value.uri == r.uri && x.value.changeNumber == r.changeNumber;
    assert i == k;
  }

  /** A client owning no stored revision gets empty answers to every query,
      whatever other clients have stored. */
  lemma ClientIsolation(repo: RevisionRepo, uri: string, changeNumber: int, time: int, other: Uuid)
    requires forall y :: y in repo.revisions ==> y.clientId != other
    ensures repo.FindAll(uri, other) == []
    ensures repo.FindByChangeNumber(uri, changeNumber, other).None?
    ensures repo.FindAtTime(uri, time, other).None?
  {
  }

  /** A query exactly at a stored revision's time answers a revision of that
      very time. */
  lemma ExactTimeQuery(repo: RevisionRepo, r: Revision)
    requires r in repo.revisions
    ensures repo.FindAtTime(r.uri, r.time, r.clientId).Some?
    ensures repo.FindAtTime(r.uri, r.time, r.clientId).value.time == r.time
  {
    var all := repo.FindAll(r.uri, r.clientId);
    assert r in all;
    var x := repo.FindAtTime(r.uri, r.time, r.clientId);
    assert IsLatestAtOrBefore(all, r.time, x.value);
    assert r.time <= x.value.time;
  }

  /** Two adds of the same (uri, changeNumber), from any two clients: the
      second is a duplicate and only the first is stored. */
  lemma SecondAddIsDuplicate(s: seq<Revision>, r1: Revision, r2: Revision)
    requires !HasKey(s, r1.uri, r1.changeNumber)
    requires r1.uri == r2.uri && r1.changeNumber == r2.changeNumber
    ensures AddOutcome(s, r1) == Stored
    ensures AddOutcome(AfterAdd(s, r1), r2) == Duplicate
    ensures AfterAdd(AfterAdd(s, r1), r2) == s + [r1]
  {
    assert (s + [r1])[|s|] == r1;
  }

  /** The same change number on a different resource is not a duplicate. */
  lemma OtherResourceIsNoDuplicate(s: seq<Revision>, r1: Revision, r2: Revision)
    requires !HasKey(s, r2.uri, r2.changeNumber)
    requires r1.uri != r2.uri
    ensures AddOutcome(AfterAdd(s, r1), r2) == Stored
  {
  }
}
