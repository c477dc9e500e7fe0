/** Turning stored revisions and pages of them into DTOs. */
module DtoFactory {
  import opened Revisions
  import opened Dtos

  /** A page of stored revisions as the paging query returns it. */
  datatype RevisionPage = RevisionPage(totalItemCount: int, items: seq<Revision>)

  /** `createDto`: the DTO's id is the revision's public `uuid`; uri, change
      number, type, time, author and content are copied unchanged (null
      content stays null); only the owning client is not carried over. */
  function CreateDto(entity: Revision): (d: RevisionDto)
    ensures d.id == entity.uuid && d.uri == entity.uri && d.changeNumber == entity.changeNumber
    ensures d.revisionType == entity.revisionType && d.time == entity.time && d.author == entity.author
    ensures d.storedContent == entity.content
  {
    RevisionDto(entity.uuid, entity.uri, entity.changeNumber, entity.revisionType, entity.time, entity.author, entity.content)
  }

  /** Two revisions give the same DTO exactly when they differ at most in the
      client that owns them. */
  lemma CreateDtoForgetsOnlyClient(a: Revision, b: Revision)
    ensures CreateDto(a) == CreateDto(b) <==> a.(clientId := b.clientId) == b
  {
  }

  /** `items.map(::createDto)`. */
  function MapCreateDto(items: seq<Revision>): (r: seq<RevisionDto>)
    ensures |r| == |items|
    ensures forall i :: 0 <= i < |items| ==> r[i] == CreateDto(items[i])
  {
    if items == [] then [] else [CreateDto(items[0])] + MapCreateDto(items[1..])
  }

  /** `createPageDto`: the total count is kept whatever the number of items,
      and item i of the DTO page is the DTO of item i of the page. */
  function CreatePageDto(page: RevisionPage): (r: RevisionPageDto)
    ensures r.totalItemCount == page.totalItemCount
    ensures |r.items| == |page.items|
    ensures forall i :: 0 <= i < |page.items| ==> r.items[i] == CreateDto(page.items[i])
  {
    RevisionPageDto(page.totalItemCount, MapCreateDto(page.items))
  }

  /** Mapping a page split in two maps each part. */
  lemma {:induction false} MapCreateDtoAppend(a: seq<Revision>, b: seq<Revision>)
    ensures MapCreateDto(a + b) == MapCreateDto(a) + MapCreateDto(b)
  {
    if a != [] {
      assert (a + b)[1..] == a[1..] + b;
      MapCreateDtoAppend(a[1..], b);
    }
  }
}
