/** The revision as the REST API hands it out. Its fields are read-only; the
    content it was built with is kept as a value, and every read of the
    content getter hands out a fresh node holding an equal document, so an
    edit of what one caller received is never seen by the next. */
module Dtos {
  import opened Wrappers
  import opened Json
  import opened Uuids
  import opened Revisions

  datatype RevisionDto = RevisionDto(
    id: Uuid,
    uri: string,
    changeNumber: int,
    revisionType: RevisionType,
    time: int,
    author: string,
    storedContent: Option<Json>)
  {
    /** The `content` getter, `_content?.deepCopy()`: null for null content,
        otherwise a node nobody else holds, whose document equals the one the
        DTO was built with. */
    method Content() returns (c: JsonNode?)
      ensures c == null <==> storedContent.None?
      ensures c != null ==> fresh(c) && c.tree == storedContent.value
    {
      if storedContent.None? {
        c := null;
      } else {
        c := new JsonNode(storedContent.value);
      }
    }
  }

  /** One page of revision DTOs and the number of revisions on all pages. */
  datatype RevisionPageDto = RevisionPageDto(totalItemCount: int, items: seq<RevisionDto>)

  /** Editing the node one read returned leaves what the next read returns
      as it was: both reads return the content the DTO was built with. */
  method ReadEditRead(dto: RevisionDto, name: string, value: Json) returns (first: JsonNode?, second: JsonNode?)
    ensures first == null <==> dto.storedContent.None?
    ensures first != null && dto.storedContent.value.JObject? ==>
      first.tree == JObject(dto.storedContent.value.fields[name := value])
    ensures second == null <==> dto.storedContent.None?
    ensures second != null ==> fresh(second) && second != first && second.tree == dto.storedContent.value
  {
    first := dto.Content();
    if first != null && first.tree.JObject? {
      first.Put(name, value);
    }
    second := dto.Content();
  }
}
