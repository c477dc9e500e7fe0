/** The revision record: one immutable fact about one change of one resource. */
module Revisions {
  import opened Wrappers
  import opened Json
  import opened Uuids

  /** Kind of change a revision records. */
  datatype RevisionType = Creation | Modification | HardDeletion

  /** The enum constant's name, as producers write it. */
  function RevisionTypeName(t: RevisionType): string {
    match t
    case Creation => "CREATION"
    case Modification => "MODIFICATION"
    case HardDeletion => "HARD_DELETION"
  }

  /** `RevisionType.valueOf(name)`: the constant with exactly that name;
      absent (an IllegalArgumentException) for any other text. */
  function RevisionTypeOf(name: string): (r: Option<RevisionType>)
    ensures r.None? <==> forall t: RevisionType :: RevisionTypeName(t) != name
    ensures r.Some? ==> RevisionTypeName(r.value) == name
  {
    if name == "CREATION" then assert RevisionTypeName(Creation) == name; Some(Creation)
    else if name == "MODIFICATION" then assert RevisionTypeName(Modification) == name; Some(Modification)
    else if name == "HARD_DELETION" then assert RevisionTypeName(HardDeletion) == name; Some(HardDeletion)
    else None
  }

  /** A stored revision. `time` is an instant in nanoseconds since the epoch;
      `content` is absent (Kotlin null) or a JSON document, which may itself be
      the JSON value `null`. */
  datatype Revision = Revision(
    uuid: Uuid,
    uri: string,
    revisionType: RevisionType,
    changeNumber: int,
    time: int,
    author: string,
    clientId: Uuid,
    content: Option<Json>)
}
