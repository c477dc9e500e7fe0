/** The older revision listener (Jackson 2). It reads the same envelope, but
    it checks no event type and no content, and the only failure it
    translates is a duplicate: every other exception leaves it as it is. */
module EntityEvents {
  import opened Wrappers
  import opened Json
  import opened Uuids
  import opened Revisions
  import opened RevisionStore
  import opened Ingestion

  /** The decimal text of an integer. */
  function DecimalText(n: int): string
    decreases if n < 0 then 1 - n else n
  {
    if n < 0 then "-" + DecimalText(-n)
    else if n < 10 then [('0' as int + n) as char]
    else DecimalText(n / 10) + [('0' as int + n % 10) as char]
  }

  /** Jackson 2's `asText()`: a text node's text, the written form of a
      number, a boolean or `null`, and the empty text for arrays and objects. */
  function AsText(node: Json): (s: string)
    ensures node.JString? ==> s == node.s
    ensures node.JArray? || node.JObject? ==> s == ""
  {
    match node
    case JString(t) => t
    case JNumber(n) => DecimalText(n)
    case JBool(b) => if b then "true" else "false"
    case JNull => "null"
    case JArray(_) => ""
    case JObject(_) => ""
  }

  /** `get(name).asText()`: fails only for a missing field. */
  function TextField(node: Json, name: string): (r: Result<string, Failure>)
    ensures r.Failure? <==> Get(node, name).None?
    ensures r.Failure? ==> r.error == MissingField(name)
    ensures r.Success? ==> r.value == AsText(Get(node, name).value)
  {
    match Get(node, name)
    case None => Failure(MissingField(name))
    case Some(v) => Success(AsText(v))
  }

  /** `get(name).asLong()`: the number of a number node, 1 or 0 for a
      boolean, the text conversion for a text node, and 0 for anything else;
      fails only for a missing field. */
  function LongField(libs: Libs, node: Json, name: string): (r: Result<int, Failure>)
    ensures r.Failure? <==> Get(node, name).None?
    ensures r.Success? && Get(node, name).value.JNumber? ==> r.value == Get(node, name).value.n
    ensures r.Success? && Get(node, name).value.JString? ==> r.value == libs.textToLong(Get(node, name).value.s)
    ensures r.Success? && (Get(node, name).value.JNull? || Get(node, name).value.JArray? || Get(node, name).value.JObject?) ==>
      r.value == 0
  {
    match Get(node, name)
    case None => Failure(MissingField(name))
    case Some(JNumber(n)) => Success(n)
    case Some(JBool(b)) => Success(if b then 1 else 0)
    case Some(JString(t)) => Success(libs.textToLong(t))
    case Some(_) => Success(0)
  }

  /** `mapper.readTree(get("content").asText())` on the parsed envelope. */
  function ReadEntityEvent(libs: Libs, message: string): (r: Result<Json, Failure>)
    ensures libs.readTree(message).None? ==> r == Failure(MalformedJson)
    ensures r.Success? ==>
      libs.readTree(message).Some? &&
      TextField(libs.readTree(message).value, "content").Success? &&
      libs.readTree(TextField(libs.readTree(message).value, "content").value) == Some(r.value)
  {
    match libs.readTree(message)
    case None => Failure(MalformedJson)
    case Some(outer) =>
      match TextField(outer, "content")
      case Failure(e) => Failure(e)
      case Success(text) =>
        match libs.readTree(text)
        case None => Failure(MalformedJson)
        case Some(event) => Success(event)
  }

  /** With a parser that reads back what a writer wrote, the event read from
      an envelope is the event put into it. */
  lemma EnvelopeRoundTrip(libs: Libs, write: Json -> string, event: Json)
    requires forall j :: libs.readTree(write(j)) == Some(j)
    ensures ReadEntityEvent(libs, Envelope(write, event)) == Success(event)
  {
    var outer := JObject(map["content" := JString(write(event))]);
    assert libs.readTree(Envelope(write, event)) == Some(outer);
    assert TextField(outer, "content") == Success(write(event));
  }

  /** The `Revision(...)` built from the event, its arguments evaluated left
      to right. There is no content check: a missing `content` is stored as
      null whatever the revision type. */
  function EventRevision(libs: Libs, event: Json, uuid: Uuid): (r: Result<Revision, Failure>)
    ensures r.Success? ==>
      && r.value.uuid == uuid
      && TextField(event, "uri").Success? && libs.parseUri(TextField(event, "uri").value) == Some(r.value.uri)
      && TextField(event, "type") == Success(RevisionTypeName(r.value.revisionType))
      && LongField(libs, event, "changeNumber") == Success(r.value.changeNumber)
      && TextField(event, "time").Success? && libs.parseInstant(TextField(event, "time").value) == Some(r.value.time)
      && TextField(event, "author") == Success(r.value.author)
      && TextField(event, "clientId").Success? && libs.parseUuid(TextField(event, "clientId").value) == Some(r.value.clientId)
      && r.value.content == Get(event, "content")
  {
    match TextField(event, "uri")
    case Failure(e) => Failure(e)
    case Success(uriText) =>
      match libs.parseUri(uriText)
      case None => Failure(MalformedUri(uriText))
      case Some(uri) =>
        match TextField(event, "type")
        case Failure(e) => Failure(e)
        case Success(typeText) =>
          match RevisionTypeOf(typeText)
          case None => Failure(UnknownRevisionType(typeText))
          case Some(revisionType) =>
            match LongField(libs, event, "changeNumber")
            case Failure(e) => Failure(e)
            case Success(changeNumber) =>
              match TextField(event, "time")
              case Failure(e) => Failure(e)
              case Success(timeText) =>
                match libs.parseInstant(timeText)
                case None => Failure(MalformedInstant(timeText))
                case Some(time) =>
                  match TextField(event, "author")
                  case Failure(e) => Failure(e)
                  case Success(author) =>
                    match TextField(event, "clientId")
                    case Failure(e) => Failure(e)
                    case Success(clientText) =>
                      match libs.parseUuid(clientText)
                      case None => Failure(MalformedUuid(clientText))
                      case Some(clientId) =>
                        Success(Revision(uuid, uri, revisionType, changeNumber, time, author, clientId, Get(event, "content")))
  }

  /** `handleEntityEvent` up to the call of `add`. */
  function EntityEventRevision(libs: Libs, message: string, uuid: Uuid): (r: Result<Revision, Failure>)
    ensures r.Success? ==>
      ReadEntityEvent(libs, message).Success? && r == EventRevision(libs, ReadEntityEvent(libs, message).value, uuid)
    ensures ReadEntityEvent(libs, message).Failure? ==> r == Failure(ReadEntityEvent(libs, message).error)
  {
    match ReadEntityEvent(libs, message)
    case Failure(e) => Failure(e)
    case Success(event) => EventRevision(libs, event, uuid)
  }

  /** The end of `handleEntityEvent`: a duplicate becomes a rejection without
      requeue, and every other exception propagates unchanged. */
  function Complete(revision: Result<Revision, Failure>, added: AddResult): (o: Outcome)
    ensures o.RejectNoRequeue? <==> revision.Success? && added == Duplicate
    ensures o.RejectNoRequeue? ==>
      o.reason == DuplicateRevision(revision.value.uri, revision.value.changeNumber)
    ensures revision.Success? && added == Stored ==> o == Added(revision.value)
    ensures revision.Failure? ==> o == Propagated(revision.error)
    ensures revision.Success? && added == StorageError ==> o == Propagated(StorageFailure)
    ensures !o.Wrapped? && !o.Deleted? && !o.Ignored?
  {
    match revision
    case Failure(e) => Propagated(e)
    case Success(r) =>
      match added
      case Stored => Added(r)
      case Duplicate => RejectNoRequeue(DuplicateRevision(r.uri, r.changeNumber))
      case StorageError => Propagated(StorageFailure)
  }

  /** A revision event without content is stored with null content whatever
      its type, where the current listener rejects the non-deletions. */
  lemma MissingContentIsStored(libs: Libs, event: Json, uuid: Uuid)
    requires EventRevision(libs, event, uuid).Success?
    requires Get(event, "content").None?
    ensures EventRevision(libs, event, uuid).value.content.None?
  {
  }

  /** The listener stores any revision the event describes: with every field
      present and its `asText` or `asLong` value accepted by the parsers, the
      stored revision carries those values. The change number may be a JSON
      number, as events carry it, or text; the other fields need not be text,
      since `asText` renders any node. */
  lemma WellFormedEventIsRevision(libs: Libs, event: Json, uuid: Uuid)
    requires event.JObject?
    requires forall name :: name in ["uri", "type", "changeNumber", "time", "author", "clientId"] ==>
      name in event.fields
    requires libs.parseUri(AsText(event.fields["uri"])).Some?
    requires RevisionTypeOf(AsText(event.fields["type"])).Some?
    requires libs.parseInstant(AsText(event.fields["time"])).Some?
    requires libs.parseUuid(AsText(event.fields["clientId"])).Some?
    ensures LongField(libs, event, "changeNumber").Success?
    ensures EventRevision(libs, event, uuid) == Success(Revision(
      uuid, libs.parseUri(AsText(event.fields["uri"])).value, RevisionTypeOf(AsText(event.fields["type"])).value,
      LongField(libs, event, "changeNumber").value, libs.parseInstant(AsText(event.fields["time"])).value,
      AsText(event.fields["author"]), libs.parseUuid(AsText(event.fields["clientId"])).value, Get(event, "content")))
  {
    assert "uri" in ["uri", "type", "changeNumber", "time", "author", "clientId"];
    assert "type" in ["uri", "type", "changeNumber", "time", "author", "clientId"];
    assert "changeNumber" in ["uri", "type", "changeNumber", "time", "author", "clientId"];
    assert "time" in ["uri", "type", "changeNumber", "time", "author", "clientId"];
    assert "author" in ["uri", "type", "changeNumber", "time", "author", "clientId"];
    assert "clientId" in ["uri", "type", "changeNumber", "time", "author", "clientId"];
  }

  /** An event as the publishers send it, with a numeric change number, is
      stored with that number. */
  lemma NumericChangeNumberIsStored(libs: Libs, event: Json, uuid: Uuid, n: int)
    requires Get(event, "changeNumber") == Some(JNumber(n))
    requires EventRevision(libs, event, uuid).Success?
    ensures EventRevision(libs, event, uuid).value.changeNumber == n
  {
  }

  /** The older listener, over the shared repository. */
  class EventSubscriber {
    const repo: RevisionRepo
    const libs: Libs

    constructor (repo: RevisionRepo, libs: Libs)
      ensures this.repo == repo && this.libs == libs
    {
      this.repo := repo;
      this.libs := libs;
    }

    /** `handleEntityEvent`: `add` of the revision the event describes. */
    method HandleEntityEvent(message: string, uuid: Uuid) returns (o: Outcome)
      requires repo.Valid()
      modifies repo
      ensures repo.Valid()
      ensures var revision := EntityEventRevision(libs, message, uuid);
        if revision.Success? then
          o == Complete(revision, AddOutcome(old(repo.revisions), revision.value)) &&
          repo.revisions == AfterAdd(old(repo.revisions), revision.value)
        else
          o == Complete(revision, Stored) && repo.revisions == old(repo.revisions)
    {
      var revision := EntityEventRevision(libs, message, uuid);
      if revision.Success? {
        var added := repo.Add(revision.value);
        o := Complete(revision, added);
      } else {
        o := Complete(revision, Stored);
      }
    }
  }
}
