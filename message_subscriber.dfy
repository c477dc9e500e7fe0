/** The current listeners (Jackson 3): one for revision events and one for
    client changes. Both take the event out of the envelope, dispatch on its
    `eventType`, and turn every failure except a deliberate rejection into a
    wrapped exception so the broker redelivers the message. */
module Messaging {
  import opened Wrappers
  import opened Json
  import opened Uuids
  import opened Revisions
  import opened RevisionStore
  import opened Ingestion

  /** A value got so far, a rejection without requeue, or a failure. */
  datatype Step<+T> = Ok(value: T) | Reject(reason: RejectReason) | Fail(cause: Failure)

  /** `get(name).asString()`: the text of a text node; a missing field and a
      node of any other kind fail. */
  function StringField(node: Json, name: string): (r: Result<string, Failure>)
    ensures r.Success? <==> Get(node, name).Some? && Get(node, name).value.JString?
    ensures r.Success? ==> Get(node, name) == Some(JString(r.value))
    ensures Get(node, name).None? ==> r == Failure(MissingField(name))
    ensures Get(node, name).Some? && !Get(node, name).value.JString? ==> r == Failure(NotText(name))
  {
    match Get(node, name)
    case None => Failure(MissingField(name))
    case Some(JString(s)) => Success(s)
    case Some(_) => Failure(NotText(name))
  }

  /** `get(name).asLong()`: the value of a number node. */
  function LongField(node: Json, name: string): (r: Result<int, Failure>)
    ensures r.Success? <==> Get(node, name).Some? && Get(node, name).value.JNumber?
    ensures r.Success? ==> Get(node, name) == Some(JNumber(r.value))
    ensures Get(node, name).None? ==> r == Failure(MissingField(name))
  {
    match Get(node, name)
    case None => Failure(MissingField(name))
    case Some(JNumber(n)) => Success(n)
    case Some(_) => Failure(NotANumber(name))
  }

  /** `mapper.readTree(message).get("content").asString().let(mapper::readTree)`:
      the event is the text in the envelope's `content` field, parsed a second
      time. */
  function ReadEvent(libs: Libs, message: string): (r: Result<Json, Failure>)
    ensures libs.readTree(message).None? ==> r == Failure(MalformedJson)
    ensures r.Success? ==>
      libs.readTree(message).Some? &&
      StringField(libs.readTree(message).value, "content").Success? &&
      libs.readTree(StringField(libs.readTree(message).value, "content").value) == Some(r.value)
  {
    match libs.readTree(message)
    case None => Failure(MalformedJson)
    case Some(outer) =>
      match StringField(outer, "content")
      case Failure(e) => Failure(e)
      case Success(text) =>
        match libs.readTree(text)
        case None => Failure(MalformedJson)
        case Some(event) => Success(event)
  }

  /** With a parser that reads back what a writer wrote, the event read from
      an envelope is the event put into it. */
  lemma EnvelopeRoundTrip(libs: Libs, write: Json -> string, event: Json)
    requires forall j :: libs.readTree(write(j)) == Some(j)
    ensures ReadEvent(libs, Envelope(write, event)) == Success(event)
  {
    var outer := JObject(map["content" := JString(write(event))]);
    assert libs.readTree(Envelope(write, event)) == Some(outer);
    assert StringField(outer, "content") == Success(write(event));
  }

  /** An envelope whose `content` is the event as an object rather than as a
      text is a failure. */
  lemma EventMustBeText(libs: Libs, write: Json -> string, event: Json)
    requires event.JObject?
    requires forall j :: libs.readTree(write(j)) == Some(j)
    ensures ReadEvent(libs, write(JObject(map["content" := event]))) == Failure(NotText("content"))
  {
    var outer := JObject(map["content" := event]);
    assert libs.readTree(write(outer)) == Some(outer);
  }

  /** The two listeners. */
  datatype Listener = VeoListener | SubscriptionListener

  datatype Handler = Versioning | ClientChange

  /** The handler table each listener passes to `handle`. */
  function HandlerFor(listener: Listener, eventType: string): (h: Option<Handler>)
    ensures h == Some(Versioning) <==> listener == VeoListener && eventType == "entity_revision"
    ensures h == Some(ClientChange) <==> listener == SubscriptionListener && eventType == "client_change"
    ensures h.None? <==>
      !((listener == VeoListener && eventType == "entity_revision") ||
        (listener == SubscriptionListener && eventType == "client_change"))
  {
    match listener
    case VeoListener => if eventType == "entity_revision" then Some(Versioning) else None
    case SubscriptionListener => if eventType == "client_change" then Some(ClientChange) else None
  }

  /** `handleVersioning` up to the call of `add`: the revision the event
      describes, read field by field in the order the source reads them. A
      revision other than a hard deletion whose event has no `content` field
      is rejected; the event's `uri` is read first, for the log line, so
      without a `uri` that is a failure instead. An explicit JSON `null` is
      content. The stored revision's `uuid` is the new id passed in. */
  function VersioningStep(libs: Libs, event: Json, uuid: Uuid): (r: Step<Revision>)
    ensures r.Reject? <==>
      && StringField(event, "type").Success?
      && RevisionTypeOf(StringField(event, "type").value).Some?
      && RevisionTypeOf(StringField(event, "type").value).value != HardDeletion
      && Get(event, "content").None?
      && StringField(event, "uri").Success?
    ensures r.Reject? ==> r.reason == MissingContent(RevisionTypeOf(StringField(event, "type").value).value)
    ensures r.Ok? ==>
      && r.value.uuid == uuid
      && StringField(event, "type") == Success(RevisionTypeName(r.value.revisionType))
      && StringField(event, "uri").Success? && libs.parseUri(StringField(event, "uri").value) == Some(r.value.uri)
      && LongField(event, "changeNumber") == Success(r.value.changeNumber)
      && StringField(event, "time").Success? && libs.parseInstant(StringField(event, "time").value) == Some(r.value.time)
      && StringField(event, "author") == Success(r.value.author)
      && StringField(event, "clientId").Success? && libs.parseUuid(StringField(event, "clientId").value) == Some(r.value.clientId)
      && r.value.content == Get(event, "content")
    ensures r.Ok? ==> r.value.revisionType == HardDeletion || r.value.content.Some?
  {
    match StringField(event, "type")
    case Failure(e) => Fail(e)
    case Success(typeText) =>
      match RevisionTypeOf(typeText)
      case None => Fail(UnknownRevisionType(typeText))
      case Some(revisionType) =>
        var content := Get(event, "content");
        if revisionType != HardDeletion && content.None? then
          match StringField(event, "uri")
          case Failure(e) => Fail(e)
          case Success(_) => Reject(MissingContent(revisionType))
        else
          BuildRevision(libs, event, uuid, revisionType, content)
  }

  /** The `Revision(...)` constructor call, its arguments evaluated left to
      right. */
  function BuildRevision(libs: Libs, event: Json, uuid: Uuid, revisionType: RevisionType, content: Option<Json>): (r: Step<Revision>)
    ensures !r.Reject?
    ensures r.Ok? ==>
      && r.value == r.value.(uuid := uuid, revisionType := revisionType, content := content)
      && StringField(event, "uri").Success? && libs.parseUri(StringField(event, "uri").value) == Some(r.value.uri)
      && LongField(event, "changeNumber") == Success(r.value.changeNumber)
      && StringField(event, "time").Success? && libs.parseInstant(StringField(event, "time").value) == Some(r.value.time)
      && StringField(event, "author") == Success(r.value.author)
      && StringField(event, "clientId").Success? && libs.parseUuid(StringField(event, "clientId").value) == Some(r.value.clientId)
  {
    match StringField(event, "uri")
    case Failure(e) => Fail(e)
    case Success(uriText) =>
      match libs.parseUri(uriText)
      case None => Fail(MalformedUri(uriText))
      case Some(uri) =>
        match LongField(event, "changeNumber")
        case Failure(e) => Fail(e)
        case Success(changeNumber) =>
          match StringField(event, "time")
          case Failure(e) => Fail(e)
          case Success(timeText) =>
            match libs.parseInstant(timeText)
            case None => Fail(MalformedInstant(timeText))
            case Some(time) =>
              match StringField(event, "author")
              case Failure(e) => Fail(e)
              case Success(author) =>
                match StringField(event, "clientId")
                case Failure(e) => Fail(e)
                case Success(clientText) =>
                  match libs.parseUuid(clientText)
                  case None => Fail(MalformedUuid(clientText))
                  case Some(clientId) =>
                    Ok(Revision(uuid, uri, revisionType, changeNumber, time, author, clientId, content))
  }

  /** What a handler asks of the repository. */
  datatype Action = Store(revision: Revision) | DeleteClient(clientId: Uuid) | NoAction

  /** `handleClientChange`: a `DELETION` deletes the revisions of the client
      the event names; any other change type asks nothing. */
  function ClientChangeStep(libs: Libs, event: Json): (r: Step<Action>)
    ensures !r.Reject? && !(r.Ok? && r.value.Store?)
    ensures r.Ok? && r.value.DeleteClient? <==>
      StringField(event, "type") == Success("DELETION") &&
      StringField(event, "clientId").Success? && libs.parseUuid(StringField(event, "clientId").value).Some?
    ensures r.Ok? && r.value.DeleteClient? ==>
      libs.parseUuid(StringField(event, "clientId").value) == Some(r.value.clientId)
    ensures r == Ok(NoAction) <==> StringField(event, "type").Success? && StringField(event, "type").value != "DELETION"
  {
    match StringField(event, "type")
    case Failure(e) => Fail(e)
    case Success(changeType) =>
      if changeType != "DELETION" then Ok(NoAction)
      else
        match StringField(event, "clientId")
        case Failure(e) => Fail(e)
        case Success(clientText) =>
          match libs.parseUuid(clientText)
          case None => Fail(MalformedUuid(clientText))
          case Some(clientId) => Ok(DeleteClient(clientId))
  }

  /** `handle` up to the repository call: read the event, find the handler
      for its `eventType` in the listener's table (none is a
      NotImplementedError), and run it. */
  function Dispatch(libs: Libs, listener: Listener, message: string, uuid: Uuid): (r: Step<Action>)
    ensures r.Ok? || r.Reject? ==> ReadEvent(libs, message).Success?
    ensures r.Ok? && r.value.Store? ==> listener == VeoListener
    ensures r.Ok? && !r.value.Store? ==> listener == SubscriptionListener
    ensures r.Reject? ==> listener == VeoListener && r.reason.MissingContent?
  {
    match ReadEvent(libs, message)
    case Failure(e) => Fail(e)
    case Success(event) =>
      match StringField(event, "eventType")
      case Failure(e) => Fail(e)
      case Success(eventType) =>
        match HandlerFor(listener, eventType)
        case None => Fail(UnsupportedEventType(eventType))
        case Some(Versioning) =>
          (match VersioningStep(libs, event, uuid)
           case Ok(revision) => Ok(Store(revision))
           case Reject(reason) => Reject(reason)
           case Fail(e) => Fail(e))
        case Some(ClientChange) => ClientChangeStep(libs, event)
  }

  /** The end of `handle`, given what `add` answered when a revision was
      stored: a duplicate becomes a rejection without requeue, the
      rejection passes through as it is, and every other failure is wrapped. */
  function Complete(step: Step<Action>, added: AddResult): (o: Outcome)
    ensures o.RejectNoRequeue? <==> step.Reject? || (step.Ok? && step.value.Store? && added == Duplicate)
    ensures o.Wrapped? <==> step.Fail? || (step.Ok? && step.value.Store? && added == StorageError)
    ensures step.Fail? ==> o == Wrapped(step.cause)
    ensures step.Reject? ==> o == RejectNoRequeue(step.reason)
    ensures step.Ok? && step.value.Store? && added == Stored ==> o == Added(step.value.revision)
    ensures step.Ok? && step.value.Store? && added == Duplicate ==>
      o == RejectNoRequeue(DuplicateRevision(step.value.revision.uri, step.value.revision.changeNumber))
    ensures step == Ok(NoAction) <==> o == Ignored
    ensures !o.Propagated?
  {
    match step
    case Fail(e) => Wrapped(e)
    case Reject(reason) => RejectNoRequeue(reason)
    case Ok(Store(revision)) =>
      (match added
       case Stored => Added(revision)
       case Duplicate => RejectNoRequeue(DuplicateRevision(revision.uri, revision.changeNumber))
       case StorageError => Wrapped(StorageFailure))
    case Ok(DeleteClient(clientId)) => Deleted(clientId)
    case Ok(NoAction) => Ignored
  }

  /** The JSON of a revision event, as the producers write it. */
  function RevisionEvent(uri: string, typeText: string, changeNumber: int, time: string, author: string,
                         clientId: string, content: Option<Json>): Json
  {
    var fields := map[
      "eventType" := JString("entity_revision"),
      "uri" := JString(uri),
      "type" := JString(typeText),
      "changeNumber" := JNumber(changeNumber),
      "time" := JString(time),
      "author" := JString(author),
      "clientId" := JString(clientId)];
    JObject(if content.Some? then fields["content" := content.value] else fields)
  }

  /** A well-formed revision event is stored as the revision it describes,
      every field equal to the payload's, whenever there is content or the
      revision is a hard deletion, and rejected without requeue otherwise. */
  lemma RevisionEventOutcome(libs: Libs, uri: string, typeText: string, changeNumber: int, time: string,
                             author: string, clientId: string, content: Option<Json>, uuid: Uuid)
    requires RevisionTypeOf(typeText).Some?
    requires libs.parseUri(uri).Some? && libs.parseInstant(time).Some? && libs.parseUuid(clientId).Some?
    ensures var event := RevisionEvent(uri, typeText, changeNumber, time, author, clientId, content);
      var revisionType := RevisionTypeOf(typeText).value;
      if revisionType == HardDeletion || content.Some? then
        VersioningStep(libs, event, uuid) ==
          Ok(Revision(uuid, libs.parseUri(uri).value, revisionType, changeNumber, libs.parseInstant(time).value,
                      author, libs.parseUuid(clientId).value, content))
      else
        VersioningStep(libs, event, uuid) == Reject(MissingContent(revisionType))
  {
    var event := RevisionEvent(uri, typeText, changeNumber, time, author, clientId, content);
    assert StringField(event, "type") == Success(typeText);
    assert StringField(event, "uri") == Success(uri);
    assert LongField(event, "changeNumber") == Success(changeNumber);
    assert StringField(event, "time") == Success(time);
    assert StringField(event, "author") == Success(author);
    assert StringField(event, "clientId") == Success(clientId);
    assert Get(event, "content") == content;
  }

  /** The revision listener does not know client changes, and the
      subscription listener does not know revision events: each wraps a
      NotImplementedError for the other's events, and for any event type
      neither knows. */
  lemma UnknownEventTypeIsWrapped(libs: Libs, listener: Listener, message: string, uuid: Uuid)
    requires ReadEvent(libs, message).Success?
    requires StringField(ReadEvent(libs, message).value, "eventType").Success?
    requires HandlerFor(listener, StringField(ReadEvent(libs, message).value, "eventType").value).None?
    ensures Complete(Dispatch(libs, listener, message, uuid), Stored) ==
      Wrapped(UnsupportedEventType(StringField(ReadEvent(libs, message).value, "eventType").value))
  {
  }

  /** A client change: the subscription listener deletes the client's
      revisions for a `DELETION` and ignores every other change type; the
      revision listener does not know the event. */
  lemma ClientChangeOutcome(libs: Libs, message: string, uuid: Uuid, clientText: string, changeType: string)
    requires ReadEvent(libs, message) == Success(JObject(map[
      "eventType" := JString("client_change"),
      "clientId" := JString(clientText),
      "type" := JString(changeType)]))
    requires libs.parseUuid(clientText).Some?
    ensures changeType == "DELETION" ==>
      Complete(Dispatch(libs, SubscriptionListener, message, uuid), Stored) == Deleted(libs.parseUuid(clientText).value)
    ensures changeType != "DELETION" ==>
      Complete(Dispatch(libs, SubscriptionListener, message, uuid), Stored) == Ignored
    ensures Complete(Dispatch(libs, VeoListener, message, uuid), Stored) == Wrapped(UnsupportedEventType("client_change"))
  {
    var event := ReadEvent(libs, message).value;
    assert StringField(event, "eventType") == Success("client_change");
    assert StringField(event, "type") == Success(changeType);
    assert StringField(event, "clientId") == Success(clientText);
  }

  /** A message whose revision is already stored under its resource and
      change number is rejected without requeue and leaves the store as it
      was, whichever client holds the stored one. */
  lemma DuplicateIsRejected(s: seq<Revision>, step: Step<Action>)
    requires step.Ok? && step.value.Store?
    requires HasKey(s, step.value.revision.uri, step.value.revision.changeNumber)
    ensures Complete(step, AddOutcome(s, step.value.revision)) ==
      RejectNoRequeue(DuplicateRevision(step.value.revision.uri, step.value.revision.changeNumber))
    ensures AfterAdd(s, step.value.revision) == s
  {
  }

  /** The revision listener and the subscription listener, sharing one
      repository. The library parsers are fixed when the listeners are made;
      the id a new revision gets is passed with each message. */
  class MessageSubscriber {
    const repo: RevisionRepo
    const libs: Libs

    constructor (repo: RevisionRepo, libs: Libs)
      ensures this.repo == repo && this.libs == libs
    {
      this.repo := repo;
      this.libs := libs;
    }

    /** `handleVeoMessage`: the listener for `entity_revision` events. */
    method HandleVeoMessage(message: string, uuid: Uuid) returns (o: Outcome)
      requires repo.Valid()
      modifies repo
      ensures repo.Valid()
      ensures var step := Dispatch(libs, VeoListener, message, uuid);
        if step.Ok? && step.value.Store? then
          o == Complete(step, AddOutcome(old(repo.revisions), step.value.revision)) &&
          repo.revisions == AfterAdd(old(repo.revisions), step.value.revision)
        else
          o == Complete(step, Stored) && repo.revisions == old(repo.revisions)
    {
      o := Handle(VeoListener, message, uuid);
    }

    /** `handleSubscriptionMessage`: the listener for `client_change` events.
        It never stores a revision; deleting a client's revisions is the
        `Deleted` outcome, naming the client. */
    method HandleSubscriptionMessage(message: string, uuid: Uuid) returns (o: Outcome)
      requires repo.Valid()
      modifies repo
      ensures repo.Valid()
      ensures o == Complete(Dispatch(libs, SubscriptionListener, message, uuid), Stored)
      ensures repo.revisions == old(repo.revisions)
    {
      o := Handle(SubscriptionListener, message, uuid);
    }

    /** `handle`: dispatch, then the repository call the handler makes. */
    method Handle(listener: Listener, message: string, uuid: Uuid) returns (o: Outcome)
      requires repo.Valid()
      modifies repo
      ensures repo.Valid()
      ensures var step := Dispatch(libs, listener, message, uuid);
        if step.Ok? && step.value.Store? then
          o == Complete(step, AddOutcome(old(repo.revisions), step.value.revision)) &&
          repo.revisions == AfterAdd(old(repo.revisions), step.value.revision)
        else
          o == Complete(step, Stored) && repo.revisions == old(repo.revisions)
    {
      var step := Dispatch(libs, listener, message, uuid);
      if step.Ok? && step.value.Store? {
        var added := repo.Add(step.value.revision);
        o := Complete(step, added);
      } else {
        o := Complete(step, Stored);
      }
    }
  }
}
