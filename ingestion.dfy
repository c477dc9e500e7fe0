/** What the message listeners share: the library parsers they call, the
    reasons a message fails, and what becomes of a message. */
module Ingestion {
  import opened Wrappers
  import opened Json
  import opened Uuids
  import opened Revisions

  /** The library parsers the listeners call, as functions: Jackson's
      `readTree`, `URI.create`, `Instant.parse` (to nanoseconds since the
      epoch) and `UUID.fromString`, each absent where the library throws, and
      the text-to-number conversion of Jackson 2's `asLong` on a text node,
      which yields 0 for text it cannot read. */
  datatype Libs = Libs(
    readTree: string -> Option<Json>,
    parseUri: string -> Option<string>,
    parseInstant: string -> Option<int>,
    parseUuid: string -> Option<Uuid>,
    textToLong: string -> int)

  /** Why a message could not be handled: the exception the listener meets. */
  datatype Failure =
    | MalformedJson                       // readTree throws
    | MissingField(name: string)          // get(name) is null; the next call on it throws
    | NotText(name: string)               // asString on a node that is not a text
    | NotANumber(name: string)            // asLong on a node that is not a number
    | UnknownRevisionType(text: string)   // RevisionType.valueOf
    | MalformedUri(text: string)          // URI.create
    | MalformedInstant(text: string)      // Instant.parse
    | MalformedUuid(text: string)         // UUID.fromString
    | UnsupportedEventType(eventType: string)  // NotImplementedError
    | StorageFailure                      // any failure of add other than a duplicate

  /** Why a message is rejected without being requeued. */
  datatype RejectReason =
    | MissingContent(revisionType: RevisionType)
    | DuplicateRevision(uri: string, changeNumber: int)

  /** What becomes of one message. `Added`, `Deleted` and `Ignored` end
      normally; `RejectNoRequeue` is AmqpRejectAndDontRequeueException;
      `Wrapped` is a RuntimeException carrying the cause, so the broker
      redelivers the message; `Propagated` is the cause itself, unwrapped. */
  datatype Outcome =
    | Added(revision: Revision)
    | Deleted(clientId: Uuid)
    | Ignored
    | RejectNoRequeue(reason: RejectReason)
    | Wrapped(cause: Failure)
    | Propagated(cause: Failure)

  /** The envelope the producers send: an object whose `content` field is a
      text holding the event, itself written as JSON. */
  function Envelope(write: Json -> string, event: Json): string {
    write(JObject(map["content" := JString(write(event))]))
  }
}
