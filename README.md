# verinice veo-history: a verified model of the revision store and its ingestion

The history service records immutable revisions of resources owned by other
veo services. Each revision is a change of one resource, identified by its URI
and change number, and belongs to one tenant (client). The service answers
tenant-scoped queries over these revisions. This project models the logic at
its centre in Dafny and proves what that logic promises:

- **Revision stores** (`revision_repo.dfy`, `mock_revision_repo.dfy`, with the
  list queries in `revision_queries.dfy`).
  - `RevisionRepo` is an append-only list. It rejects a second revision with
    the same `(uri, changeNumber)`, whichever client sends it. It answers
    per-client lookups: all revisions of a resource, the revision with a
    given change number, and the latest revision at or before an instant.
  - That last lookup sorts with a stable descending sort. It therefore picks
    the earliest-inserted revision among those sharing the latest time, and
    this is proved.
  - `MockRevisionRepo` is seeded with five revisions of one process and
    ignores the uri it is asked about.
- **Domain views** (`domain_service.dfy`).
  - Recognises `/domains/{uuid}/{elementType}/{uuid}` and splits it into the
    domain and the main URI.
  - Rewrites a revision's content into the view of one domain. It drops
    `requirementImplementations` and `domains`, then overlays the domain's
    entry.
  - The rewrite edits the content in place, on the fresh copy the DTO getter
    returns.
- **Ingestion** (`ingestion.dfy`, `message_subscriber.dfy`,
  `event_subscriber.dfy`).
  - Both listeners take the event out of the envelope's `content` text.
  - The current listeners dispatch on `eventType`. A non-deletion without
    content is rejected without requeue, and so is a duplicate. Every other
    failure is wrapped so that the message is redelivered.
  - The older listener, on Jackson 2, stores whatever the event describes. It
    translates only duplicates and lets every other exception propagate.
- **Tenant extraction** (`auth_service.dfy`). The token must carry exactly one
  group `/veo_client:<uuid>`, matched as a whole string, with hex digits of
  either case.
- **DTOs** (`revision_dto.dfy`, `revision_dto_factory.dfy`). The content
  getter hands out a fresh deep copy on every read. The factory maps pages
  item by item and keeps the total count.

UUIDs (`uuid.dfy`) are 32 hex digits, with the 8-4-4-4-12 text form and a
proved parse/print round trip. The UUID pattern of `DomainService.kt:36` is
defined in a file this model does not cover, so it is modelled as the
pattern of `AuthService.kt:27`. JSON (`json.dfy`) is a value type. Jackson's mutable
object node is a class over that value.

Instants are integers (nanoseconds since the epoch). URIs are strings. The
library parsers the listeners call are parameters of the model: Jackson's
`readTree`, `URI.create`, `Instant.parse` and `UUID.fromString`. A parse
failure is an error that the listener wraps or propagates.

In these places the model follows the code:
- `findAll` returns insertion order, not change-number order.
- Equal times are not tie-broken arbitrarily. The stable sort returns the
  earliest-inserted revision.
- A hard deletion with content is accepted by the current listener, and the
  older listener accepts any revision without content.
- Converting content that is not an object, or whose domain entry exists but
  is not an object (JSON `null` included), fails with a ClassCastException
  (`ConvertError.NotAnObject`). It is not "nothing merged".
- The domain entry is looked up under the lower-case text of the domain id
  (`domainId.toString()`), whatever case the URI used.

## Model

| member | source | states |
|---|---|---|
| RevisionQueries.FilterMembers | src/main/kotlin/org/veo/history/RevisionRepo.kt:28-29 | `filter` keeps exactly the elements that pass the test |
| RevisionQueries.FilterKeepsOrder | src/main/kotlin/org/veo/history/RevisionRepo.kt:28-29 | the filtered list is a subsequence of the list, in its order |
| RevisionQueries.FilterCounts | src/main/kotlin/org/veo/history/RevisionRepo.kt:28-29 | each passing element is kept as often as it occurs; no other element is kept |
| RevisionQueries.FindFirst | src/main/kotlin/org/veo/history/RevisionRepo.kt:32 | `firstOrNull` is null exactly when nothing matches; otherwise it is a match with no match before it |
| RevisionQueries.FindFirstAt | src/main/kotlin/org/veo/history/RevisionRepo.kt:32 | a match with no earlier match is what `firstOrNull` returns |
| RevisionQueries.FilterHead | src/main/kotlin/org/veo/history/RevisionRepo.kt:32 | the head of the filtered list is the first match; the filtered list is empty exactly when there is none |
| RevisionQueries.FindFirstOfFilter | src/main/kotlin/org/veo/history/RevisionRepo.kt:31-32 | searching the filtered list gives what searching the whole list for an element passing both tests gives |
| RevisionQueries.AtOrBefore | src/main/kotlin/org/veo/history/RevisionRepo.kt:35 | the predicate `{ it.time <= t }` |
| RevisionQueries.WithTime | src/main/kotlin/org/veo/history/RevisionRepo.kt:35 | the predicate "time equals t", the test used to state stability |
| RevisionQueries.WithChangeNumber | src/main/kotlin/org/veo/history/RevisionRepo.kt:32 | the predicate `{ it.changeNumber == n }` |
| RevisionQueries.InsertByTime | src/main/kotlin/org/veo/history/RevisionRepo.kt:35 | one insertion step of the sort adds exactly the element (multiset) |
| RevisionQueries.InsertKeepsBound | src/main/kotlin/org/veo/history/RevisionRepo.kt:35 | insertion keeps every element no later than a bound the element and the list respect |
| RevisionQueries.ConsSorted | src/main/kotlin/org/veo/history/RevisionRepo.kt:35 | a sorted list behind a head no earlier than all of it is sorted |
| RevisionQueries.InsertKeepsSorted | src/main/kotlin/org/veo/history/RevisionRepo.kt:35 | insertion keeps a list sorted by descending time |
| RevisionQueries.SortByTimeDescending | src/main/kotlin/org/veo/history/RevisionRepo.kt:35 | `sortedByDescending { it.time }` yields a permutation sorted by descending time |
| RevisionQueries.FilterConsKeep | src/main/kotlin/org/veo/history/RevisionRepo.kt:28-29 | a passing head stays at the front of the filtered list |
| RevisionQueries.FilterConsSkip | src/main/kotlin/org/veo/history/RevisionRepo.kt:28-29 | a failing head is dropped by the filter |
| RevisionQueries.FilterReplaceTail | src/main/kotlin/org/veo/history/RevisionRepo.kt:28-29 | replacing a tail by one with the same filtered contents keeps the filtered contents |
| RevisionQueries.InsertKeepsEqualTimeOrder | src/main/kotlin/org/veo/history/RevisionRepo.kt:35 | insertion puts the element in front of the elements of its own time, whose order is kept |
| RevisionQueries.InsertKeepsOtherTimes | src/main/kotlin/org/veo/history/RevisionRepo.kt:35 | insertion leaves the order of the elements of every other time as it was |
| RevisionQueries.SortIsStable | src/main/kotlin/org/veo/history/RevisionRepo.kt:35 | the sort is stable: for every instant, the revisions with that time keep their relative order |
| RevisionQueries.LatestAtOrBefore | src/main/kotlin/org/veo/history/RevisionRepo.kt:34-35 | sort-then-first is null exactly when every revision is later than t; otherwise it is at or before t, maximal in time, and the earliest-inserted of that time |
| RevisionQueries.LatestProperty | src/main/kotlin/org/veo/history/RevisionRepo.kt:35 | the first revision at or before t in the sorted list is the latest and earliest-inserted one |
| RevisionQueries.LatestIsMaximal | src/main/kotlin/org/veo/history/RevisionRepo.kt:35 | no revision at or before t is later than the one found |
| RevisionQueries.LatestIsEarliest | src/main/kotlin/org/veo/history/RevisionRepo.kt:35 | no revision inserted before the one found has its time |
| RevisionStore.HasKey | src/main/kotlin/org/veo/history/RevisionRepo.kt:39 | the `any` test: some stored revision, of any client, has that uri and change number; AddOutcome and AddKeepsKeysUnique are stated with it |
| RevisionStore.AddOutcome | src/main/kotlin/org/veo/history/RevisionRepo.kt:39-41 | `add` throws DuplicateRevisionException exactly when some stored revision of any client has the same uri and change number |
| RevisionStore.AfterAdd | src/main/kotlin/org/veo/history/RevisionRepo.kt:39-42 | a new key is appended at the end; a duplicate leaves the list as it was |
| RevisionStore.AddKeepsKeysUnique | src/main/kotlin/org/veo/history/RevisionRepo.kt:37-43 | `add` keeps `(uri, changeNumber)` unique over the list |
| RevisionStore.AddsKeepKeysUnique | src/main/kotlin/org/veo/history/RevisionRepo.kt:37-43 | any sequence of `add` calls keeps the keys unique |
| RevisionStore.OfResource | src/main/kotlin/org/veo/history/RevisionRepo.kt:29 | the predicate `{ it.clientId == clientId && it.uri == uri }` |
| RevisionStore.RevisionRepo.constructor | src/main/kotlin/org/veo/history/RevisionRepo.kt:26 | the store starts empty |
| RevisionStore.RevisionRepo.FindAll | src/main/kotlin/org/veo/history/RevisionRepo.kt:28-29 | exactly the stored revisions with that uri and client, in insertion order |
| RevisionStore.RevisionRepo.FindByChangeNumber | src/main/kotlin/org/veo/history/RevisionRepo.kt:31-32 | the first of the client's revisions of the uri with that change number, or null exactly when none exists |
| RevisionStore.RevisionRepo.FindAtTime | src/main/kotlin/org/veo/history/RevisionRepo.kt:34-35 | a revision of the client and uri at or before t with maximal time, earliest-inserted among equal times, or null exactly when all are later |
| RevisionStore.RevisionRepo.Add | src/main/kotlin/org/veo/history/RevisionRepo.kt:37-43 | reports a duplicate and leaves the list unchanged, or appends; key uniqueness is kept |
| RevisionStore.RevisionRepo.Clear | src/main/kotlin/org/veo/history/RevisionRepo.kt:45 | `clear` empties the list |
| RevisionStore.OwnRevisionFound | src/main/kotlin/org/veo/history/RevisionRepo.kt:28-32 | a stored revision is among its client's revisions of its uri and is the one found under its change number |
| RevisionStore.ClientIsolation | src/main/kotlin/org/veo/history/RevisionRepo.kt:28-35 | a client owning no stored revision gets empty answers to all three queries |
| RevisionStore.ExactTimeQuery | src/main/kotlin/org/veo/history/RevisionRepo.kt:34-35 | a query exactly at a stored revision's time, by its client, returns a revision of that time |
| RevisionStore.SecondAddIsDuplicate | src/main/kotlin/org/veo/history/RevisionRepo.kt:39-41 | a second add with the same key, from any client, is a duplicate and only the first is stored |
| RevisionStore.OtherResourceIsNoDuplicate | src/main/kotlin/org/veo/history/RevisionRepo.kt:39-42 | the same change number on another uri is accepted |
| MockStore.ProcessContent | src/main/kotlin/org/veo/history/MockRevisionRepo.kt:31-45 | the content map shared by the seeded process revisions: fixed creation data, placeholder domain, owner and id, with name, abbreviation, description, update stamp and sub type varying per revision |
| MockStore.Seed | src/main/kotlin/org/veo/history/MockRevisionRepo.kt:27-107 | the five seeded revisions in the source's order, each with the given client; SeedShape states their shape |
| MockStore.SeedShape | src/main/kotlin/org/veo/history/MockRevisionRepo.kt:27-107 | the seed is five revisions of one process, versions 1 to 5, non-decreasing times, unique keys; only the last is a hard deletion and only it has null content |
| MockStore.MockRevisionRepo.constructor | src/main/kotlin/org/veo/history/MockRevisionRepo.kt:26-27 | the store starts with the seed, for its one client |
| MockStore.MockRevisionRepo.FindAll | src/main/kotlin/org/veo/history/MockRevisionRepo.kt:109 | the whole list, whatever uri is asked for |
| MockStore.MockRevisionRepo.FindByVersion | src/main/kotlin/org/veo/history/MockRevisionRepo.kt:111 | the first revision with that version from any uri, or null exactly when none has it |
| MockStore.MockRevisionRepo.FindAtTime | src/main/kotlin/org/veo/history/MockRevisionRepo.kt:113-114 | a revision of maximal time at or before t across the whole list, or null exactly when t precedes every revision |
| MockStore.MockRevisionRepo.Add | src/main/kotlin/org/veo/history/MockRevisionRepo.kt:116-122 | duplicate on an existing `(uri, version)` with the list unchanged, otherwise appends |
| MockStore.SeedLatestIsVersionFour | src/main/kotlin/org/veo/history/MockRevisionRepo.kt:84-114 | at or after the shared last timestamp the seeded store answers version 4; before the first it answers null; on the first day it answers version 1 |
| MockStore.LatestOfSeedTimes | src/main/kotlin/org/veo/history/MockRevisionRepo.kt:113-114 | the same answers for any five revisions timed like the seed |
| MockStore.VersionLookupIgnoresUri | src/main/kotlin/org/veo/history/MockRevisionRepo.kt:109-114 | every lookup gives the same answer for any two uris |
| DomainService.IsDomainSpecificUri | src/main/kotlin/org/veo/history/DomainService.kt:35-36 | the regex matched in full: `/domains/<uuid>/<element type>/<uuid>`, as an existence of a decomposition; TryParseDomainSpecificUri decides it |
| DomainService.Matches | src/main/kotlin/org/veo/history/DomainService.kt:36-40 | the same match stated by positions (prefix, domain id, slash, element type, resource id); MatchIsDomainSpecific and DomainSpecificMatches prove it equivalent to IsDomainSpecificUri |
| DomainService.TryParseDomainSpecificUri | src/main/kotlin/org/veo/history/DomainService.kt:36-42 | non-null exactly when the whole text is `/domains/<uuid>/<type>/<uuid>` with a listed type; then the resource keeps the input, the first uuid is the domain, the main uri is `/<type>/<uuid>`, and prefix + matched id + main uri is the input |
| DomainService.MatchIsDomainSpecific | src/main/kotlin/org/veo/history/DomainService.kt:36-42 | a positional match is the domain-specific form, with the main uri as its suffix |
| DomainService.DomainSpecificMatches | src/main/kotlin/org/veo/history/DomainService.kt:36-40 | every text of the domain-specific form passes the positional match |
| DomainService.DomainEntry | src/main/kotlin/org/veo/history/DomainService.kt:64-66 | `remove("domains")?.get(key)` is the key's entry of an object `domains` field, and null otherwise |
| DomainService.ProjectContent | src/main/kotlin/org/veo/history/DomainService.kt:60-71 | fails exactly for non-object content or a non-object domain entry; otherwise keeps every field except the two dropped ones, overlaid by the entry's fields, which win |
| DomainService.NoEntryOnlyDrops | src/main/kotlin/org/veo/history/DomainService.kt:63-70 | without an entry for the domain, nothing is merged and only the two fields are dropped |
| DomainService.ProjectionIdempotent | src/main/kotlin/org/veo/history/DomainService.kt:63-70 | projecting a view again changes nothing unless the overlay brought back a dropped field |
| DomainService.ProjectionExample | src/main/kotlin/org/veo/history/DomainService.kt:63-70 | a process with two domain associations, seen from each domain and from a third |
| DomainService.Convert | src/main/kotlin/org/veo/history/DomainService.kt:52-72 | keeps id, change number, type, time and author, puts the domain-specific uri, keeps null content null and projects other content under the lower-case domain id, editing only a fresh copy |
| Json.Get | src/main/kotlin/org/veo/history/DomainService.kt:66 | `get(name)` is the field of an object that has it, and null for a missing field or a non-object |
| Json.JsonNode.Remove | src/main/kotlin/org/veo/history/DomainService.kt:63-65 | `remove` deletes the field and returns what it held |
| Json.JsonNode.SetAll | src/main/kotlin/org/veo/history/DomainService.kt:69 | `setAll` copies every field of the other node, overwriting |
| Json.JsonNode.DeepCopy | src/main/kotlin/org/veo/history/dtos/RevisionDto.kt:51 | `deepCopy` is a fresh node with an equal document |
| Dtos.RevisionDto.Content | src/main/kotlin/org/veo/history/dtos/RevisionDto.kt:50-51 | null content reads as null; otherwise every read is a fresh node deep-equal to the constructed content |
| Dtos.ReadEditRead | src/main/kotlin/org/veo/history/dtos/RevisionDto.kt:50-51 | editing what one read returned leaves the next read equal to the constructed content |
| DtoFactory.CreateDto | src/main/kotlin/org/veo/history/RevisionDtoFactory.kt:27-28 | the DTO id is the revision's uuid; the other fields and the content are copied unchanged |
| DtoFactory.CreateDtoForgetsOnlyClient | src/main/kotlin/org/veo/history/RevisionDtoFactory.kt:27-28 | two revisions give equal DTOs exactly when they differ at most in their client |
| DtoFactory.MapCreateDto | src/main/kotlin/org/veo/history/RevisionDtoFactory.kt:34 | `items.map(::createDto)` has the same length, and item i is the DTO of item i |
| DtoFactory.CreatePageDto | src/main/kotlin/org/veo/history/RevisionDtoFactory.kt:30-36 | total count unchanged whatever the item count; item i of the DTO page is the DTO of item i |
| DtoFactory.MapCreateDtoAppend | src/main/kotlin/org/veo/history/RevisionDtoFactory.kt:34 | mapping a concatenation maps each part |
| Uuids.IsUuidText | src/main/kotlin/org/veo/history/AuthService.kt:27 | the UUID pattern: 8-4-4-4-12 hex digits of either case with dashes between; UuidTextRoundTrip shows every written UUID has it |
| Uuids.ParseUuid | src/main/kotlin/org/veo/history/AuthService.kt:45 | `UUID.fromString` on text of the hex shape reads each hex digit |
| Uuids.UuidToString | src/main/kotlin/org/veo/history/DomainService.kt:66 | `UUID.toString` writes 36 characters |
| Uuids.UuidTextRoundTrip | src/main/kotlin/org/veo/history/AuthService.kt:27 | writing a UUID in lower or upper case gives text of the hex shape that parses back to it |
| Uuids.ParseThenWrite | src/main/kotlin/org/veo/history/DomainService.kt:42 | parsing then writing gives the text with its hex digits in lower case |
| Auth.IsClientGroup | src/main/kotlin/org/veo/history/AuthService.kt:28 | the client-group regex matched in full: `/veo_client:` then UUID text and nothing else; ClientGroupRoundTrip, PrefixedGroupIsNoClientGroup and WholeGroupOnly pin it |
| Auth.ClientGroupMatches | src/main/kotlin/org/veo/history/AuthService.kt:42 | `mapNotNull(matchEntire)` yields UUID texts, none exactly when no group is a client group |
| Auth.ExtractClientId | src/main/kotlin/org/veo/history/AuthService.kt:40-46 | fails with the number of matches whenever it is not one |
| Auth.GetClientId | src/main/kotlin/org/veo/history/AuthService.kt:31-38 | a non-JWT and a JWT without groups are the two IllegalArgumentExceptions; otherwise extraction from the groups |
| Auth.OneMatchIsUnique | src/main/kotlin/org/veo/history/AuthService.kt:42-43 | one match comes from the only client group among the groups |
| Auth.UniqueGivesOneMatch | src/main/kotlin/org/veo/history/AuthService.kt:42-43 | the only client group gives exactly one match |
| Auth.TwoGroupsGiveTwoMatches | src/main/kotlin/org/veo/history/AuthService.kt:42-43 | two client groups give at least two matches |
| Auth.ExtractClientIdExactlyOne | src/main/kotlin/org/veo/history/AuthService.kt:40-46 | a tenant is found exactly when exactly one group is a client group, and it is that group's UUID |
| Auth.ClientGroupRoundTrip | src/main/kotlin/org/veo/history/AuthService.kt:27-45 | `/veo_client:<u>` in lower or upper case is a client group and yields u |
| Auth.PrefixedGroupIsNoClientGroup | src/main/kotlin/org/veo/history/AuthService.kt:28 | a group starting with "x" never matches |
| Auth.OtherGroupsIgnored | src/main/kotlin/org/veo/history/AuthService.kt:40-46 | non-matching groups around one client group, in any position, still yield that client |
| Auth.TwoClientGroupsFail | src/main/kotlin/org/veo/history/AuthService.kt:43 | two or more client groups are an IllegalArgumentException |
| Auth.NoClientGroupFails | src/main/kotlin/org/veo/history/AuthService.kt:43 | no client group is an IllegalArgumentException reporting 0 |
| Auth.WholeGroupOnly | src/main/kotlin/org/veo/history/AuthService.kt:28 | leading or trailing extra characters make a client group non-matching |
| Revisions.RevisionTypeOf | src/main/kotlin/org/veo/history/MessageSubscriber.kt:132 | `RevisionType.valueOf` succeeds exactly for a constant's name, and returns that constant |
| Messaging.StringField | src/main/kotlin/org/veo/history/MessageSubscriber.kt:108 | `get(name).asString()` is the text of a text field; a missing field and any other node fail |
| Messaging.LongField | src/main/kotlin/org/veo/history/MessageSubscriber.kt:142 | `get(name).asLong()` is the number of a number field; a missing field fails |
| Messaging.ReadEvent | src/main/kotlin/org/veo/history/MessageSubscriber.kt:102-106 | the event is the envelope's `content` text, parsed a second time |
| Messaging.EnvelopeRoundTrip | src/main/kotlin/org/veo/history/MessageSubscriber.kt:102-106 | with a parser that reads back what a writer wrote, the event read from an envelope is the event put in |
| Messaging.EventMustBeText | src/main/kotlin/org/veo/history/MessageSubscriber.kt:104-105 | an envelope carrying the event as an object instead of a text fails |
| Messaging.HandlerFor | src/main/kotlin/org/veo/history/MessageSubscriber.kt:62-96 | the revision listener knows only `entity_revision` and the subscription listener only `client_change` |
| Messaging.VersioningStep | src/main/kotlin/org/veo/history/MessageSubscriber.kt:129-147 | rejects exactly a non-deletion without a `content` field whose uri is readable; an accepted revision carries the payload's fields and content (a deletion or with content) |
| Messaging.BuildRevision | src/main/kotlin/org/veo/history/MessageSubscriber.kt:139-147 | the constructed revision's fields are the parsed payload fields |
| Messaging.ClientChangeStep | src/main/kotlin/org/veo/history/MessageSubscriber.kt:121-127 | `DELETION` asks to delete the parsed client's revisions; any other type asks nothing |
| Messaging.Dispatch | src/main/kotlin/org/veo/history/MessageSubscriber.kt:98-113 | only the revision listener stores and rejects, only the subscription listener deletes or ignores, and only after reading the event |
| Messaging.Complete | src/main/kotlin/org/veo/history/MessageSubscriber.kt:114-118 | rejections pass through, a duplicate becomes reject-without-requeue, every other failure is wrapped, nothing propagates unwrapped |
| Messaging.RevisionEventOutcome | src/main/kotlin/org/veo/history/MessageSubscriber.kt:129-147 | a well-formed event gives the revision with the payload's values when it has content or is a hard deletion, and is rejected otherwise |
| Messaging.UnknownEventTypeIsWrapped | src/main/kotlin/org/veo/history/MessageSubscriber.kt:110-118 | an event type missing from the listener's table ends as a wrapped NotImplementedError |
| Messaging.ClientChangeOutcome | src/main/kotlin/org/veo/history/MessageSubscriber.kt:121-127 | `DELETION` deletes the named client, any other type is ignored, and the revision listener wraps the event |
| Messaging.DuplicateIsRejected | src/main/kotlin/org/veo/history/MessageSubscriber.kt:149-154 | a revision whose key is stored is rejected without requeue and the store is unchanged |
| Messaging.MessageSubscriber.constructor | src/main/kotlin/org/veo/history/MessageSubscriber.kt:39-42 | the listeners share the given repository |
| Messaging.MessageSubscriber.HandleVeoMessage | src/main/kotlin/org/veo/history/MessageSubscriber.kt:62-69 | the outcome and the new store are those of dispatching on the revision listener's table and calling `add` at most once |
| Messaging.MessageSubscriber.HandleSubscriptionMessage | src/main/kotlin/org/veo/history/MessageSubscriber.kt:89-96 | the outcome of the subscription table; the store is never changed |
| Messaging.MessageSubscriber.Handle | src/main/kotlin/org/veo/history/MessageSubscriber.kt:98-119 | `add` is called only for a stored revision, and its answer decides the outcome |
| EntityEvents.AsText | src/main/kotlin/org/veo/history/EventSubscriber.kt:62 | Jackson 2 `asText` is a text's text and empty for arrays and objects |
| EntityEvents.TextField | src/main/kotlin/org/veo/history/EventSubscriber.kt:59-67 | `get(name).asText()` fails only for a missing field |
| EntityEvents.LongField | src/main/kotlin/org/veo/history/EventSubscriber.kt:64 | `get(name).asLong()` fails only for a missing field, reads numbers and text, and is 0 for null and containers |
| EntityEvents.ReadEntityEvent | src/main/kotlin/org/veo/history/EventSubscriber.kt:57-59 | the event is the envelope's `content` text, parsed a second time |
| EntityEvents.EnvelopeRoundTrip | src/main/kotlin/org/veo/history/EventSubscriber.kt:57-59 | the event read from an envelope is the event put in |
| EntityEvents.EventRevision | src/main/kotlin/org/veo/history/EventSubscriber.kt:60-70 | the revision copies uri, type, change number, time, author, client and content from the event |
| EntityEvents.EntityEventRevision | src/main/kotlin/org/veo/history/EventSubscriber.kt:57-70 | reading failures come first; otherwise the event's revision |
| EntityEvents.Complete | src/main/kotlin/org/veo/history/EventSubscriber.kt:71-78 | a duplicate becomes reject-without-requeue; every other failure propagates unchanged, never wrapped |
| EntityEvents.MissingContentIsStored | src/main/kotlin/org/veo/history/EventSubscriber.kt:68 | missing content is stored as null whatever the revision type |
| EntityEvents.WellFormedEventIsRevision | src/main/kotlin/org/veo/history/EventSubscriber.kt:60-70 | an event with every field present whose `asText` values the parsers accept gives the revision with those values, the change number being its `asLong` value, number or text |
| EntityEvents.NumericChangeNumberIsStored | src/main/kotlin/org/veo/history/EventSubscriber.kt:64 | a numeric `changeNumber`, as events carry it, is stored as that number |
| EntityEvents.EventSubscriber.constructor | src/main/kotlin/org/veo/history/EventSubscriber.kt:38 | the listener uses the given repository |
| EntityEvents.EventSubscriber.HandleEntityEvent | src/main/kotlin/org/veo/history/EventSubscriber.kt:56-80 | `add` of the event's revision, with the store and the outcome that call decides |

## Left out

- Logging, including the debug line of `EventSubscriber.kt:58`. That line also reads the `id` field, which fails when the field is missing and debug logging is on.
- The RabbitMQ listener annotations and queue bindings, and the check that listeners return `Unit`. These are transport wiring.
- The Jackson text parser, `URI.create`, `Instant.parse` and `UUID.fromString`. They are parameters of the model (`Ingestion.Libs`). Only their success or failure is used.
- Messaging.StringField and Messaging.LongField treat every non-text node (non-number for `asLong`) as a failure. Jackson 3 may coerce some scalars to text or numbers; that coercion is not modelled.
- Change numbers are 64-bit `Long` in the source. The model uses unbounded integers, so overflow and the truncation of fractional JSON numbers by `asLong` are not modelled. JSON numbers are integers only; floating point is not modelled.
- URI equality: the stores compare `java.net.URI` values with `==` (`RevisionRepo.kt:29`, `RevisionRepo.kt:39`, `MockRevisionRepo.kt:118`), and `URI.equals` ignores the case of the scheme, the host and the hex digits of percent-escapes. The model compares URIs as strings, so `/processes/a%2fb` and `/processes/a%2Fb` are different resources here: the model stores as new a revision the source rejects as a duplicate, and answers nothing where the source finds a revision.
- RevisionStore.RevisionRepo.Add: one atomic step. The source's `add` (`RevisionRepo.kt:37-43`) checks, then appends to an unsynchronised `mutableListOf`; two listener threads can interleave between the check and the append. RevisionStore.AddsKeepKeysUnique therefore covers only adds made one after another.
- JSON object key order is not modelled. `setAll` and `remove` are modelled on maps.
- Messaging.MessageSubscriber.HandleSubscriptionMessage: `deleteAllClientRevisions` is called by the client-change handler but defined in none of the modelled files. It appears only as the `Deleted(clientId)` outcome naming the parsed client; the store is not changed.
- Failures of `add` other than a duplicate, such as an IOException from a database-backed repository, are the `StorageError` answer. Both listeners' translation of it is proved for any answer of `add`. The in-memory store never gives it.
- Random ids: `UUID.randomUUID()` for a new revision and for the mock store's client is an argument. The seeded mock revisions carry the nil UUID, because the record type they were written against had none.
- The historical `Revision.kt` (url/version) and `RevisionMapper.kt` are not part of this model. One `Revision` datatype stands for all versions, with the fields the core files use. The `RevisionType` enum lies outside the modelled sources; its constants are assumed to be `CREATION`, `MODIFICATION` and `HARD_DELETION`.
- Aliasing of the node passed to the `RevisionDto` constructor: the DTO keeps its content as a value, so later edits by whoever built the DTO are not modelled. Every read still hands out a fresh copy.
- The JPA repository, the migrations, Hibernate configuration, the REST controller, web security, seek pagination and the "my latest" query. These are storage and framework code, and no pagination implementation appears in the modelled files.
