# Timetable & Resources backend — a Dafny model of its request handlers

The backend keeps three collections in a document store: timetable entries, learning resources,
and student questions ("doubts"). Each collection has a create, a filtered list, and one more
operation. Timetable entries and resources have a delete-by-id. Doubts have an "answer" update
instead.

This project models the request handlers of `main.py` and the three schemas of `schemas.py`. The
document store is abstract and in memory: a map from collection name to a table of documents
keyed by id.

- `wrappers.dfy`, `errors.dfy`, `text.dfy`: Option/Result, the error kinds, and ASCII
  lower-casing.
- `object_ids.dfy`: ObjectIds as twelve bytes, `str(oid)` as 24 lower-case hex digits, and the
  parse `ObjectId(s)`, which accepts 24 hex digits of either case.
- `documents.dfy`: untyped documents (`map<string, Value>`) and exact-match filters. Request
  bodies and stored documents share this type.
- `store.dfy`: value-level functions for insert, delete and `$set` update, plus the class
  `DocumentStore`. Its methods `InsertOne`, `Find`, `DeleteOne` and `UpdateOne` stand in for
  `create_document`, `get_documents` and `db[...]`.
- `schemas.py` is modelled twice in `schemas.dfy`. Each schema is a declarative map from field name
  to constraint, and there is a typed validator for each entity. Their contracts tie the two
  together. `SchemaOf`/`ValidatedDocument` give the document that is stored for a valid body.
- `handlers.dfy`: `ensure_object_id`, the list filter, the `_id` → `id` rename, and one
  `...Reply` function per request kind. Each function gives the response and the collections left
  behind. The handler methods run against a `DocumentStore` and are proved equal to those
  functions. The list handlers do the rename in a loop over the found documents, as the source
  does.
- `schema_properties.dfy`, `handler_properties.dfy`: lemmas that relate several requests, or a
  request to the contents of the store.

The handler methods also include the framework's validation step for create and answer
requests. A body that fails its schema gets a `ValidationError` carrying the offending fields, and
the store is not touched. For an answer, body validation (422) comes before the id check (400),
which comes before the lookup (404). That is the order in which FastAPI and the handler run.

Deliberate choices:
- The id of a new document comes from the driver. Here it is a parameter, `newId`. If that id is
  already taken in the collection, the insert is refused (`WriteRejected`) and nothing changes.
- `get_documents` returns its documents in an order the store picks. The model's `Find` takes
  them out of a set one at a time. The lemmas hold for any listing order (`IsListing`).
- The model follows the code in these cases, which a reader might not expect:
  - A doubt may be submitted with `status: "answered"`.
  - `subject` may be the empty string.
  - Answering an already answered doubt succeeds and overwrites the answer.

## Model

| member | source | states |
|---|---|---|
| Text.Lower | schemas.py:4-5 | the result has the input's length and each character lower-cased (the rule collection names follow) |
| ObjectIds.IdString | main.py:78 | `str(oid)` is a well-formed id string of 24 lower-case hex digits |
| ObjectIds.Parse | main.py:26-28 | a string denotes an ObjectId exactly when it is 24 hex digits; the id's string form is the input lower-cased |
| ObjectIds.ParseIdString | main.py:78 | the string form of an id parses back to that id |
| ObjectIds.IdStringInjective | main.py:78 | distinct ids have distinct string forms |
| ObjectIds.ParseIgnoresCase | main.py:26-28 | parsing a string and its lower-cased form give the same result |
| Store.Insert | main.py:68 | inserting puts the document under the new id in that collection only |
| Store.Remove | main.py:85 | `delete_one` removes that id from that collection only; an absent id leaves everything unchanged |
| Store.Update | main.py:141 | `update_one` with `$set` merges the fields into that document only; an absent id leaves everything unchanged |
| Store.UpdateTwice | main.py:140-141 | two `$set` updates of one document equal one update with the fields of both, the later value winning |
| Store.DocumentStore.InsertOne | main.py:68 | a fresh id is inserted and returned; a taken id is refused and the store is unchanged |
| Documents.Matches | main.py:74-75 | a `{field: value}` filter matches exactly the documents in which that field holds that string; null, ids and non-strings never match |
| Store.RawDocFields | main.py:75-78 | a document as the store returns it is the stored fields plus `_id` holding its id, and nothing else differs |
| Store.DocumentStore.Find | main.py:75 | returns each document of the collection that matches the filter, exactly once, with its id under `_id` |
| Store.DocumentStore.DeleteOne | main.py:85-86 | `deleted_count` is 1 when the id was present and 0 otherwise; the new state is `Remove` of the old |
| Store.DocumentStore.UpdateOne | main.py:141-142 | `matched_count` is 1 when the id was present and 0 otherwise; the new state is `Update` of the old |
| Schemas.CollectionNames | schemas.py:4-5 | lower-casing the class names gives "timetable", "resource" and "doubt" |
| Schemas.CollectionNamesDistinct | schemas.py:13 | no two schemas share a collection |
| Schemas.DayFromName | schemas.py:15 | a day name is accepted exactly when it is one of the seven weekday literals |
| Schemas.StatusFromName | schemas.py:41 | a status is accepted exactly when it is "open" or "answered" |
| Schemas.ReadString | schemas.py:16-18 | a required string field fails exactly when it is missing or not a string |
| Schemas.ReadOptional | schemas.py:19-20 | an optional field is None when missing or null, its string when a string, and fails otherwise |
| Schemas.ReadDay | schemas.py:15 | `day` fails unless it is present and one of the weekday literals |
| Schemas.ReadStatus | schemas.py:41 | `status` defaults to open when missing, and otherwise must be "open" or "answered" |
| Schemas.ValidateTimetable | schemas.py:10-20 | accepted exactly when no field breaks the Timetable schema; the error names every field that does; an accepted entry carries the body's values, with None for missing optionals |
| Schemas.TimetableDocument | schemas.py:10-20 | the stored document has exactly the schema's fields |
| Schemas.TimetableRoundTrip | schemas.py:10-20 | a stored entry validates back to the entry |
| Schemas.ValidateResource | schemas.py:22-30 | accepted exactly when no field breaks the Resource schema; the error names every field that does; optionals default to None |
| Schemas.ResourceDocument | schemas.py:22-30 | the stored document has exactly the schema's fields |
| Schemas.ResourceRoundTrip | schemas.py:22-30 | a stored resource validates back to the resource |
| Schemas.ValidateDoubt | schemas.py:32-41 | accepted exactly when no field breaks the Doubt schema; the error names every field that does; missing status is open |
| Schemas.DoubtDocument | schemas.py:32-41 | the stored document has exactly the schema's fields |
| Schemas.DoubtRoundTrip | schemas.py:32-41 | a stored doubt validates back to the doubt |
| Schemas.FieldAccepted | schemas.py:15-41 | the per-field rule of a declaration: a required `str` must be a present string, an `Optional[str]` may be left out, null or a string, a `Literal` must be one of its strings, and a defaulted `Literal` may also be left out |
| Schemas.Rejected | schemas.py:15-41 | the fields a body breaks; only declared fields are ever named, and an accepted field never is |
| Schemas.RejectedAdd | schemas.py:15-41 | fields are checked independently: declaring one more field adds it to the rejected ones exactly when the body breaks it |
| Schemas.TimetableAccepts | schemas.py:15-20 | `Timetable` declares exactly its six fields, and a body is accepted exactly when `day` is one of the seven names, the three required fields are strings and the two optional ones are left out, null or strings |
| Schemas.ResourceAccepts | schemas.py:27-30 | `Resource` declares exactly its four fields, and a body is accepted exactly when `title` is a string and the three optional fields are left out, null or strings |
| Schemas.DoubtAccepts | schemas.py:37-41 | `Doubt` declares exactly its five fields, and a body is accepted exactly when `question` is a string, the three optional fields are left out, null or strings, and a given `status` is "open" or "answered" |
| Schemas.TimetableStoresBody | schemas.py:15-20 | each field stored for a valid entry is the body's value, or null when the body left an optional field out |
| Schemas.ResourceStoresBody | schemas.py:27-30 | each field stored for a valid resource is the body's value, or null when the body left an optional field out |
| Schemas.DoubtStoresBody | schemas.py:37-41 | each field stored for a valid doubt is the body's value, null for a left-out optional field, and "open" for a left-out `status` |
| Schemas.ValidatedDocument | schemas.py:10-41 | for any kind, a body is stored exactly when it has no rejected field, and the error names exactly the rejected fields; what is stored has exactly the schema's fields, each holding the body's value, null for a left-out optional field or "open" for a left-out `status` |
| SchemaProperties.DayOutsideWeekRejected | schemas.py:15 | a day outside the seven names is refused, `day` is named in the error, and no document results |
| SchemaProperties.FundayRejected | schemas.py:15 | "Funday" is refused |
| SchemaProperties.TimesNotChecked | schemas.py:17-20 | any start and end strings are accepted, with no format or order check; location and notes default to None |
| SchemaProperties.EndBeforeStartAccepted | schemas.py:17-18 | an entry ending at 09:00 and starting at 10:00 is accepted |
| SchemaProperties.TimetableRequiresFields | schemas.py:15-18 | day, subject, start_time and end_time are each required to be present strings |
| SchemaProperties.ResourceNeedsOnlyTitle | schemas.py:27-30 | a title alone makes a resource, with url, topic and description None |
| SchemaProperties.ResourceRequiresTitle | schemas.py:27 | a resource without a string title is refused, naming `title` |
| SchemaProperties.DoubtDefaults | schemas.py:37-41 | a question alone makes a doubt with no student name, no answer, no answerer, and status open |
| SchemaProperties.DoubtMayArriveAnswered | schemas.py:41 | a doubt submitted with status "answered" is accepted as answered |
| SchemaProperties.DoubtStatusClosed | schemas.py:41 | any status other than "open" or "answered" is refused, naming `status` |
| SchemaProperties.DoubtRequiresQuestion | schemas.py:37 | a doubt without a string question is refused, naming `question` |
| SchemaProperties.ExtraFieldsIgnored | schemas.py:10-41 | fields outside a schema do not change what validation gives |
| SchemaProperties.StoredDocumentRevalidates | schemas.py:10-41 | the stored document of a valid body validates to itself again |
| Handlers.EnsureObjectId | main.py:26-30 | returns an id exactly for a well-formed id string, "Invalid id" otherwise |
| Handlers.ListFilter | main.py:74 | a document matches exactly when the query is missing or empty, or the field holds exactly the query |
| Handlers.Exposed | main.py:77-78 | a listed document has `id` equal to the string form of its id, no `_id`, and every other field unchanged |
| Handlers.CreateReply | main.py:66-69 | a refused body changes nothing; a taken id is refused and changes nothing; otherwise one document is added under the new id, the reply is exactly `{id: str(new id)}`, that string parses back to the id, and other collections are unchanged |
| Handlers.DeleteReply | main.py:82-88 | malformed id: 400 and unchanged; absent id: 404 and unchanged; present id: `{ok: true}`, exactly that document removed, other collections unchanged |
| Handlers.ValidateAnswerPayload | main.py:132-134 | `answer` must be a present string; `answered_by` is optional; the error names the offending fields |
| Handlers.AnswerFields | main.py:140 | the `$set` document holds exactly `answer`, `answered_by` and `status`; `status` is "answered", and the other two read back as the payload they came from |
| Handlers.AnswerReply | main.py:137-144 | refused body: unchanged; malformed id: 400 and unchanged; absent doubt: 404 and unchanged; present doubt: `{ok: true}` and the `$set` update applied |
| Handlers.CreateDocument | main.py:66-69 | the store ends as CreateReply says, and the handler returns what it says |
| Handlers.RenameIds | main.py:77-78 | the loop turns the found documents, each the stored one plus `_id`, into exactly their listing forms, in the same order |
| Handlers.ListCollection | main.py:72-79 | returns every matching document of the collection exactly once, each renamed by Exposed |
| Handlers.DeleteDocument | main.py:82-88 | the store ends as DeleteReply says, and the handler returns what it says |
| Handlers.CreateTimetable | main.py:66-69 | POST /api/timetable: validation against Timetable, then a create in "timetable" |
| Handlers.ListTimetable | main.py:72-79 | GET /api/timetable: a listing of "timetable" filtered on `day` |
| Handlers.DeleteTimetable | main.py:82-88 | DELETE /api/timetable/{id}: behaves as DeleteReply on "timetable" |
| Handlers.CreateResource | main.py:92-95 | POST /api/resources: validation against Resource, then a create in "resource" |
| Handlers.ListResources | main.py:98-104 | GET /api/resources: a listing of "resource" filtered on `topic` |
| Handlers.DeleteResource | main.py:107-113 | DELETE /api/resources/{id}: behaves as DeleteReply on "resource" |
| Handlers.CreateDoubt | main.py:117-120 | POST /api/doubts: validation against Doubt, then a create in "doubt" |
| Handlers.ListDoubts | main.py:123-129 | GET /api/doubts: a listing of "doubt" filtered on `status` |
| Handlers.AnswerDoubt | main.py:137-144 | PATCH /api/doubts/{id}: behaves as AnswerReply on the validated payload |
| HandlerProperties.HandlersUseSchemaCollections | main.py:68 | the collection names the handlers use are the lower-cased schema class names |
| HandlerProperties.MalformedIdTouchesNothing | main.py:84 | a malformed id fails delete and answer with 400 before the store is touched |
| HandlerProperties.ListedIdNamesDocument | main.py:78 | the `id` a listing shows parses back to the document's id |
| HandlerProperties.DeleteByListedId | main.py:109-113 | deleting by a stored id's string form returns `{ok: true}` and removes exactly that document |
| HandlerProperties.DeleteTwiceNotFound | main.py:86-87 | a repeated delete of the same id is 404 (400 if malformed) and changes nothing |
| HandlerProperties.AnswerSetsOnlyItsFields | main.py:140-141 | answering sets answer, answered_by and status "answered", and nothing else in that doubt, any other doubt, or any other collection |
| HandlerProperties.AnswerOverwrites | main.py:141-142 | an already answered doubt can be answered again; the result is as if only the last answer was given |
| HandlerProperties.AnswerIsTransition | main.py:140 | on a stored doubt, the update is the doubt with the answer, the answerer and status answered |
| HandlerProperties.AnswerMovesBetweenListings | main.py:124-125 | after an answer the doubt is in no status=open listing and in every status=answered listing |
| HandlerProperties.RepeatedCreatesDistinct | main.py:117-120 | two successful creates of the same document make two records with different returned ids |
| HandlerProperties.RefusedBodyNotStored | main.py:66-68 | a body its schema refuses gives a validation error and stores nothing |
| HandlerProperties.CreatedIsListed | main.py:92-104 | after a create, every unfiltered listing shows the new document with the returned id and its fields |
| HandlerProperties.OtherCollectionsUnaffected | main.py:85 | create, delete and answer leave every other collection unchanged |
| HandlerProperties.UnfilteredListingIsWholeCollection | main.py:100-101 | with no query or an empty one, a listing holds each document of the collection once (same count) |
| HandlerProperties.FilteredListingIsExact | main.py:74-75 | with a query, every listed document holds exactly the query value, and every such document is listed |
| HandlerProperties.StatusQuerySelects | main.py:125 | a status query selects exactly the doubts in that state |
| HandlerProperties.DayQuerySelects | main.py:74 | a day query selects exactly the entries of that day; an unknown day selects none |
| HandlerProperties.QuestionCreatesOpenDoubt | main.py:117-120 | a question alone is stored as an open, unanswered doubt and its id is returned |
| HandlerProperties.DoubtLifecycle | main.py:117-144 | a new question is in the open listing; after an answer through its returned id, it is stored as an answered doubt and is in the answered listing |

## Left out

- The root message and the diagnostics endpoint `test_database` (main.py:33-62): status
  reporting over live database introspection and environment variables.
- CORS middleware and uvicorn startup (main.py:13-19, 147-150): framework and process
  configuration.
- `IDModel` (main.py:22-23): declared but never used by any handler.
- `database.py` is not part of this model. `create_document` and `get_documents` are modelled as an
  abstract insert and exact-match find. Any extra fields they might add, such as timestamps, are not
  modelled.
- The case where the database handle is `None`, and store failures other than a duplicate id.
  The handlers do not check for an absent handle.
- Generating ObjectIds (time, counter, randomness). The new id is a parameter.
- ObjectId parsing is modelled as 24 hexadecimal digits only. bson's `bytes.fromhex`, which
  skips whitespace inside a 24-character string, is not modelled.
- Pydantic and FastAPI machinery beyond field checks:
  - JSON decoding, and bodies that are not objects.
  - Type coercion.
  - The wording of error details.
  - HTTP status codes, beyond the error kinds and their comments in `errors.dfy`.
- The lists returned by the list handlers carry a ghost sequence of ids. It exists only to state
  their order-independent contracts.
- Concurrency: requests are modelled one at a time, so races such as two answers at once are not
  modelled.
- Non-ASCII case folding: `Lower` folds only ASCII letters. This is enough for the class names.
