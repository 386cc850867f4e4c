/**
 * The request handlers of the backend, against a DocumentStore. For each request the function
 * `...Reply` says what it answers and which collections it leaves behind; the methods perform it
 * on the store and are proved to agree with those functions.
 */
module Handlers {
  import opened Wrappers
  import opened Errors
  import opened ObjectIds
  import opened Documents
  import opened Store
  import opened Schemas
  import Text

  const TimetableCollection: string := "timetable"
  const ResourceCollection: string := "resource"
  const DoubtCollection: string := "doubt"

  /** `{"id": ...}` */
  datatype IdBody = IdBody(id: string)

  /** `{"ok": True}` */
  datatype OkBody = OkBody(ok: bool)

  /** What a request answers, and the collections it leaves behind. */
  datatype Reply<T> = Reply(result: Result<T, Error>, db: Collections)

  // ---------------------------------------------------------------------------------------------
  // Helpers

  /** `ensure_object_id`: the id a path segment names, or "Invalid id". */
  function EnsureObjectId(s: string): (r: Result<ObjectId, Error>)
    ensures r.Ok? <==> WellFormedId(s)
    ensures r.Err? ==> r.error == BadId
    ensures r.Ok? ==> IdString(r.value) == Text.Lower(s)
  {
    match Parse(s)
    case Some(oid) => Ok(oid)
    case None => Err(BadId)
  }

  /** `{field: query} if query else {}`: a missing or empty query selects every document. */
  function ListFilter(field: string, query: Option<string>): (f: Filter)
    ensures forall d :: Matches(f, d) <==>
      (query.None? || query.value == "" || (field in d && d[field] == Str(query.value)))
  {
    if query.Some? && query.value != "" then FieldEq(field, query.value) else All
  }

  /** A document as a listing returns it: `_id` dropped, its string form under `id`. */
  function Exposed(id: ObjectId, d: Doc): (r: Doc)
    ensures "id" in r && r["id"] == Str(IdString(id))
    ensures "_id" !in r
    ensures forall f :: f != "id" && f != "_id" ==> (f in r <==> f in d)
    ensures forall f :: f != "id" && f != "_id" && f in d ==> r[f] == d[f]
  {
    (d - {"_id"})["id" := Str(IdString(id))]
  }

  lemma ExposedRawDoc(id: ObjectId, d: Doc)
    ensures Exposed(id, RawDoc(id, d)) == Exposed(id, d)
  {
    assert RawDoc(id, d) - {"_id"} == d - {"_id"};
  }

  /** Renaming a found document's `_id` gives the listing form of the stored document. */
  lemma RenameRawDoc(id: ObjectId, stored: Doc, d: Doc)
    requires d == RawDoc(id, stored)
    ensures "_id" in d && d["_id"].Oid? && Exposed(d["_id"].id, d) == Exposed(id, stored)
  {
    ExposedRawDoc(id, stored);
  }

  /** The documents of `table` with ids `ids`, in that order, as a listing returns them. */
  function ExposedAll(table: Table, ids: seq<ObjectId>): (r: seq<Doc>)
    requires forall i :: 0 <= i < |ids| ==> ids[i] in table
  {
    seq(|ids|, i requires 0 <= i < |ids| => Exposed(ids[i], table[ids[i]]))
  }

  /** Every listed document carries its id string under `id` and no `_id`. */
  lemma ExposedAllShape(table: Table, ids: seq<ObjectId>)
    requires forall i :: 0 <= i < |ids| ==> ids[i] in table
    ensures forall i :: 0 <= i < |ids| ==>
      "id" in ExposedAll(table, ids)[i] && ExposedAll(table, ids)[i]["id"].Str?
      && "_id" !in ExposedAll(table, ids)[i]
  {
  }

  // ---------------------------------------------------------------------------------------------
  // What each request does

  /**
   * A create request: `body` is the request body after validation (an error when the framework
   * refused it, so the handler never runs); `newId` is the id the driver generates.
   */
  function CreateReply(db: Collections, name: string, body: Result<Doc, Error>, newId: ObjectId)
    : (r: Reply<IdBody>)
    ensures body.Err? ==> r == Reply(Err(body.error), db)
    ensures body.Ok? && newId in TableOf(db, name) ==> r == Reply(Err(WriteRejected), db)
    ensures body.Ok? && newId !in TableOf(db, name) ==>
      && r.result == Ok(IdBody(IdString(newId))) && Parse(r.result.value.id) == Some(newId)
      && TableOf(r.db, name) == TableOf(db, name)[newId := body.value]
      && |TableOf(r.db, name)| == |TableOf(db, name)| + 1
      && (forall n :: n != name ==> TableOf(r.db, n) == TableOf(db, n))
  {
    match body
    case Err(e) => Reply(Err(e), db)
    case Ok(doc) =>
      if newId in TableOf(db, name) then
        Reply(Err(WriteRejected), db)
      else
        ParseIdString(newId);
        Reply(Ok(IdBody(IdString(newId))), Insert(db, name, newId, doc))
  }

  /** A delete request for the document whose id has string form `idStr`. */
  function DeleteReply(db: Collections, name: string, idStr: string): (r: Reply<OkBody>)
    ensures !WellFormedId(idStr) ==> r == Reply(Err(BadId), db)
    ensures WellFormedId(idStr) && Parse(idStr).value !in TableOf(db, name) ==>
      r == Reply(Err(NotFound), db)
    ensures WellFormedId(idStr) && Parse(idStr).value in TableOf(db, name) ==>
      && r.result == Ok(OkBody(true))
      && TableOf(r.db, name) == TableOf(db, name) - {Parse(idStr).value}
      && |TableOf(r.db, name)| == |TableOf(db, name)| - 1
      && (forall n :: n != name ==> TableOf(r.db, n) == TableOf(db, n))
  {
    match EnsureObjectId(idStr)
    case Err(e) => Reply(Err(e), db)
    case Ok(oid) =>
      if oid in TableOf(db, name) then Reply(Ok(OkBody(true)), Remove(db, name, oid))
      else Reply(Err(NotFound), db)
  }

  /** `AnswerPayload`: the body of an answer request. */
  datatype AnswerPayload = AnswerPayload(answer: string, answeredBy: Option<string>)

  const AnswerPayloadSchema: Schema := map["answer" := Required, "answered_by" := Optional]

  function ValidateAnswerPayload(b: Doc): (r: Result<AnswerPayload, Error>)
    ensures r.Ok? <==> Rejected(AnswerPayloadSchema, b) == {}
    ensures r.Err? ==> r.error == ValidationError(Rejected(AnswerPayloadSchema, b))
    ensures r.Ok? ==>
      Given(b, "answer") == Some(r.value.answer) && r.value.answeredBy == Given(b, "answered_by")
  {
    var answer, answeredBy := ReadString(b, "answer"), ReadOptional(b, "answered_by");
    var bad := Offending(answer) + Offending(answeredBy);
    assert Rejected(AnswerPayloadSchema, b) == bad;
    if bad == {} then Ok(AnswerPayload(answer.value, answeredBy.value)) else Err(ValidationError(bad))
  }

  /**
   * The `$set` document of an answer: the payload's two fields, with a missing answerer written as
   * null, and `status` set to "answered".
   */
  function AnswerFields(p: AnswerPayload): (r: Doc)
    ensures r.Keys == AnswerPayloadSchema.Keys + {"status"}
    ensures r["status"] == Str("answered")
    ensures ValidateAnswerPayload(r) == Ok(p)
  {
    map[
      "answer" := Str(p.answer),
      "answered_by" := OptionalValue(p.answeredBy),
      "status" := Str(StatusName(Answered))]
  }

  /**
   * An answer request for the doubt whose id has string form `idStr`; `payload` is the body after
   * validation. Whether the doubt was already answered is not looked at.
   */
  function AnswerReply(db: Collections, idStr: string, payload: Result<AnswerPayload, Error>)
    : (r: Reply<OkBody>)
    ensures payload.Err? ==> r == Reply(Err(payload.error), db)
    ensures payload.Ok? && !WellFormedId(idStr) ==> r == Reply(Err(BadId), db)
    ensures payload.Ok? && WellFormedId(idStr) && Parse(idStr).value !in TableOf(db, DoubtCollection)
      ==> r == Reply(Err(NotFound), db)
    ensures payload.Ok? && WellFormedId(idStr) && Parse(idStr).value in TableOf(db, DoubtCollection)
      ==> && r.result == Ok(OkBody(true))
          && r.db == Update(db, DoubtCollection, Parse(idStr).value, AnswerFields(payload.value))
  {
    match payload
    case Err(e) => Reply(Err(e), db)
    case Ok(p) =>
      match EnsureObjectId(idStr)
      case Err(e) => Reply(Err(e), db)
      case Ok(oid) =>
        if oid in TableOf(db, DoubtCollection) then
          Reply(Ok(OkBody(true)), Update(db, DoubtCollection, oid, AnswerFields(p)))
        else
          Reply(Err(NotFound), db)
  }

  // ---------------------------------------------------------------------------------------------
  // The handlers

  method CreateDocument(store: DocumentStore, name: string, body: Result<Doc, Error>, newId: ObjectId)
    returns (r: Result<IdBody, Error>)
    modifies store
    ensures Reply(r, store.collections) == CreateReply(old(store.collections), name, body, newId)
  {
    if body.Err? {
      return Err(body.error);
    }
    var inserted := store.InsertOne(name, body.value, newId);
    match inserted
    case Ok(id) => r := Ok(IdBody(IdString(id)));
    case Err(e) => r := Err(e);
  }

  /** The loop of every list handler: each found document's `_id` becomes its string form under `id`. */
  method RenameIds(found: seq<Doc>, ghost table: Table, ghost ids: seq<ObjectId>) returns (docs: seq<Doc>)
    requires forall i :: 0 <= i < |ids| ==> ids[i] in table
    requires found == RawDocs(table, ids)
    ensures docs == ExposedAll(table, ids)
  {
    docs := found;
    var i := 0;
    while i < |docs|
      invariant 0 <= i <= |docs| == |ids|
      invariant forall j :: 0 <= j < i ==> docs[j] == ExposedAll(table, ids)[j]
      invariant forall j :: i <= j < |docs| ==> docs[j] == RawDocs(table, ids)[j]
    {
      var d := docs[i];
      RenameRawDoc(ids[i], table[ids[i]], d);
      docs := docs[i := Exposed(d["_id"].id, d)];
      i := i + 1;
    }
  }

  /** Finds the matching documents of `name` and renames each one's id. */
  method ListCollection(store: DocumentStore, name: string, field: string, query: Option<string>)
    returns (docs: seq<Doc>, ghost ids: seq<ObjectId>)
    ensures IsListing(TableOf(store.collections, name), ListFilter(field, query), ids)
    ensures docs == ExposedAll(TableOf(store.collections, name), ids)
    ensures |docs| == |Matching(TableOf(store.collections, name), ListFilter(field, query))|
    ensures forall i :: 0 <= i < |docs| ==> "id" in docs[i] && docs[i]["id"].Str? && "_id" !in docs[i]
  {
    var found;
    found, ids := store.Find(name, ListFilter(field, query));
    docs := RenameIds(found, TableOf(store.collections, name), ids);
    ExposedAllShape(TableOf(store.collections, name), ids);
  }

  method DeleteDocument(store: DocumentStore, name: string, idStr: string)
    returns (r: Result<OkBody, Error>)
    modifies store
    ensures Reply(r, store.collections) == DeleteReply(old(store.collections), name, idStr)
  {
    var oid := EnsureObjectId(idStr);
    if oid.Err? {
      return Err(oid.error);
    }
    var deleted := store.DeleteOne(name, oid.value);
    if deleted == 0 {
      return Err(NotFound);
    }
    return Ok(OkBody(true));
  }

  /** POST /api/timetable */
  method CreateTimetable(store: DocumentStore, body: Doc, newId: ObjectId)
    returns (r: Result<IdBody, Error>)
    modifies store
    ensures Reply(r, store.collections) ==
      CreateReply(old(store.collections), TimetableCollection, ValidatedDocument(TimetableKind, body), newId)
  {
    r := CreateDocument(store, TimetableCollection, ValidatedDocument(TimetableKind, body), newId);
  }

  /** GET /api/timetable?day= */
  method ListTimetable(store: DocumentStore, day: Option<string>)
    returns (docs: seq<Doc>, ghost ids: seq<ObjectId>)
    ensures IsListing(TableOf(store.collections, TimetableCollection), ListFilter("day", day), ids)
    ensures docs == ExposedAll(TableOf(store.collections, TimetableCollection), ids)
    ensures |docs| == |Matching(TableOf(store.collections, TimetableCollection), ListFilter("day", day))|
    ensures forall i :: 0 <= i < |docs| ==> "id" in docs[i] && docs[i]["id"].Str? && "_id" !in docs[i]
  {
    docs, ids := ListCollection(store, TimetableCollection, "day", day);
  }

  /** DELETE /api/timetable/{item_id} */
  method DeleteTimetable(store: DocumentStore, itemId: string) returns (r: Result<OkBody, Error>)
    modifies store
    ensures Reply(r, store.collections) == DeleteReply(old(store.collections), TimetableCollection, itemId)
  {
    r := DeleteDocument(store, TimetableCollection, itemId);
  }

  /** POST /api/resources */
  method CreateResource(store: DocumentStore, body: Doc, newId: ObjectId)
    returns (r: Result<IdBody, Error>)
    modifies store
    ensures Reply(r, store.collections) ==
      CreateReply(old(store.collections), ResourceCollection, ValidatedDocument(ResourceKind, body), newId)
  {
    r := CreateDocument(store, ResourceCollection, ValidatedDocument(ResourceKind, body), newId);
  }

  /** GET /api/resources?topic= */
  method ListResources(store: DocumentStore, topic: Option<string>)
    returns (docs: seq<Doc>, ghost ids: seq<ObjectId>)
    ensures IsListing(TableOf(store.collections, ResourceCollection), ListFilter("topic", topic), ids)
    ensures docs == ExposedAll(TableOf(store.collections, ResourceCollection), ids)
    ensures |docs| == |Matching(TableOf(store.collections, ResourceCollection), ListFilter("topic", topic))|
    ensures forall i :: 0 <= i < |docs| ==> "id" in docs[i] && docs[i]["id"].Str? && "_id" !in docs[i]
  {
    docs, ids := ListCollection(store, ResourceCollection, "topic", topic);
  }

  /** DELETE /api/resources/{res_id} */
  method DeleteResource(store: DocumentStore, resId: string) returns (r: Result<OkBody, Error>)
    modifies store
    ensures Reply(r, store.collections) == DeleteReply(old(store.collections), ResourceCollection, resId)
  {
    r := DeleteDocument(store, ResourceCollection, resId);
  }

  /** POST /api/doubts */
  method CreateDoubt(store: DocumentStore, body: Doc, newId: ObjectId)
    returns (r: Result<IdBody, Error>)
    modifies store
    ensures Reply(r, store.collections) ==
      CreateReply(old(store.collections), DoubtCollection, ValidatedDocument(DoubtKind, body), newId)
  {
    r := CreateDocument(store, DoubtCollection, ValidatedDocument(DoubtKind, body), newId);
  }

  /** GET /api/doubts?status= */
  method ListDoubts(store: DocumentStore, status: Option<string>)
    returns (docs: seq<Doc>, ghost ids: seq<ObjectId>)
    ensures IsListing(TableOf(store.collections, DoubtCollection), ListFilter("status", status), ids)
    ensures docs == ExposedAll(TableOf(store.collections, DoubtCollection), ids)
    ensures |docs| == |Matching(TableOf(store.collections, DoubtCollection), ListFilter("status", status))|
    ensures forall i :: 0 <= i < |docs| ==> "id" in docs[i] && docs[i]["id"].Str? && "_id" !in docs[i]
  {
    docs, ids := ListCollection(store, DoubtCollection, "status", status);
  }

  /** PATCH /api/doubts/{doubt_id} */
  method AnswerDoubt(store: DocumentStore, doubtId: string, body: Doc) returns (r: Result<OkBody, Error>)
    modifies store
    ensures Reply(r, store.collections) ==
      AnswerReply(old(store.collections), doubtId, ValidateAnswerPayload(body))
  {
    var payload := ValidateAnswerPayload(body);
    if payload.Err? {
      return Err(payload.error);
    }
    var oid := EnsureObjectId(doubtId);
    if oid.Err? {
      return Err(oid.error);
    }
    var matched := store.UpdateOne(DoubtCollection, oid.value, AnswerFields(payload.value));
    if matched == 0 {
      return Err(NotFound);
    }
    return Ok(OkBody(true));
  }
}
