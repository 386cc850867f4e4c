/** Properties of the request handlers that relate several requests or the store's contents. */
module HandlerProperties {
  import opened Wrappers
  import opened Errors
  import opened ObjectIds
  import opened Documents
  import opened Store
  import opened Schemas
  import opened Handlers
  import opened SchemaProperties

  /** The collections the handlers name are the ones the schemas' naming rule gives. */
  lemma HandlersUseSchemaCollections()
    ensures TimetableCollection == CollectionName(TimetableKind)
    ensures ResourceCollection == CollectionName(ResourceKind)
    ensures DoubtCollection == CollectionName(DoubtKind)
  {
    CollectionNames();
  }

  // ---------------------------------------------------------------------------------------------
  // Identifiers

  /** A malformed id is refused with "Invalid id" before the store is touched. */
  lemma MalformedIdTouchesNothing(db: Collections, name: string, s: string, p: AnswerPayload)
    requires !WellFormedId(s)
    ensures DeleteReply(db, name, s) == Reply(Err(BadId), db)
    ensures AnswerReply(db, s, Ok(p)) == Reply(Err(BadId), db)
  {
  }

  /** The id a listing shows for a document names that document again in a request. */
  lemma ListedIdNamesDocument(table: Table, ids: seq<ObjectId>, i: int)
    requires forall j :: 0 <= j < |ids| ==> ids[j] in table
    requires 0 <= i < |ids|
    ensures ExposedAll(table, ids)[i]["id"].Str?
    ensures EnsureObjectId(ExposedAll(table, ids)[i]["id"].s) == Ok(ids[i])
  {
    ParseIdString(ids[i]);
  }

  // ---------------------------------------------------------------------------------------------
  // Delete

  /** Deleting by the string form of a stored id removes exactly that document. */
  lemma DeleteByListedId(db: Collections, name: string, oid: ObjectId)
    requires oid in TableOf(db, name)
    ensures DeleteReply(db, name, IdString(oid)) == Reply(Ok(OkBody(true)), Remove(db, name, oid))
  {
    ParseIdString(oid);
  }

  /** A second delete of the same id finds nothing and changes nothing. */
  lemma DeleteTwiceNotFound(db: Collections, name: string, s: string)
    ensures var first := DeleteReply(db, name, s);
      DeleteReply(first.db, name, s) == Reply(Err(if WellFormedId(s) then NotFound else BadId), first.db)
  {
  }

  // ---------------------------------------------------------------------------------------------
  // Answer

  /**
   * Answering an existing doubt sets exactly `answer`, `answered_by` and `status`; every other
   * field of it, every other doubt and every other collection stays as it was.
   */
  lemma AnswerSetsOnlyItsFields(db: Collections, oid: ObjectId, p: AnswerPayload)
    requires oid in TableOf(db, DoubtCollection)
    ensures var r := AnswerReply(db, IdString(oid), Ok(p));
      var before, after := TableOf(db, DoubtCollection), TableOf(r.db, DoubtCollection);
      && r.result == Ok(OkBody(true))
      && after.Keys == before.Keys
      && oid in after && "answer" in after[oid] && "answered_by" in after[oid] && "status" in after[oid]
      && after[oid]["answer"] == Str(p.answer)
      && after[oid]["answered_by"] == OptionalValue(p.answeredBy)
      && after[oid]["status"] == Str("answered")
      && (forall f :: f !in AnswerFields(p) ==> (f in after[oid] <==> f in before[oid]))
      && (forall f :: f in before[oid] && f !in AnswerFields(p) ==> after[oid][f] == before[oid][f])
      && (forall k :: k in before && k != oid ==> after[k] == before[k])
      && (forall n :: n != DoubtCollection ==> TableOf(r.db, n) == TableOf(db, n))
  {
    ParseIdString(oid);
  }

  /** An answered doubt can be answered again; the second answer replaces the first entirely. */
  lemma AnswerOverwrites(db: Collections, oid: ObjectId, p: AnswerPayload, q: AnswerPayload)
    requires oid in TableOf(db, DoubtCollection)
    ensures var first := AnswerReply(db, IdString(oid), Ok(p));
      var second := AnswerReply(first.db, IdString(oid), Ok(q));
      && second.result == Ok(OkBody(true))
      && second.db == Update(db, DoubtCollection, oid, AnswerFields(q))
  {
    ParseIdString(oid);
    UpdateTwice(db, DoubtCollection, oid, AnswerFields(p), AnswerFields(q));
    assert AnswerFields(p) + AnswerFields(q) == AnswerFields(q);
  }

  /** On a stored doubt, an answer is the state change open-or-answered to answered. */
  lemma AnswerIsTransition(d: Doubt, p: AnswerPayload)
    ensures DoubtDocument(d) + AnswerFields(p)
      == DoubtDocument(d.(answer := Some(p.answer), answeredBy := p.answeredBy, status := Answered))
  {
  }

  /** After an answer the doubt leaves every `status=open` listing and is in every `status=answered` one. */
  lemma AnswerMovesBetweenListings(
    db: Collections, oid: ObjectId, p: AnswerPayload, openIds: seq<ObjectId>, answeredIds: seq<ObjectId>)
    requires oid in TableOf(db, DoubtCollection)
    requires var after := TableOf(AnswerReply(db, IdString(oid), Ok(p)).db, DoubtCollection);
      && IsListing(after, ListFilter("status", Some("open")), openIds)
      && IsListing(after, ListFilter("status", Some("answered")), answeredIds)
    ensures oid !in openIds
    ensures oid in answeredIds
  {
    AnswerSetsOnlyItsFields(db, oid, p);
    var after := TableOf(AnswerReply(db, IdString(oid), Ok(p)).db, DoubtCollection);
    assert Matches(ListFilter("status", Some("answered")), after[oid]);
    assert !Matches(ListFilter("status", Some("open")), after[oid]);
  }

  // ---------------------------------------------------------------------------------------------
  // Create

  /** Two creates of the same document that both succeed make two records with different ids. */
  lemma RepeatedCreatesDistinct(db: Collections, name: string, doc: Doc, id1: ObjectId, id2: ObjectId)
    requires CreateReply(db, name, Ok(doc), id1).result.Ok?
    requires CreateReply(CreateReply(db, name, Ok(doc), id1).db, name, Ok(doc), id2).result.Ok?
    ensures var first := CreateReply(db, name, Ok(doc), id1);
      var second := CreateReply(first.db, name, Ok(doc), id2);
      && first.result.value.id != second.result.value.id
      && id1 in TableOf(second.db, name) && id2 in TableOf(second.db, name)
      && |TableOf(second.db, name)| == |TableOf(db, name)| + 2
  {
    var first := CreateReply(db, name, Ok(doc), id1);
    var second := CreateReply(first.db, name, Ok(doc), id2);
    assert id1 != id2;
    ParseIdString(id1);
    ParseIdString(id2);
  }

  /** A body the schema refuses is never stored, whatever the collections hold. */
  lemma RefusedBodyNotStored(db: Collections, k: Kind, b: Doc, newId: ObjectId)
    requires Rejected(SchemaOf(k), b) != {}
    ensures CreateReply(db, CollectionName(k), ValidatedDocument(k, b), newId)
      == Reply(Err(ValidationError(Rejected(SchemaOf(k), b))), db)
  {
  }

  /**
   * After a create, every unfiltered listing of that collection shows the new document, with the
   * id the create returned and the fields it was given.
   */
  lemma CreatedIsListed(db: Collections, name: string, doc: Doc, newId: ObjectId, ids: seq<ObjectId>)
    requires CreateReply(db, name, Ok(doc), newId).result.Ok?
    requires IsListing(TableOf(CreateReply(db, name, Ok(doc), newId).db, name), All, ids)
    ensures newId in ids
    ensures var r := CreateReply(db, name, Ok(doc), newId);
      forall i :: 0 <= i < |ids| && ids[i] == newId ==>
        && ExposedAll(TableOf(r.db, name), ids)[i] == Exposed(newId, doc)
        && Exposed(newId, doc)["id"] == Str(r.result.value.id)
  {
    ParseIdString(newId);
  }

  /** Writing to one collection does not change what a listing of any other collection returns. */
  lemma OtherCollectionsUnaffected(
    db: Collections, name: string, other: string, doc: Doc, newId: ObjectId, s: string, p: AnswerPayload)
    requires name != other
    ensures TableOf(CreateReply(db, name, Ok(doc), newId).db, other) == TableOf(db, other)
    ensures TableOf(DeleteReply(db, name, s).db, other) == TableOf(db, other)
    ensures other != DoubtCollection ==> TableOf(AnswerReply(db, s, Ok(p)).db, other) == TableOf(db, other)
  {
  }

  // ---------------------------------------------------------------------------------------------
  // List

  lemma {:induction false} DistinctCardinality(ids: seq<ObjectId>, keys: set<ObjectId>)
    requires forall i, j :: 0 <= i < j < |ids| ==> ids[i] != ids[j]
    requires forall i :: 0 <= i < |ids| ==> ids[i] in keys
    requires forall k :: k in keys ==> k in ids
    ensures |ids| == |keys|
  {
    if ids != [] {
      var rest := ids[1..];
      forall k | k in keys - {ids[0]} ensures k in rest {
        var i :| 0 <= i < |ids| && ids[i] == k;
        assert i != 0;
        assert rest[i - 1] == k;
      }
      DistinctCardinality(rest, keys - {ids[0]});
    }
  }

  /** With no query, or an empty one, a listing holds every document of the collection, once. */
  lemma UnfilteredListingIsWholeCollection(table: Table, field: string, query: Option<string>, ids: seq<ObjectId>)
    requires query == None || query == Some("")
    requires IsListing(table, ListFilter(field, query), ids)
    ensures forall k :: k in table <==> k in ids
    ensures |ids| == |table|
  {
    DistinctCardinality(ids, table.Keys);
  }

  /** With a non-empty query, every listed document holds exactly the query under the field. */
  lemma FilteredListingIsExact(table: Table, field: string, v: string, ids: seq<ObjectId>)
    requires v != "" && field != "id" && field != "_id"
    requires IsListing(table, ListFilter(field, Some(v)), ids)
    ensures forall i :: 0 <= i < |ids| ==>
      field in ExposedAll(table, ids)[i] && ExposedAll(table, ids)[i][field] == Str(v)
    ensures forall k :: k in table && field in table[k] && table[k][field] == Str(v) ==> k in ids
  {
  }

  /** A `status` query selects the doubts in exactly that state. */
  lemma StatusQuerySelects(q: Doubt, s: Status)
    ensures Matches(ListFilter("status", Some(StatusName(s))), DoubtDocument(q)) <==> q.status == s
  {
  }

  /** A `day` query selects the entries of exactly that day; an unknown day selects none. */
  lemma DayQuerySelects(t: Timetable, s: string)
    requires s != ""
    ensures Matches(ListFilter("day", Some(s)), TimetableDocument(t)) <==> DayName(t.day) == s
    ensures s !in WeekdayNames ==> !Matches(ListFilter("day", Some(s)), TimetableDocument(t))
  {
    match t.day
    case Monday =>
    case Tuesday =>
    case Wednesday =>
    case Thursday =>
    case Friday =>
    case Saturday =>
    case Sunday =>
  }

  // ---------------------------------------------------------------------------------------------
  // A doubt's life

  /** A question alone is stored as an open, unanswered doubt. */
  lemma QuestionCreatesOpenDoubt(db: Collections, question: string, newId: ObjectId)
    requires newId !in TableOf(db, DoubtCollection)
    ensures var created := CreateReply(db, DoubtCollection,
                             ValidatedDocument(DoubtKind, map["question" := Str(question)]), newId);
      && created.result == Ok(IdBody(IdString(newId)))
      && created.db == Insert(db, DoubtCollection, newId, DoubtDocument(Doubt(question, None, None, None, Open)))
  {
    DoubtDefaults(question);
  }

  /**
   * A question is created open and unanswered and shows in the `status=open` listing; once
   * answered through the id the create returned, it is stored as an answered doubt and shows in
   * the `status=answered` listing.
   */
  lemma DoubtLifecycle(
    db: Collections, question: string, newId: ObjectId, p: AnswerPayload,
    openIds: seq<ObjectId>, answeredIds: seq<ObjectId>)
    requires newId !in TableOf(db, DoubtCollection)
    ensures var created := Insert(db, DoubtCollection, newId, DoubtDocument(Doubt(question, None, None, None, Open)));
      && (IsListing(TableOf(created, DoubtCollection), ListFilter("status", Some("open")), openIds) ==> newId in openIds)
      && var answered := AnswerReply(created, IdString(newId), Ok(p));
         && answered.result == Ok(OkBody(true))
         && newId in TableOf(answered.db, DoubtCollection)
         && ValidateDoubt(TableOf(answered.db, DoubtCollection)[newId])
            == Ok(Doubt(question, None, Some(p.answer), p.answeredBy, Answered))
         && (IsListing(TableOf(answered.db, DoubtCollection), ListFilter("status", Some("answered")), answeredIds)
             ==> newId in answeredIds)
  {
    var asked := Doubt(question, None, None, None, Open);
    var created := Insert(db, DoubtCollection, newId, DoubtDocument(asked));
    assert Matches(ListFilter("status", Some("open")), DoubtDocument(asked));
    ParseIdString(newId);
    AnswerIsTransition(asked, p);
    var done := asked.(answer := Some(p.answer), answeredBy := p.answeredBy, status := Answered);
    DoubtRoundTrip(done);
    var answered := AnswerReply(created, IdString(newId), Ok(p));
    assert TableOf(answered.db, DoubtCollection)[newId] == DoubtDocument(done);
    assert Matches(ListFilter("status", Some("answered")), DoubtDocument(done));
  }
}
