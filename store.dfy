/**
 * An in-memory document store: named collections, each a table of documents keyed by id. The
 * value-level functions say what each operation does to the collections; the class DocumentStore
 * holds the collections and performs the operations the handlers call.
 */
module Store {
  import opened Wrappers
  import opened Errors
  import opened ObjectIds
  import opened Documents

  type Table = map<ObjectId, Doc>

  type Collections = map<string, Table>

  /** A collection that was never written to reads as empty. */
  function TableOf(db: Collections, name: string): Table
  {
    if name in db then db[name] else map[]
  }

  function Insert(db: Collections, name: string, id: ObjectId, doc: Doc): (r: Collections)
    ensures TableOf(r, name) == TableOf(db, name)[id := doc]
    ensures forall n :: n != name ==> TableOf(r, n) == TableOf(db, n)
  {
    db[name := TableOf(db, name)[id := doc]]
  }

  /** `delete_one({"_id": id})` on collection `name`. */
  function Remove(db: Collections, name: string, id: ObjectId): (r: Collections)
    ensures TableOf(r, name) == TableOf(db, name) - {id}
    ensures forall n :: n != name ==> TableOf(r, n) == TableOf(db, n)
    ensures id !in TableOf(db, name) ==> r == db
  {
    if id in TableOf(db, name) then db[name := db[name] - {id}] else db
  }

  /** `update_one({"_id": id}, {"$set": fields})` on collection `name`. */
  function Update(db: Collections, name: string, id: ObjectId, fields: Doc): (r: Collections)
    ensures id in TableOf(db, name) ==>
      TableOf(r, name) == TableOf(db, name)[id := TableOf(db, name)[id] + fields]
    ensures forall n :: n != name ==> TableOf(r, n) == TableOf(db, n)
    ensures id !in TableOf(db, name) ==> r == db
  {
    if id in TableOf(db, name) then
      var t: Table := db[name];
      db[name := t[id := t[id] + fields]]
    else
      db
  }

  /** Two `$set` updates of one document are one update with the fields of both, the later winning. */
  lemma UpdateTwice(db: Collections, name: string, id: ObjectId, a: Doc, b: Doc)
    ensures Update(Update(db, name, id, a), name, id, b) == Update(db, name, id, a + b)
  {
    if id in TableOf(db, name) {
      var t: Table := db[name];
      assert t[id] + a + b == t[id] + (a + b);
      assert t[id := t[id] + a][id := t[id] + a + b] == t[id := t[id] + (a + b)];
    }
  }

  function Matching(table: Table, filter: Filter): set<ObjectId>
  {
    set k | k in table && Matches(filter, table[k])
  }

  /** `ids` lists every document of `table` that matches `filter`, each once, in some order. */
  predicate IsListing(table: Table, filter: Filter, ids: seq<ObjectId>)
  {
    && (forall i, j :: 0 <= i < j < |ids| ==> ids[i] != ids[j])
    && (forall i :: 0 <= i < |ids| ==> ids[i] in table && Matches(filter, table[ids[i]]))
    && (forall k :: k in table && Matches(filter, table[k]) ==> k in ids)
  }

  /** A document as a find returns it: its fields and its id under `_id`. */
  function RawDoc(id: ObjectId, d: Doc): Doc
  {
    d["_id" := Oid(id)]
  }

  /** A found document is the stored one plus `_id` holding its id; nothing else differs. */
  lemma RawDocFields(id: ObjectId, d: Doc)
    ensures RawDoc(id, d).Keys == d.Keys + {"_id"} && RawDoc(id, d)["_id"] == Oid(id)
    ensures RawDoc(id, d) - {"_id"} == d - {"_id"}
  {
  }

  function RawDocs(table: Table, ids: seq<ObjectId>): (r: seq<Doc>)
    requires forall i :: 0 <= i < |ids| ==> ids[i] in table
  {
    seq(|ids|, i requires 0 <= i < |ids| => RawDoc(ids[i], table[ids[i]]))
  }

  class DocumentStore {
    var collections: Collections

    constructor ()
      ensures collections == map[]
    {
      collections := map[];
    }

    /** Inserts `doc` under the id the driver generated; a taken id is a rejected write. */
    method InsertOne(name: string, doc: Doc, newId: ObjectId) returns (r: Result<ObjectId, Error>)
      modifies this
      ensures newId !in TableOf(old(collections), name) ==>
        r == Ok(newId) && collections == Insert(old(collections), name, newId, doc)
      ensures newId in TableOf(old(collections), name) ==>
        r == Err(WriteRejected) && collections == old(collections)
    {
      if newId in TableOf(collections, name) {
        r := Err(WriteRejected);
      } else {
        collections := Insert(collections, name, newId, doc);
        r := Ok(newId);
      }
    }

    /** All documents of collection `name` that match `filter`, in an order the store picks. */
    method Find(name: string, filter: Filter) returns (docs: seq<Doc>, ghost ids: seq<ObjectId>)
      ensures IsListing(TableOf(collections, name), filter, ids)
      ensures docs == RawDocs(TableOf(collections, name), ids)
      ensures |docs| == |Matching(TableOf(collections, name), filter)|
    {
      var table := TableOf(collections, name);
      var pending := set k | k in table && Matches(filter, table[k]);
      ghost var matching := pending;
      docs, ids := [], [];
      while pending != {}
        invariant pending <= matching
        invariant forall i, j :: 0 <= i < j < |ids| ==> ids[i] != ids[j]
        invariant forall i :: 0 <= i < |ids| ==> ids[i] in matching && ids[i] !in pending
        invariant forall k :: k in matching ==> k in pending || k in ids
        invariant |docs| == |ids| && |ids| + |pending| == |matching|
        invariant forall i :: 0 <= i < |ids| ==> docs[i] == RawDoc(ids[i], table[ids[i]])
        decreases pending
      {
        var k :| k in pending;
        docs, ids := docs + [RawDoc(k, table[k])], ids + [k];
        pending := pending - {k};
      }
    }

    /** Deletes the document with id `id`, if there is one; returns how many were deleted. */
    method DeleteOne(name: string, id: ObjectId) returns (deletedCount: nat)
      modifies this
      ensures deletedCount == if id in TableOf(old(collections), name) then 1 else 0
      ensures collections == Remove(old(collections), name, id)
    {
      deletedCount := if id in TableOf(collections, name) then 1 else 0;
      collections := Remove(collections, name, id);
    }

    /** Sets `fields` on the document with id `id`, if there is one; returns how many matched. */
    method UpdateOne(name: string, id: ObjectId, fields: Doc) returns (matchedCount: nat)
      modifies this
      ensures matchedCount == if id in TableOf(old(collections), name) then 1 else 0
      ensures collections == Update(old(collections), name, id, fields)
    {
      matchedCount := if id in TableOf(collections, name) then 1 else 0;
      collections := Update(collections, name, id, fields);
    }
  }
}
