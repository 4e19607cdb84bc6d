/** The two remote services the stores talk to, as far as the stores can
    observe them: a document collection (Firestore) and a file store
    (Cloud Storage). Whether a call reaches the service, which identifier a
    new document gets and which download URL a file gets are decided
    outside the application; each is a parameter of the call. */
module Backend {
  import opened JsValues

  /** How a document read ends. */
  datatype ReadResult = ReadFailed | Missing | Found(data: Entries)

  /** One collection of documents, by identifier. */
  class Collection {
    var docs: map<string, Entries>

    constructor ()
      ensures docs == map[]
    {
      docs := map[];
    }

    /** `getDoc`. */
    method GetDoc(id: string, reachable: bool) returns (r: ReadResult)
      ensures !reachable ==> r == ReadFailed
      ensures reachable ==> r == if id in docs then Found(docs[id]) else Missing
    {
      if !reachable {
        return ReadFailed;
      }
      r := if id in docs then Found(docs[id]) else Missing;
    }

    /** `updateDoc`: the given fields are written over the stored ones, the
        others are kept; updating a document that does not exist fails. */
    method UpdateDoc(id: string, data: Entries, reachable: bool) returns (success: bool)
      modifies this
      ensures success <==> reachable && id in old(docs)
      ensures docs == if success then old(docs)[id := Assign(old(docs)[id], data)] else old(docs)
    {
      success := reachable && id in docs;
      if success {
        docs := docs[id := Assign(docs[id], data)];
      }
    }

    /** `addDoc`: stores a new document under the identifier the service
        chose for it. */
    method AddDoc(data: Entries, newId: string, reachable: bool) returns (success: bool)
      requires newId !in docs
      modifies this
      ensures success == reachable
      ensures docs == if success then old(docs)[newId := data] else old(docs)
    {
      success := reachable;
      if success {
        docs := docs[newId := data];
      }
    }

    /** `deleteDoc`: deleting a document that does not exist succeeds. */
    method DeleteDoc(id: string, reachable: bool) returns (success: bool)
      modifies this
      ensures success == reachable
      ensures docs == if success then old(docs) - {id} else old(docs)
    {
      success := reachable;
      if success {
        docs := docs - {id};
      }
    }
  }

  /** The file store: the files by path, and every path written, in order. */
  class Storage {
    var objects: map<string, Value>
    var writes: seq<string>

    constructor ()
      ensures objects == map[] && writes == []
    {
      objects := map[];
      writes := [];
    }

    /** `uploadBytes`. */
    method UploadBytes(path: string, file: Value, reachable: bool) returns (success: bool)
      modifies this
      ensures success == reachable
      ensures objects == if success then old(objects)[path := file] else old(objects)
      ensures writes == if success then old(writes) + [path] else old(writes)
    {
      success := reachable;
      if success {
        objects := objects[path := file];
        writes := writes + [path];
      }
    }

    /** `getDownloadURL`: fails for a path that holds no file. */
    method GetDownloadUrl(path: string, url: Option<string>) returns (r: Option<string>)
      ensures r == if path in objects then url else None
    {
      r := if path in objects then url else None;
    }

    /** `deleteObject`: fails for a path that holds no file. */
    method DeleteObject(path: string, reachable: bool) returns (success: bool)
      modifies this
      ensures success <==> reachable && path in old(objects)
      ensures objects == if success then old(objects) - {path} else old(objects)
      ensures writes == old(writes)
    {
      success := reachable && path in objects;
      if success {
        objects := objects - {path};
      }
    }
  }

  /** `{ ...data, update_at: serverTimestamp() }`: what every write sends. */
  function Stamped(data: Entries): Entries
  {
    Spread(data, [("update_at", ServerTimestamp)])
  }

  /** A stamped payload carries the server-time sentinel as its update time
      and every other field of the data unchanged. */
  lemma StampedFields(data: Entries)
    ensures Get(Stamped(data), "update_at") == ServerTimestamp
    ensures forall k :: k != "update_at" ==> Get(Stamped(data), k) == Get(data, k)
  {
    SpreadReads(data, [("update_at", ServerTimestamp)]);
  }

  /** A `where(field, '==', value)` clause. */
  datatype Filter = Filter(field: string, value: Value)

  /** A document passes every `where` clause and has every field the query
      orders by (a document without an ordering field is not returned). */
  predicate Matches(data: Entries, orderedBy: seq<string>, filters: seq<Filter>)
  {
    && (forall i :: 0 <= i < |orderedBy| ==> orderedBy[i] in Keys(data))
    && (forall i :: 0 <= i < |filters| ==> Get(data, filters[i].field) == filters[i].value)
  }

  /** Each document at most once, each one stored under its identifier and
      matching the query. */
  predicate Sound(result: seq<(string, Entries)>, docs: map<string, Entries>,
                  orderedBy: seq<string>, filters: seq<Filter>)
  {
    && (forall i, j :: 0 <= i < j < |result| ==> result[i].0 != result[j].0)
    && (forall i :: 0 <= i < |result| ==>
          result[i].0 in docs && docs[result[i].0] == result[i].1 && Matches(result[i].1, orderedBy, filters))
  }

  /** Every matching document is in the result. */
  predicate Complete(result: seq<(string, Entries)>, docs: map<string, Entries>,
                     orderedBy: seq<string>, filters: seq<Filter>)
  {
    forall id :: id in docs && Matches(docs[id], orderedBy, filters) ==>
      exists i :: 0 <= i < |result| && result[i].0 == id
  }

  /** What a query result promises: exactly the matching documents, in the
      service's order. */
  predicate Answers(result: seq<(string, Entries)>, docs: map<string, Entries>,
                    orderedBy: seq<string>, filters: seq<Filter>)
  {
    Sound(result, docs, orderedBy, filters) && Complete(result, docs, orderedBy, filters)
  }

  /** What a query with `limit(n)` promises: at most n matching documents,
      and all of them when fewer came back. */
  predicate AnswersLimited(result: seq<(string, Entries)>, docs: map<string, Entries>,
                           orderedBy: seq<string>, filters: seq<Filter>, limit: nat)
  {
    && |result| <= limit
    && Sound(result, docs, orderedBy, filters)
    && (|result| < limit ==> Complete(result, docs, orderedBy, filters))
  }

  /** How a query ends: with the documents, or with an error. */
  datatype QueryOutcome = QueryFailed | Docs(result: seq<(string, Entries)>)
}
