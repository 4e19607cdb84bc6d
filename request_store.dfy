/** The request store of src/stores/request.js: the loaded requests, a
    per-semester cache of loads, the list filters, and the operations that
    read and write requests and their attachments. */
module Requests {
  import opened Strings
  import opened JsValues
  import opened Helpers
  import opened Backend

  const FILE_LIMIT := 3
  const FILE_LIMIT_MESSAGE := "Limite de 3 arquivos excedido."
  /** Where attachments go when the request names no semester. */
  const DEFAULT_FOLDER := "attachments"
  /** The fields the request list is ordered by. */
  const ORDERED_BY := ["created_at", "name"]

  /** The filters the request list starts with: only requests awaiting a decision. */
  function DefaultFilters(): Entries
  {
    [("name", Str("")), ("semester", Str("")), ("course", Str("")), ("status", Str("Aguardando"))]
  }

  // ------------------------------------------------------------------ loading

  /** `{ id: snap.id, ...snap.data() }`: the document's fields, plus its
      identifier under `id` unless the document has an `id` field itself. */
  function Record(id: string, data: Entries): (r: Entries)
    ensures forall k :: Get(r, k) == if k in Keys(data) then Get(data, k) else if k == "id" then Str(id) else Undefined
  {
    SpreadReads([("id", Str(id))], data);
    Spread([("id", Str(id))], data)
  }

  /** The records of a query result, one per document, in result order. */
  function Loaded(result: seq<(string, Entries)>): (r: seq<Entries>)
    ensures |r| == |result|
    ensures forall i :: 0 <= i < |result| ==> r[i] == Record(result[i].0, result[i].1)
  {
    seq(|result|, i requires 0 <= i < |result| => Record(result[i].0, result[i].1))
  }

  /** `arrayFilters.find(f => f.field === field)`: the index of the first
      filter on `field`, or -1. */
  function FindFilter(filters: seq<Filter>, field: string): (r: int)
    ensures -1 <= r < |filters|
    ensures r == -1 <==> forall j :: 0 <= j < |filters| ==> filters[j].field != field
    ensures r >= 0 ==> filters[r].field == field && forall j :: 0 <= j < r ==> filters[j].field != field
  {
    FirstWhere(filters, (f: Filter) => f.field == field)
  }

  /** `semestreFilter?.value`: `undefined` when no filter is on the semester. */
  function SemesterFilter(filters: seq<Filter>): Value
  {
    var i := FindFilter(filters, "semester");
    if i == -1 then Undefined else filters[i].value
  }

  /** The loaded list after an update: the first entry with that id, if any,
      gets the payload's fields over its own. */
  function Patched(rs: seq<Entries>, id: string, payload: Entries): seq<Entries>
  {
    var i := FindIndex(rs, "id", Str(id));
    if i == -1 then rs else rs[i := Spread(rs[i], payload)]
  }

  /** Only the first entry with the id changes, and it reads every payload
      field from the payload and every other field as before; with no such
      entry nothing changes. */
  lemma PatchedChangesFirstMatch(rs: seq<Entries>, id: string, payload: Entries)
    ensures |Patched(rs, id, payload)| == |rs|
    ensures FindIndex(rs, "id", Str(id)) == -1 ==> Patched(rs, id, payload) == rs
    ensures var i := FindIndex(rs, "id", Str(id));
      i >= 0 ==>
        && (forall m :: 0 <= m < |rs| && m != i ==> Patched(rs, id, payload)[m] == rs[m])
        && (forall k :: Get(Patched(rs, id, payload)[i], k) == if k in Keys(payload) then Get(payload, k) else Get(rs[i], k))
  {
    var i := FindIndex(rs, "id", Str(id));
    if i != -1 {
      SpreadReads(rs[i], payload);
    }
  }

  // -------------------------------------------------------------- attachments

  /** `file.url` is truthy: the file is already stored. */
  predicate HasUrl(file: Value)
  {
    Truthy(Prop(file, "url"))
  }

  /** `payload.files || []`, as far as `filter(file => file.url)` can walk it:
      `None` where that throws (a truthy non-array, or a null or undefined
      element whose `url` is read). */
  function FileList(files: Value): (r: Option<seq<Value>>)
    ensures !Truthy(files) ==> r == Some([])
    ensures Truthy(files) && !files.Array? ==> r == None
    ensures files.Array? ==>
      (r.Some? <==> forall i :: 0 <= i < |files.items| ==> !Nullish(files.items[i]))
    ensures r.Some? ==> forall i :: 0 <= i < |r.value| ==> !Nullish(r.value[i])
    ensures files.Array? && r.Some? ==> r.value == files.items
  {
    if !Truthy(files) then Some([])
    else if !files.Array? then None
    else if forall i :: 0 <= i < |files.items| ==> !Nullish(files.items[i]) then Some(files.items)
    else None
  }

  /** `filter(file => file.url)`. */
  function KeptFiles(files: seq<Value>): seq<Value>
  {
    if files == [] then []
    else (if HasUrl(files[0]) then [files[0]] else []) + KeptFiles(files[1..])
  }

  /** `filter(file => !file.url)`. */
  function NewFiles(files: seq<Value>): seq<Value>
  {
    if files == [] then []
    else (if HasUrl(files[0]) then [] else [files[0]]) + NewFiles(files[1..])
  }

  /** The two filters split the list: every file goes to exactly one side,
      the stored ones to the kept side and the others to the new side. */
  lemma {:induction false} FilesPartition(files: seq<Value>)
    ensures |KeptFiles(files)| + |NewFiles(files)| == |files|
    ensures multiset(KeptFiles(files)) + multiset(NewFiles(files)) == multiset(files)
    ensures forall f :: f in KeptFiles(files) ==> HasUrl(f)
    ensures forall f :: f in NewFiles(files) ==> !HasUrl(f)
  {
    if files != [] {
      FilesPartition(files[1..]);
      assert files == [files[0]] + files[1..];
    }
  }

  /** Filtering a list that starts with `f` decides `f`, then filters the rest. */
  lemma FilesCons(f: Value, rest: seq<Value>)
    ensures KeptFiles([f] + rest) == (if HasUrl(f) then [f] else []) + KeptFiles(rest)
    ensures NewFiles([f] + rest) == (if HasUrl(f) then [] else [f]) + NewFiles(rest)
  {
    assert ([f] + rest)[1..] == rest;
  }

  /** The kept filter keeps the order of the list: filtering a
      concatenation filters each part and concatenates the results. */
  lemma {:induction false} KeptFilesAppend(a: seq<Value>, b: seq<Value>)
    ensures KeptFiles(a + b) == KeptFiles(a) + KeptFiles(b)
  {
    if a == [] {
      assert a + b == b;
    } else {
      var f, rest := a[0], a[1..];
      assert a == [f] + rest && a + b == [f] + (rest + b);
      KeptFilesAppend(rest, b);
      FilesCons(f, rest);
      FilesCons(f, rest + b);
    }
  }

  /** The new-file filter keeps the order of the list in the same way. */
  lemma {:induction false} NewFilesAppend(a: seq<Value>, b: seq<Value>)
    ensures NewFiles(a + b) == NewFiles(a) + NewFiles(b)
  {
    if a == [] {
      assert a + b == b;
    } else {
      var f, rest := a[0], a[1..];
      assert a == [f] + rest && a + b == [f] + (rest + b);
      NewFilesAppend(rest, b);
      FilesCons(f, rest);
      FilesCons(f, rest + b);
    }
  }

  /** A single file goes to the kept side exactly when it has a URL. */
  lemma OneFileSide(f: Value)
    ensures KeptFiles([f]) == if HasUrl(f) then [f] else []
    ensures NewFiles([f]) == if HasUrl(f) then [] else [f]
  {
    assert [f][1..] == [];
  }

  /** Where the upload of a file goes, and what it records. */
  function Folder(folder: Value): Value
  {
    if folder.Undefined? then Str(DEFAULT_FOLDER) else folder
  }

  /** `${folder}/${uuid}_${file.name}`, the folder defaulting to "attachments". */
  function UploadPath(folder: Value, uuid: string, file: Value): string
  {
    Display(Folder(folder)) + "/" + uuid + "_" + Display(Prop(file, "name"))
  }

  /** A path of a folder and a name without separators reads back as exactly
      those two segments; with no folder the first one is "attachments". */
  lemma UploadPathSegments(folder: Value, uuid: string, file: Value)
    requires '/' !in Display(Folder(folder)) && '/' !in uuid && '/' !in Display(Prop(file, "name"))
    ensures Split(UploadPath(folder, uuid, file), '/') ==
      [Display(Folder(folder)), uuid + "_" + Display(Prop(file, "name"))]
    ensures folder.Undefined? ==> Split(UploadPath(folder, uuid, file), '/')[0] == DEFAULT_FOLDER
  {
    var a := Display(Folder(folder));
    var b := uuid + "_" + Display(Prop(file, "name"));
    assert '/' !in b;
    assert UploadPath(folder, uuid, file) == Join([a, b], "/");
    assert Free([a, b], '/');
    SplitJoin([a, b], '/');
  }

  /** `{ name: file.name, url, path: fileRef.fullPath }`. */
  function UploadedFile(file: Value, path: string, url: string): Value
  {
    Object([("name", Prop(file, "name")), ("url", Str(url)), ("path", Str(path))])
  }

  /** A file uploaded with a non-empty URL counts as stored the next time the
      request is saved: saving the stored list again uploads nothing. */
  lemma {:induction false} StoredFilesAreKept(files: seq<Value>)
    requires forall i :: 0 <= i < |files| ==> HasUrl(files[i])
    ensures KeptFiles(files) == files && NewFiles(files) == []
  {
    if files != [] {
      assert forall i :: 0 <= i < |files[1..]| ==> files[1..][i] == files[i + 1];
      StoredFilesAreKept(files[1..]);
      assert [files[0]] + files[1..] == files;
    }
  }

  /** The description of an uploaded file names the file and gives its URL
      and path; it counts as stored exactly when the URL is not empty. */
  lemma UploadedFileFields(file: Value, path: string, url: string)
    ensures Prop(UploadedFile(file, path, url), "name") == Prop(file, "name")
    ensures Prop(UploadedFile(file, path, url), "url") == Str(url)
    ensures Prop(UploadedFile(file, path, url), "path") == Str(path)
    ensures HasUrl(UploadedFile(file, path, url)) <==> url != ""
  {
    var o := UploadedFile(file, path, url).entries;
    assert o[1..] == [("url", Str(url)), ("path", Str(path))];
    assert o[1..][1..] == [("path", Str(path))];
    assert Keys(o[1..][1..]) == ["path"];
    assert Keys(o[1..]) == ["url", "path"];
    assert o[1..][1..][1..] == [] && Keys(o[1..][1..][1..]) == [];
    assert Get(o[1..][1..], "path") == Str(path);
    assert Get(o[1..], "path") == Str(path);
    assert Get(o[1..], "url") == Str(url);
  }

  /** The index of the first upload that fails from `i` on, or `n`. */
  function FirstFailure(i: nat, n: nat, stored: nat -> bool, urls: nat -> Option<string>): (r: nat)
    requires i <= n
    ensures i <= r <= n
    ensures forall j :: i <= j < r ==> stored(j) && urls(j).Some?
    ensures r < n ==> !(stored(r) && urls(r).Some?)
    decreases n - i
  {
    if i == n then n
    else if !(stored(i) && urls(i).Some?) then i
    else FirstFailure(i + 1, n, stored, urls)
  }

  /** The first failure is unique: an index before which all succeed and at
      which one fails is the first failure. */
  lemma FirstFailureIs(k: nat, n: nat, stored: nat -> bool, urls: nat -> Option<string>)
    requires k <= n
    requires forall j :: 0 <= j < k ==> stored(j) && urls(j).Some?
    requires k < n ==> !(stored(k) && urls(k).Some?)
    ensures FirstFailure(0, n, stored, urls) == k
  {
  }

  /** How many files were written to storage before the upload loop ended:
      a failed URL request comes after its file was written. */
  function Written(n: nat, stored: nat -> bool, urls: nat -> Option<string>): (r: nat)
    ensures r <= n
  {
    var f := FirstFailure(0, n, stored, urls);
    if f < n && stored(f) then f + 1 else f
  }

  /** The storage paths of the new files, in order; the i-th upload uses the
      i-th generated identifier. */
  function Paths(newFiles: seq<Value>, folder: Value, uuid: nat -> string): (r: seq<string>)
    ensures |r| == |newFiles|
  {
    seq(|newFiles|, i requires 0 <= i < |newFiles| => UploadPath(folder, uuid(i), newFiles[i]))
  }

  /** The descriptions of the first `k` uploaded files. */
  function Uploaded(newFiles: seq<Value>, folder: Value, uuid: nat -> string, urls: nat -> Option<string>, k: nat): (r: seq<Value>)
    requires k <= |newFiles| && forall j :: 0 <= j < k ==> urls(j).Some?
    ensures |r| == k
  {
    seq(k, i requires 0 <= i < k => UploadedFile(newFiles[i], UploadPath(folder, uuid(i), newFiles[i]), urls(i).value))
  }

  /** The file store after writing `files` at `paths`, one after the other. */
  function PutAll(objects: map<string, Value>, paths: seq<string>, files: seq<Value>): map<string, Value>
    requires |paths| == |files|
  {
    if paths == [] then objects
    else PutAll(objects, paths[..|paths| - 1], files[..|files| - 1])[paths[|paths| - 1] := files[|files| - 1]]
  }

  /** A path not written keeps what it held. */
  lemma {:induction false} PutAllKeeps(objects: map<string, Value>, paths: seq<string>, files: seq<Value>, p: string)
    requires |paths| == |files| && p !in paths
    ensures p in PutAll(objects, paths, files) <==> p in objects
    ensures p in objects ==> PutAll(objects, paths, files)[p] == objects[p]
    decreases |paths|
  {
    if paths != [] {
      var n := |paths| - 1;
      assert p !in paths[..n] by {
        forall j | 0 <= j < n ensures paths[..n][j] != p {
          assert paths[..n][j] == paths[j];
        }
      }
      PutAllKeeps(objects, paths[..n], files[..n], p);
    }
  }

  /** A file written at a path no later write reuses is found there. */
  lemma {:induction false} PutAllFinds(objects: map<string, Value>, paths: seq<string>, files: seq<Value>, i: nat)
    requires |paths| == |files| && i < |paths|
    requires forall j :: i < j < |paths| ==> paths[j] != paths[i]
    ensures paths[i] in PutAll(objects, paths, files) && PutAll(objects, paths, files)[paths[i]] == files[i]
    decreases |paths|
  {
    var n := |paths| - 1;
    if i < n {
      assert paths[n] != paths[i];
      assert paths[..n][i] == paths[i] && files[..n][i] == files[i];
      PutAllFinds(objects, paths[..n], files[..n], i);
    }
  }

  /** Writing one more file extends the writes so far. */
  lemma PutAllNext(objects: map<string, Value>, paths: seq<string>, files: seq<Value>, i: nat)
    requires |paths| == |files| && i < |paths|
    ensures PutAll(objects, paths[..i + 1], files[..i + 1]) == PutAll(objects, paths[..i], files[..i])[paths[i] := files[i]]
  {
    assert paths[..i + 1][..i] == paths[..i] && files[..i + 1][..i] == files[..i];
  }

  lemma WritesNext(before: seq<string>, paths: seq<string>, i: nat)
    requires i < |paths|
    ensures before + paths[..i + 1] == (before + paths[..i]) + [paths[i]]
  {
    assert paths[..i + 1] == paths[..i] + [paths[i]];
  }

  /** One more successful upload adds its description at the end. */
  lemma UploadedNext(newFiles: seq<Value>, folder: Value, uuid: nat -> string, urls: nat -> Option<string>, i: nat)
    requires i < |newFiles| && forall j :: 0 <= j <= i ==> urls(j).Some?
    ensures Uploaded(newFiles, folder, uuid, urls, i + 1)
         == Uploaded(newFiles, folder, uuid, urls, i) + [UploadedFile(newFiles[i], UploadPath(folder, uuid(i), newFiles[i]), urls(i).value)]
  {
  }

  /** How the file stage of `save` ends: it throws a TypeError, it rejects
      the list, or it goes on with the kept and the new files. */
  datatype FilePlan = FilesTypeError | TooManyFiles | Plan(kept: seq<Value>, newFiles: seq<Value>)

  /** The file stage before any upload: split, then the limit. */
  function PlanFiles(files: Value): (r: FilePlan)
    ensures r.FilesTypeError? <==> FileList(files).None?
    ensures r.TooManyFiles? <==> FileList(files).Some? && |FileList(files).value| > FILE_LIMIT
    ensures r.Plan? ==>
      && r.kept == KeptFiles(FileList(files).value)
      && r.newFiles == NewFiles(FileList(files).value)
      && |r.kept| + |r.newFiles| <= FILE_LIMIT
      && forall i :: 0 <= i < |r.newFiles| ==> !Nullish(r.newFiles[i]) && !HasUrl(r.newFiles[i])
  {
    match FileList(files)
    case None => FilesTypeError
    case Some(list) =>
      FilesPartition(list);
      var kept := KeptFiles(list);
      var newFiles := NewFiles(list);
      assert forall i :: 0 <= i < |newFiles| ==> newFiles[i] in multiset(list);
      if |kept| + |newFiles| > FILE_LIMIT then TooManyFiles else Plan(kept, newFiles)
  }

  // ---------------------------------------------------------------- writing

  /** The payload as written, with its file list replaced. */
  function WithFiles(payload: Entries, files: seq<Value>): Entries
  {
    Set(payload, "files", Array(files))
  }

  /** A new request gets `<code>/<semester>` as its access code and a
      creation time. */
  function Created(stored: Entries, code: string): Entries
  {
    Set(Set(stored, "access_code", Str(code + "/" + Display(Get(stored, "semester")))), "created_at", ServerTimestamp)
  }

  /** The written document keeps every field of the request except the file
      list, which it replaces, and the update time, which it sets. */
  lemma StoredFields(request: Entries, files: seq<Value>)
    ensures Get(WithFiles(Stamped(request), files), "files") == Array(files)
    ensures Get(WithFiles(Stamped(request), files), "update_at") == ServerTimestamp
    ensures forall k :: k != "files" && k != "update_at" ==>
      Get(WithFiles(Stamped(request), files), k) == Get(request, k)
  {
    var payload := Stamped(request);
    StampedFields(request);
    forall k {
      GetSet(payload, "files", Array(files), k);
    }
  }

  /** A created request holds `<code>/<semester>` as its access code and the
      creation sentinel, and every other field as before. */
  lemma CreatedFields(stored: Entries, code: string)
    ensures Get(Created(stored, code), "access_code") == Str(code + "/" + Display(Get(stored, "semester")))
    ensures Get(Created(stored, code), "created_at") == ServerTimestamp
    ensures forall k :: k != "access_code" && k != "created_at" ==> Get(Created(stored, code), k) == Get(stored, k)
  {
    var c := Str(code + "/" + Display(Get(stored, "semester")));
    var s1 := Set(stored, "access_code", c);
    assert Created(stored, code) == Set(s1, "created_at", ServerTimestamp);
    GetSet(s1, "created_at", ServerTimestamp, "access_code");
    GetSet(stored, "access_code", c, "access_code");
    GetSet(s1, "created_at", ServerTimestamp, "created_at");
    forall k | k != "access_code" && k != "created_at" ensures Get(Created(stored, code), k) == Get(stored, k) {
      GetSet(s1, "created_at", ServerTimestamp, k);
      GetSet(stored, "access_code", c, k);
    }
  }

  /** The code is six characters without a slash, so the access code starts
      with it, then a slash, and the part before the first slash gives the
      code back. */
  lemma AccessCodeText(code: string, semester: string)
    requires IsNanoid(code)
    ensures var c := code + "/" + semester;
      && |c| > NANOID_SIZE && c[..NANOID_SIZE] == code && c[NANOID_SIZE] == '/'
      && Split(c, '/')[0] == code
  {
    NanoidHasNoSlash(code);
    var rest := "/" + semester;
    assert code + "/" + semester == code + rest;
    SplitFreePrefix(code, rest, '/');
    assert rest[0] == '/' && rest[1..] == semester;
    assert Split(rest, '/')[0] == "";
    assert code + "" == code;
  }

  /** How `save` ends: it throws the limit error or a TypeError, the upload
      error propagates, or it resolves with the access code (`undefined`
      when the document write failed). */
  datatype SaveOutcome = LimitError(message: string) | TypeError | UploadError | Resolved(code: Value)

  /** A loaded list of requests. The list is one array shared by reference:
      `requests` and the cache entry of the semester it was loaded for are
      the same array, so patching one entry in place shows through both. */
  class RequestList {
    var items: seq<Entries>

    constructor (items: seq<Entries>)
      ensures this.items == items
    {
      this.items := items;
    }
  }

  class RequestStore {
    var requests: RequestList
    var requestsCache: map<string, RequestList>
    var filters: Entries
    const db: Collection
    const storage: Storage

    constructor (db: Collection, storage: Storage)
      ensures this.db == db && this.storage == storage
      ensures fresh(requests) && requests.items == []
      ensures requestsCache == map[] && filters == DefaultFilters()
    {
      this.db := db;
      this.storage := storage;
      requests := new RequestList([]);
      requestsCache := map[];
      filters := DefaultFilters();
    }

    /** `hasRequests`. */
    function HasRequests(): (r: bool)
      reads this, requests
      ensures r <==> requests.items != []
    {
      |requests.items| > 0
    }

    /** `get`: serves a semester's list from the cache when it holds one;
        otherwise queries (ordered by creation then name, filtered by every
        clause), replaces the list with the result and caches it under the
        semester when one was given. A failed query changes nothing. A cache
        hit makes the cached array itself the current list; a query result is
        one new array, both the current list and the cache entry. */
    method Load(arrayFilters: seq<Filter>, outcome: QueryOutcome) returns (queried: bool)
      requires outcome.Docs? ==> Answers(outcome.result, db.docs, ORDERED_BY, arrayFilters)
      modifies this
      ensures filters == old(filters)
      ensures var semester := SemesterFilter(arrayFilters);
        queried <==> !(Truthy(semester) && Display(semester) in old(requestsCache))
      ensures var semester := SemesterFilter(arrayFilters);
        !queried ==> requests == old(requestsCache)[Display(semester)] && requestsCache == old(requestsCache)
      ensures queried && outcome.QueryFailed? ==>
        requests == old(requests) && requestsCache == old(requestsCache)
      ensures var semester := SemesterFilter(arrayFilters);
        queried && outcome.Docs? ==>
          && fresh(requests)
          && requests.items == Loaded(outcome.result)
          && requestsCache == if Truthy(semester) then old(requestsCache)[Display(semester) := requests]
                              else old(requestsCache)
    {
      var semester := SemesterFilter(arrayFilters);
      if Truthy(semester) && Display(semester) in requestsCache {
        requests := requestsCache[Display(semester)];
        return false;
      }
      queried := true;
      match outcome
      case QueryFailed =>
      case Docs(result) =>
        var data := new RequestList(Loaded(result));
        requests := data;
        if Truthy(semester) {
          requestsCache := requestsCache[Display(semester) := data];
        }
    }

    /** `getById`: a copy of the document's fields, or `None` (null) when it
        does not exist or the read failed. */
    method GetById(id: string, reachable: bool) returns (r: Option<Entries>)
      ensures r == if reachable && id in db.docs then Some(Assign([], db.docs[id])) else None
    {
      var result := db.GetDoc(id, reachable);
      r := if result.Found? then Some(Assign([], result.data)) else None;
    }

    /** `uploadFile`: writes the file under its path and describes it by its
        name, download URL and path. Reading `file.name` throws for a null
        or undefined file; the write and the URL request can each fail. */
    method UploadFile(file: Value, folder: Value, uuid: string, reachable: bool, url: Option<string>)
      returns (r: Option<Value>)
      modifies storage
      ensures var path := UploadPath(folder, uuid, file);
        var writes := !Nullish(file) && reachable;
        && storage.objects == (if writes then old(storage.objects)[path := file] else old(storage.objects))
        && storage.writes == (if writes then old(storage.writes) + [path] else old(storage.writes))
        && r == if writes && url.Some? then Some(UploadedFile(file, path, url.value)) else None
    {
      if Nullish(file) {
        return None;
      }
      var path := UploadPath(folder, uuid, file);
      var ok := storage.UploadBytes(path, file, reachable);
      if !ok {
        return None;
      }
      var link := storage.GetDownloadUrl(path, url);
      if link.None? {
        return None;
      }
      r := Some(UploadedFile(file, path, link.value));
    }

    /** The sequential upload loop of `save`: each new file in turn, stopping
        at the first failure. */
    method UploadAll(newFiles: seq<Value>, folder: Value, uuid: nat -> string,
                     reachable: nat -> bool, urls: nat -> Option<string>)
      returns (uploaded: seq<Value>, ok: bool)
      requires forall i :: 0 <= i < |newFiles| ==> !Nullish(newFiles[i])
      modifies storage
      ensures var n := |newFiles|;
        var w := Written(n, reachable, urls);
        && ok == (FirstFailure(0, n, reachable, urls) == n)
        && storage.writes == old(storage.writes) + Paths(newFiles, folder, uuid)[..w]
        && storage.objects == PutAll(old(storage.objects), Paths(newFiles, folder, uuid)[..w], newFiles[..w])
        && (ok ==> uploaded == Uploaded(newFiles, folder, uuid, urls, n))
    {
      var paths := Paths(newFiles, folder, uuid);
      uploaded := [];
      var i := 0;
      while i < |newFiles|
        invariant 0 <= i <= |newFiles|
        invariant forall j :: 0 <= j < i ==> reachable(j) && urls(j).Some?
        invariant uploaded == Uploaded(newFiles, folder, uuid, urls, i)
        invariant storage.writes == old(storage.writes) + paths[..i]
        invariant storage.objects == PutAll(old(storage.objects), paths[..i], newFiles[..i])
      {
        var r := UploadFile(newFiles[i], folder, uuid(i), reachable(i), urls(i));
        PutAllNext(old(storage.objects), paths, newFiles, i);
        WritesNext(old(storage.writes), paths, i);
        if r.None? {
          FirstFailureIs(i, |newFiles|, reachable, urls);
          return uploaded, false;
        }
        UploadedNext(newFiles, folder, uuid, urls, i);
        uploaded := uploaded + [r.value];
        i := i + 1;
      }
      FirstFailureIs(|newFiles|, |newFiles|, reachable, urls);
      ok := true;
    }

    /** The write stage of `save`, inside its `try`: an update writes over the
        stored document and patches the loaded list in place, and with it the
        cache entry that is that same list; a create mints the access code. A
        failed write is logged and resolves to `undefined`. */
    method Write(stored: Entries, id: string, code: string, writeOk: bool, newId: string)
      returns (outcome: SaveOutcome)
      requires id == "" ==> newId !in db.docs
      modifies db, requests
      ensures requests == old(requests) && requestsCache == old(requestsCache) && filters == old(filters)
      ensures forall k :: k in requestsCache ==>
        requestsCache[k].items == if requestsCache[k] == requests then requests.items else old(requestsCache[k].items)
      ensures id != "" ==>
        var written := writeOk && id in old(db.docs);
        && db.docs == (if written then old(db.docs)[id := Assign(old(db.docs)[id], stored)] else old(db.docs))
        && requests.items == (if written then Patched(old(requests.items), id, stored) else old(requests.items))
        && outcome == Resolved(if written then Get(stored, "access_code") else Undefined)
      ensures id == "" ==>
        && db.docs == (if writeOk then old(db.docs)[newId := Created(stored, code)] else old(db.docs))
        && requests.items == old(requests.items)
        && outcome == Resolved(if writeOk then Get(Created(stored, code), "access_code") else Undefined)
    {
      if id != "" {
        var ok := db.UpdateDoc(id, stored, writeOk);
        if !ok {
          return Resolved(Undefined);
        }
        var index := FindIndex(requests.items, "id", Str(id));
        if index != -1 {
          requests.items := requests.items[index := Spread(requests.items[index], stored)];
        }
        outcome := Resolved(Get(stored, "access_code"));
      } else {
        var created := Created(stored, code);
        var ok := db.AddDoc(created, newId, writeOk);
        if !ok {
          return Resolved(Undefined);
        }
        outcome := Resolved(Get(created, "access_code"));
      }
    }

    /** `save`: checks and uploads the attachments, then creates or updates
        the request. `id` is "" when none was given. The i-th upload uses
        identifier `uuid(i)`, succeeds in writing the file when
        `reachable(i)` and gets the URL `urls(i)`; `code` is the generated
        access code and `newId` the identifier of a created document. An
        update patches the loaded list in place, so a cache entry that is
        that list sees the patch; every other cached list is unchanged. */
    method Save(request: Entries, id: string, code: string, uuid: nat -> string,
                reachable: nat -> bool, urls: nat -> Option<string>, writeOk: bool, newId: string)
      returns (outcome: SaveOutcome)
      requires IsNanoid(code)
      requires id == "" ==> newId !in db.docs
      modifies db, storage, requests
      ensures requests == old(requests) && requestsCache == old(requestsCache) && filters == old(filters)
      ensures forall k :: k in requestsCache ==>
        requestsCache[k].items == if requestsCache[k] == requests then requests.items else old(requestsCache[k].items)
      ensures var plan := PlanFiles(Get(Stamped(request), "files"));
        !plan.Plan? ==>
          && outcome == (if plan.TooManyFiles? then LimitError(FILE_LIMIT_MESSAGE) else TypeError)
          && requests.items == old(requests.items) && db.docs == old(db.docs)
          && storage.objects == old(storage.objects) && storage.writes == old(storage.writes)
      ensures var payload := Stamped(request);
        var plan := PlanFiles(Get(payload, "files"));
        plan.Plan? ==>
          var folder := Get(payload, "semester");
          var n := |plan.newFiles|;
          var w := Written(n, reachable, urls);
          && storage.writes == old(storage.writes) + Paths(plan.newFiles, folder, uuid)[..w]
          && storage.objects == PutAll(old(storage.objects), Paths(plan.newFiles, folder, uuid)[..w], plan.newFiles[..w])
          && (FirstFailure(0, n, reachable, urls) < n ==>
                outcome == UploadError && requests.items == old(requests.items) && db.docs == old(db.docs))
          && (FirstFailure(0, n, reachable, urls) == n ==>
                var stored := WithFiles(payload, plan.kept + Uploaded(plan.newFiles, folder, uuid, urls, n));
                && (id != "" ==>
                      var written := writeOk && id in old(db.docs);
                      && db.docs == (if written then old(db.docs)[id := Assign(old(db.docs)[id], stored)] else old(db.docs))
                      && requests.items == (if written then Patched(old(requests.items), id, stored) else old(requests.items))
                      && outcome == Resolved(if written then Get(stored, "access_code") else Undefined))
                && (id == "" ==>
                      && db.docs == (if writeOk then old(db.docs)[newId := Created(stored, code)] else old(db.docs))
                      && requests.items == old(requests.items)
                      && outcome == Resolved(if writeOk then Get(Created(stored, code), "access_code") else Undefined)))
    {
      var payload := Stamped(request);
      var plan := PlanFiles(Get(payload, "files"));
      if plan.FilesTypeError? {
        return TypeError;
      }
      if plan.TooManyFiles? {
        return LimitError(FILE_LIMIT_MESSAGE);
      }
      var folder := Get(payload, "semester");
      var uploaded, ok := UploadAll(plan.newFiles, folder, uuid, reachable, urls);
      if !ok {
        return UploadError;
      }
      var stored := WithFiles(payload, plan.kept + uploaded);
      outcome := Write(stored, id, code, writeOk, newId);
    }

    /** `remove`: a failed delete is logged and swallowed; the loaded list is
        not touched. */
    method Remove(id: string, reachable: bool)
      modifies db
      ensures db.docs == if reachable then old(db.docs) - {id} else old(db.docs)
    {
      var _ := db.DeleteDoc(id, reachable);
    }

    /** `removeFile`: the error of a failed delete is rethrown. */
    method RemoveFile(path: string, reachable: bool) returns (thrown: bool)
      modifies storage
      ensures thrown <==> !(reachable && path in old(storage.objects))
      ensures storage.writes == old(storage.writes)
      ensures storage.objects == if thrown then old(storage.objects) else old(storage.objects) - {path}
    {
      var ok := storage.DeleteObject(path, reachable);
      thrown := !ok;
    }
  }

  /** The uploaded descriptions, one per new file in order, each naming its
      file and giving the path it was written to and its URL. */
  lemma UploadedDescriptions(newFiles: seq<Value>, folder: Value, uuid: nat -> string, urls: nat -> Option<string>, k: nat)
    requires k <= |newFiles| && forall j :: 0 <= j < k ==> urls(j).Some?
    ensures forall i :: 0 <= i < k ==>
      var d := Uploaded(newFiles, folder, uuid, urls, k)[i];
      && Prop(d, "name") == Prop(newFiles[i], "name")
      && Prop(d, "path") == Str(UploadPath(folder, uuid(i), newFiles[i]))
      && Prop(d, "url") == Str(urls(i).value)
  {
    forall i | 0 <= i < k
      ensures var d := Uploaded(newFiles, folder, uuid, urls, k)[i];
        && Prop(d, "name") == Prop(newFiles[i], "name")
        && Prop(d, "path") == Str(UploadPath(folder, uuid(i), newFiles[i]))
        && Prop(d, "url") == Str(urls(i).value)
    {
      UploadedFileFields(newFiles[i], UploadPath(folder, uuid(i), newFiles[i]), urls(i).value);
    }
  }

  /** What a successful save stores as the file list: the kept files first,
      unchanged, then the uploaded ones; at most three in all. */
  lemma SavedFileList(request: Entries, uuid: nat -> string, urls: nat -> Option<string>)
    requires PlanFiles(Get(Stamped(request), "files")).Plan?
    requires var plan := PlanFiles(Get(Stamped(request), "files"));
      forall j :: 0 <= j < |plan.newFiles| ==> urls(j).Some?
    ensures var plan := PlanFiles(Get(Stamped(request), "files"));
      var files := plan.kept + Uploaded(plan.newFiles, Get(request, "semester"), uuid, urls, |plan.newFiles|);
      && |files| <= FILE_LIMIT
      && files[..|plan.kept|] == plan.kept
      && Get(WithFiles(Stamped(request), files), "files") == Array(files)
  {
    var plan := PlanFiles(Get(Stamped(request), "files"));
    var files := plan.kept + Uploaded(plan.newFiles, Get(request, "semester"), uuid, urls, |plan.newFiles|);
    StoredFields(request, files);
  }
}
