/** The semester store of src/stores/semester.js: the latest semesters, each
    classified as active, expected or closed from its dates and the current
    time, and the operations that read and write semesters.

    Instants are milliseconds on the local clock. Turning the text of a date
    into an instant (`new Date(...)`, which reads it in the local time zone)
    is a parameter: `None` stands for an invalid date, which every
    comparison treats as false. */
module Semesters {
  import opened JsValues
  import opened Backend

  datatype Status = Ativo | Previsto | Encerrado

  /** The text the store writes into a record's `status`. */
  function StatusName(s: Status): string
  {
    match s
    case Ativo => "ativo"
    case Previsto => "previsto"
    case Encerrado => "encerrado"
  }

  lemma StatusNamesDiffer(a: Status, b: Status)
    ensures StatusName(a) == StatusName(b) <==> a == b
  {
  }

  const DAY_MS := 86400000
  /** From midnight to 23:59:59 of the same day. */
  const LAST_SECOND_MS := 86399000
  const SEMESTER_LIMIT := 3

  /** A semester starts at midnight of its first day... */
  function StartText(start: Value): string
  {
    Display(start) + "T00:00:00"
  }

  /** ...and ends at 23:59:59 of its last day. */
  function EndText(end: Value): string
  {
    Display(end) + "T23:59:59"
  }

  /** The status of a semester from its first and last instants: active from
      the first through the last, expected before the first, closed
      otherwise (also when a date is invalid and the comparisons fail). */
  function Classify(start: Option<int>, end: Option<int>, now: int): (r: Status)
    ensures r == Ativo <==> start.Some? && end.Some? && start.value <= now <= end.value
    ensures r == Previsto <==> start.Some? && now < start.value
    ensures r == Encerrado <==>
      (start.None? || start.value <= now) && (start.None? || end.None? || now > end.value)
  {
    if start.Some? && end.Some? && now >= start.value && now <= end.value then Ativo
    else if start.Some? && now < start.value then Previsto
    else Encerrado
  }

  /** How far along a status is: expected, then active, then closed. */
  function Rank(s: Status): nat
  {
    match s
    case Previsto => 0
    case Ativo => 1
    case Encerrado => 2
  }

  /** As time passes a semester only moves forward: from expected to active
      to closed, never back. */
  lemma ClassifyMovesForward(start: Option<int>, end: Option<int>, earlier: int, later: int)
    requires earlier <= later
    ensures Rank(Classify(start, end, earlier)) <= Rank(Classify(start, end, later))
  {
  }

  /** For dates read as whole days: the semester is expected before its first
      day, active at every whole second of every one of its days, and closed
      from the day after its last. */
  lemma ClassifyByDay(firstDay: int, lastDay: int, day: int, second: int)
    requires firstDay <= day <= lastDay && 0 <= second < DAY_MS / 1000
    ensures var start := Some(firstDay * DAY_MS);
      var end := Some(lastDay * DAY_MS + LAST_SECOND_MS);
      && Classify(start, end, day * DAY_MS + second * 1000) == Ativo
      && Classify(start, end, firstDay * DAY_MS - 1) == Previsto
      && Classify(start, end, (lastDay + 1) * DAY_MS) == Encerrado
  {
  }

  /** `{ id: snap.id, ...data, status }`, with the status computed from the
      record's `start` and `end` at `now`. */
  function SemesterRecord(id: string, data: Entries, now: int, parse: string -> Option<int>): (r: Entries)
    ensures Get(r, "status") ==
      Str(StatusName(Classify(parse(StartText(Get(data, "start"))), parse(EndText(Get(data, "end"))), now)))
    ensures forall k :: k != "status" ==>
      Get(r, k) == if k in Keys(data) then Get(data, k) else if k == "id" then Str(id) else Undefined
  {
    var status := Classify(parse(StartText(Get(data, "start"))), parse(EndText(Get(data, "end"))), now);
    var withId := Spread([("id", Str(id))], data);
    SpreadReads([("id", Str(id))], data);
    SpreadReads(withId, [("status", Str(StatusName(status)))]);
    Spread(withId, [("status", Str(StatusName(status)))])
  }

  /** The status a fetched document gets. */
  function StatusOf(doc: (string, Entries), now: int, parse: string -> Option<int>): Status
  {
    Classify(parse(StartText(Get(doc.1, "start"))), parse(EndText(Get(doc.1, "end"))), now)
  }

  /** The records of a load, one per fetched document, in query order. */
  function Classified(result: seq<(string, Entries)>, now: int, parse: string -> Option<int>): (r: seq<Entries>)
    ensures |r| == |result|
    ensures forall i :: 0 <= i < |result| ==> r[i] == SemesterRecord(result[i].0, result[i].1, now, parse)
  {
    seq(|result|, i requires 0 <= i < |result| => SemesterRecord(result[i].0, result[i].1, now, parse))
  }

  /** `semesters.find(s => s.status === status) || null`. */
  function FindByStatus(semesters: seq<Entries>, status: Status): (r: Option<Entries>)
    ensures r.None? <==> forall j :: 0 <= j < |semesters| ==> Get(semesters[j], "status") != Str(StatusName(status))
    ensures r.Some? ==> var i := FindIndex(semesters, "status", Str(StatusName(status)));
      0 <= i < |semesters| && r.value == semesters[i] && Get(r.value, "status") == Str(StatusName(status))
  {
    var i := FindIndex(semesters, "status", Str(StatusName(status)));
    if i == -1 then None else Some(semesters[i])
  }

  /** After a load, the semester found for a status is the first fetched
      document whose dates give that status at the time of the load; there
      is none exactly when no document does. */
  lemma FoundAfterLoad(result: seq<(string, Entries)>, now: int, parse: string -> Option<int>, status: Status)
    ensures var found := FindByStatus(Classified(result, now, parse), status);
      && (found.None? <==> forall j :: 0 <= j < |result| ==> StatusOf(result[j], now, parse) != status)
      && (found.Some? ==>
            exists i ::
              && 0 <= i < |result|
              && found.value == SemesterRecord(result[i].0, result[i].1, now, parse)
              && StatusOf(result[i], now, parse) == status
              && forall j :: 0 <= j < i ==> StatusOf(result[j], now, parse) != status)
  {
    var rs := Classified(result, now, parse);
    forall j | 0 <= j < |result|
      ensures Get(rs[j], "status") == Str(StatusName(status)) <==> StatusOf(result[j], now, parse) == status
    {
      StatusNamesDiffer(StatusOf(result[j], now, parse), status);
    }
    var i := FindIndex(rs, "status", Str(StatusName(status)));
    if i >= 0 {
      assert StatusOf(result[i], now, parse) == status;
    }
  }

  /** `{ ...semester, update_at }` plus `created_at` for a new semester. */
  function CreatedSemester(semester: Entries): Entries
  {
    Set(Stamped(semester), "created_at", ServerTimestamp)
  }

  /** A created semester carries both time sentinels; an updated one only
      the update time, keeping whatever creation time the data held. */
  lemma SemesterWrites(semester: Entries)
    ensures Get(CreatedSemester(semester), "created_at") == ServerTimestamp
    ensures Get(CreatedSemester(semester), "update_at") == ServerTimestamp
    ensures Get(Stamped(semester), "update_at") == ServerTimestamp
    ensures Get(Stamped(semester), "created_at") == Get(semester, "created_at")
  {
    StampedFields(semester);
    GetSet(Stamped(semester), "created_at", ServerTimestamp, "created_at");
    GetSet(Stamped(semester), "created_at", ServerTimestamp, "update_at");
  }

  class SemesterStore {
    var semesters: seq<Entries>
    const db: Collection

    constructor (db: Collection)
      ensures this.db == db && semesters == []
    {
      this.db := db;
      semesters := [];
    }

    /** `activeSemester`: the first loaded semester whose status is "ativo". */
    function ActiveSemester(): (r: Option<Entries>)
      reads this
      ensures r.Some? ==>
        exists i :: 0 <= i < |semesters| && r.value == semesters[i] && Get(r.value, "status") == Str("ativo")
          && forall j :: 0 <= j < i ==> Get(semesters[j], "status") != Str("ativo")
      ensures r.None? <==> forall j :: 0 <= j < |semesters| ==> Get(semesters[j], "status") != Str("ativo")
    {
      FindByStatus(semesters, Ativo)
    }

    /** `predictedSemester`: the first loaded semester whose status is "previsto". */
    function PredictedSemester(): (r: Option<Entries>)
      reads this
      ensures r.Some? ==>
        exists i :: 0 <= i < |semesters| && r.value == semesters[i] && Get(r.value, "status") == Str("previsto")
          && forall j :: 0 <= j < i ==> Get(semesters[j], "status") != Str("previsto")
      ensures r.None? <==> forall j :: 0 <= j < |semesters| ==> Get(semesters[j], "status") != Str("previsto")
    {
      FindByStatus(semesters, Previsto)
    }

    /** `get`: the latest semesters by name, at most three, classified at
        `now`; a failed query is logged and changes nothing. */
    method Load(outcome: QueryOutcome, now: int, parse: string -> Option<int>)
      requires outcome.Docs? ==> AnswersLimited(outcome.result, db.docs, ["name"], [], SEMESTER_LIMIT)
      modifies this
      ensures outcome.QueryFailed? ==> semesters == old(semesters)
      ensures outcome.Docs? ==> semesters == Classified(outcome.result, now, parse)
      ensures |semesters| <= SEMESTER_LIMIT || semesters == old(semesters)
    {
      match outcome
      case QueryFailed =>
      case Docs(result) =>
        semesters := Classified(result, now, parse);
    }

    /** `getById`: a copy of the document's fields, or `None` (null) when it
        does not exist or the read failed. */
    method GetById(id: string, reachable: bool) returns (r: Option<Entries>)
      ensures r == if reachable && id in db.docs then Some(Assign([], db.docs[id])) else None
    {
      var result := db.GetDoc(id, reachable);
      r := if result.Found? then Some(Assign([], result.data)) else None;
    }

    /** `save`: an update (`id` not "") writes the stamped fields over the
        stored semester; a create stores them with a creation time under the
        identifier the service chose. A failed write is logged and swallowed. */
    method Save(semester: Entries, id: string, reachable: bool, newId: string)
      requires id == "" ==> newId !in db.docs
      modifies db
      ensures id != "" ==>
        db.docs == if reachable && id in old(db.docs) then old(db.docs)[id := Assign(old(db.docs)[id], Stamped(semester))]
                   else old(db.docs)
      ensures id == "" ==>
        db.docs == if reachable then old(db.docs)[newId := CreatedSemester(semester)] else old(db.docs)
    {
      var payload := Stamped(semester);
      if id != "" {
        var _ := db.UpdateDoc(id, payload, reachable);
      } else {
        payload := Set(payload, "created_at", ServerTimestamp);
        var _ := db.AddDoc(payload, newId, reachable);
      }
    }

    /** `remove`: a failed delete is logged and swallowed. */
    method Remove(id: string, reachable: bool)
      modifies db
      ensures db.docs == if reachable then old(db.docs) - {id} else old(db.docs)
    {
      var _ := db.DeleteDoc(id, reachable);
    }
  }
}
