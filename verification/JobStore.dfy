/** The gateway's jobs table: every statement that writes it, as a function on
    rows and tables, and the class whose methods run those statements. */
module JobStore {
  import opened Wrappers

  datatype Status = Pending | Rendering | Completed | Failed

  /** The columns a job is created with and no statement ever changes. */
  datatype JobSpec = JobSpec(visitorId: string, profileId: string, jobDescription: string, modelKey: string)

  datatype Row = Row(
    spec: JobSpec,
    status: Status,
    error: Option<string>,
    pdfObjectKey: Option<string>,
    cv: Option<string>,
    createdAt: int,
    updatedAt: int)

  type Table = map<string, Row>

  const TIMED_OUT := "job timed out"

  predicate Terminal(status: Status) {
    status.Completed? || status.Failed?
  }

  /** What the columns of a row say together. */
  predicate Consistent(r: Row) {
    && (r.status.Completed? <==> r.pdfObjectKey.Some?)
    && (r.status.Failed? <==> r.error.Some?)
    && (r.status.Pending? ==> r.cv.None? && r.updatedAt == r.createdAt)
    && (r.status.Rendering? ==> r.cv.Some?)
    && r.createdAt <= r.updatedAt
  }

  // ---- one row ----

  function NewRow(spec: JobSpec, now: int): Row {
    Row(spec, Pending, None, None, None, now, now)
  }

  /** The guarded single-row updates, named by what they set. */
  datatype Change =
    | ToRendering(cv: string)
    | ToCompleted(key: string)
    | ToFailed(text: string)
    | ToFailedProcessing(text: string)
  {
    /** The status guard in the statement's WHERE clause. */
    predicate Guard(status: Status) {
      if ToRendering? || ToFailedProcessing? then status.Pending? else !Terminal(status)
    }

    /** The row after the statement; a row outside the guard is not touched. */
    function On(r: Row, now: int): Row {
      if !Guard(r.status) then r
      else match this
        case ToRendering(cv) => r.(status := Rendering, cv := Some(cv), updatedAt := now)
        case ToCompleted(key) => r.(status := Completed, pdfObjectKey := Some(key), updatedAt := now)
        case ToFailed(text) => r.(status := Failed, error := Some(text), updatedAt := now)
        case ToFailedProcessing(text) => r.(status := Failed, error := Some(text), updatedAt := now)
    }
  }

  predicate Stuck(r: Row, olderThan: nat, now: int) {
    !Terminal(r.status) && r.updatedAt < now - olderThan
  }

  function RowSwept(r: Row, olderThan: nat, now: int): Row {
    if Stuck(r, olderThan, now) then r.(status := Failed, error := Some(TIMED_OUT), updatedAt := now)
    else r
  }

  // ---- the table ----

  /** `UPDATE jobs ... WHERE id = $1 AND ...`: a missing id updates nothing. */
  function Update(rows: Table, id: string, change: Change, now: int): (out: Table)
    ensures out.Keys == rows.Keys
    ensures id in rows ==> out[id] == change.On(rows[id], now)
    ensures forall other :: other in rows && other != id ==> out[other] == rows[other]
  {
    if id in rows then rows[id := change.On(rows[id], now)] else rows
  }

  function StuckIds(rows: Table, olderThan: nat, now: int): set<string> {
    set id | id in rows && Stuck(rows[id], olderThan, now)
  }

  function Swept(rows: Table, olderThan: nat, now: int): (out: Table) {
    map id | id in rows :: RowSwept(rows[id], olderThan, now)
  }

  // ---- the statements ----

  /** How a statement came back: applied and reported, failed without effect, or
      applied with the reply lost so that the caller sees an error. */
  datatype Db = Commits | Aborts | LosesReply

  class Store {
    var rows: Table
    var now: int  // the database clock

    constructor ()
      ensures rows == map[] && now == 0
    {
      rows, now := map[], 0;
    }

    method CreateJob(id: string, spec: JobSpec, db: Db) returns (created: Result<string, ()>)
      requires id !in rows
      modifies this`rows
      ensures rows == if db.Aborts? then old(rows) else old(rows)[id := NewRow(spec, now)]
      ensures !db.Aborts? ==> rows[id] == Row(spec, Pending, None, None, None, now, now)
      ensures created == if db.Commits? then Success(id) else Failure(())
    {
      if !db.Aborts? {
        rows := rows[id := NewRow(spec, now)];
      }
      created := if db.Commits? then Success(id) else Failure(());
    }

    method MarkRendering(id: string, cv: string, db: Db) returns (ok: bool)
      modifies this`rows
      ensures rows == if db.Aborts? then old(rows) else Update(old(rows), id, ToRendering(cv), now)
      ensures !db.Aborts? && id in rows ==>
                rows[id] == if old(rows)[id].status == Pending
                            then old(rows)[id].(status := Rendering, cv := Some(cv), updatedAt := now)
                            else old(rows)[id]
      ensures ok <==> db.Commits?
    {
      if !db.Aborts? && id in rows && rows[id].status == Pending {
        rows := rows[id := rows[id].(status := Rendering, cv := Some(cv), updatedAt := now)];
      }
      assert !db.Aborts? ==> rows == Update(old(rows), id, ToRendering(cv), now);
      ok := db.Commits?;
    }

    /** `applied` reports a transition; a missing or terminal row is not an error. */
    method MarkCompleted(id: string, key: string, db: Db) returns (result: Result<Option<int>, ()>)
      modifies this`rows
      ensures rows == if db.Aborts? then old(rows) else Update(old(rows), id, ToCompleted(key), now)
      ensures !db.Aborts? && id in rows ==>
                rows[id] == if old(rows)[id].status in {Pending, Rendering}
                            then old(rows)[id].(status := Completed, pdfObjectKey := Some(key), updatedAt := now)
                            else old(rows)[id]
      ensures result == Reported(old(rows), rows, id, db)
    {
      if db.Aborts? { return Failure(()); }
      var transition := None;
      if id in rows && rows[id].status !in {Completed, Failed} {
        rows := rows[id := rows[id].(status := Completed, pdfObjectKey := Some(key), updatedAt := now)];
        transition := Some(rows[id].createdAt);
      }
      assert rows == Update(old(rows), id, ToCompleted(key), now);
      result := if db.Commits? then Success(transition) else Failure(());
    }

    method MarkFailedProcessing(id: string, text: string, db: Db) returns (result: Result<Option<int>, ()>)
      modifies this`rows
      ensures rows == if db.Aborts? then old(rows) else Update(old(rows), id, ToFailedProcessing(text), now)
      ensures !db.Aborts? && id in rows ==>
                rows[id] == if old(rows)[id].status == Pending
                            then old(rows)[id].(status := Failed, error := Some(text), updatedAt := now)
                            else old(rows)[id]
      ensures result == Reported(old(rows), rows, id, db)
    {
      result := MarkFailedWhere(id, text, {Pending}, db);
      assert !db.Aborts? ==> rows == Update(old(rows), id, ToFailedProcessing(text), now);
    }

    method MarkFailed(id: string, text: string, db: Db) returns (result: Result<Option<int>, ()>)
      modifies this`rows
      ensures rows == if db.Aborts? then old(rows) else Update(old(rows), id, ToFailed(text), now)
      ensures !db.Aborts? && id in rows ==>
                rows[id] == if old(rows)[id].status in {Pending, Rendering}
                            then old(rows)[id].(status := Failed, error := Some(text), updatedAt := now)
                            else old(rows)[id]
      ensures result == Reported(old(rows), rows, id, db)
    {
      result := MarkFailedWhere(id, text, {Pending, Rendering}, db);
      assert !db.Aborts? ==> rows == Update(old(rows), id, ToFailed(text), now);
    }

    method MarkFailedWhere(id: string, text: string, guard: set<Status>, db: Db)
      returns (result: Result<Option<int>, ()>)
      requires guard !! {Completed, Failed}
      modifies this`rows
      ensures !db.Aborts? && id in old(rows) && old(rows)[id].status in guard ==>
                rows == old(rows)[id := old(rows)[id].(status := Failed, error := Some(text), updatedAt := now)]
      ensures db.Aborts? || id !in old(rows) || old(rows)[id].status !in guard ==> rows == old(rows)
      ensures result == Reported(old(rows), rows, id, db)
    {
      if db.Aborts? { return Failure(()); }
      var transition := None;
      if id in rows && rows[id].status in guard {
        rows := rows[id := rows[id].(status := Failed, error := Some(text), updatedAt := now)];
        transition := Some(rows[id].createdAt);
      }
      result := if db.Commits? then Success(transition) else Failure(());
    }

    method SweepStuck(olderThan: nat, db: Db) returns (result: Result<nat, ()>)
      modifies this`rows
      ensures rows == if db.Aborts? then old(rows) else Swept(old(rows), olderThan, now)
      ensures !db.Aborts? ==> rows.Keys == old(rows).Keys && forall id :: id in rows ==>
                rows[id] == if old(rows)[id].status in {Pending, Rendering} && old(rows)[id].updatedAt < now - olderThan
                            then old(rows)[id].(status := Failed, error := Some("job timed out"), updatedAt := now)
                            else old(rows)[id]
      ensures result == if db.Commits? then Success(|StuckIds(old(rows), olderThan, now)|) else Failure(())
    {
      if db.Aborts? { return Failure(()); }
      var affected := StuckIds(rows, olderThan, now);
      rows := map id | id in rows ::
        if id in affected then rows[id].(status := Failed, error := Some(TIMED_OUT), updatedAt := now)
        else rows[id];
      result := if db.Commits? then Success(|affected|) else Failure(());
    }
  }

  /** What a guarded update reports to its caller: the creation time of the row
      it moved to a terminal status, or None when it moved nothing. */
  function Reported(before: Table, after: Table, id: string, db: Db): Result<Option<int>, ()> {
    if !db.Commits? then Failure(())
    else if id in before && id in after && !Terminal(before[id].status) && Terminal(after[id].status)
    then Success(Some(before[id].createdAt))
    else Success(None)
  }
}
