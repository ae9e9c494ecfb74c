/** What each of the gateway's handlers comes to, told from the subject, the body
    and the row alone. */
module HandlerLaws {
  import opened Wrappers
  import opened Subjects
  import opened Events
  import opened JobStore
  import opened Projection

  predicate Live(rows: Table, id: string) {
    id in rows && rows[id].status in {Pending, Rendering}
  }

  lemma Parsed(id: string, event: string)
    requires '.' !in id && '.' !in event
    ensures ParseSubject("cv." + id + "." + event) == Some((id, event))
  {
    ParseOfSubject(id, event);
    assert "cv." + id + "." + event == Subject(id, event);
  }

  /** `requested` needs nothing: the row was created before it was published. */
  lemma RequestedIsGood(g: Gateway, id: string, payload: Payload, db: Db)
    requires '.' !in id
    ensures OnMessage(g, "cv." + id + ".requested", payload, db) == (g, Ack)
  {
    Parsed(id, "requested");
    assert "cv." + id + "." + "requested" == "cv." + id + ".requested";
  }

  /** `structured` moves a pending row to rendering with its CV. */
  lemma StructuredMoves(g: Gateway, id: string, payload: Payload, db: Db)
    requires '.' !in id
    ensures var (after, d) := OnMessage(g, "cv." + id + ".structured", payload, db);
            match payload.structured
            case None => (after, d) == (g, Term)
            case Some(cv) =>
              && d == (if db.Commits? then Ack else Nak)
              && after == if !db.Aborts? && id in g.rows && g.rows[id].status == Pending
                          then g.(rows := g.rows[id := g.rows[id].(status := Rendering, cv := Some(cv),
                                                                   updatedAt := g.now)])
                          else g
  {
    Parsed(id, "structured");
    assert "cv." + id + "." + "structured" == "cv." + id + ".structured";
    if id in g.rows { assert g.rows[id := g.rows[id]] == g.rows; }
  }

  /** `rendered` completes a live row, and is counted iff the statement reported so. */
  lemma RenderedCompletes(g: Gateway, id: string, payload: Payload, db: Db)
    requires '.' !in id
    ensures var (after, d) := OnMessage(g, "cv." + id + ".rendered", payload, db);
            match payload.rendered
            case None => (after, d) == (g, Term)
            case Some(key) =>
              var moved := !db.Aborts? && Live(g.rows, id);
              && d == (if db.Commits? then Ack else Nak)
              && after.rows == (if moved then g.rows[id := g.rows[id].(status := Completed, pdfObjectKey := Some(key),
                                                                        updatedAt := g.now)] else g.rows)
              && after.metrics == if moved && db.Commits? then g.metrics.(completed := g.metrics.completed + 1)
                                  else g.metrics
  {
    Parsed(id, "rendered");
    assert "cv." + id + "." + "rendered" == "cv." + id + ".rendered";
    if id in g.rows { assert g.rows[id := g.rows[id]] == g.rows; }
  }

  /** `failed` fails a pending row, and a rendering one unless the failure is of the
      processing stage; it is counted iff the statement reported so. */
  lemma FailedFails(g: Gateway, id: string, payload: Payload, db: Db)
    requires '.' !in id
    ensures var (after, d) := OnMessage(g, "cv." + id + ".failed", payload, db);
            match payload.failed
            case None => (after, d) == (g, Term)
            case Some((stage, text)) =>
              var moved := !db.Aborts? && id in g.rows
                           && (g.rows[id].status == Pending
                               || (g.rows[id].status == Rendering && stage != StageProcessing));
              && d == (if db.Commits? then Ack else Nak)
              && after.rows == (if moved then g.rows[id := g.rows[id].(status := Failed, error := Some(text),
                                                                        updatedAt := g.now)] else g.rows)
              && after.metrics == if moved && db.Commits? then g.metrics.(failed := g.metrics.failed + 1) else g.metrics
  {
    Parsed(id, "failed");
    assert "cv." + id + "." + "failed" == "cv." + id + ".failed";
    if id in g.rows { assert g.rows[id := g.rows[id]] == g.rows; }
  }

  /** Every other subject is terminated. */
  lemma OthersAreTerminated(g: Gateway, subject: string, payload: Payload, db: Db)
    requires forall id, event :: event in {"requested", "structured", "rendered", "failed"} && '.' !in id ==>
               subject != Subject(id, event)
    ensures OnMessage(g, subject, payload, db) == (g, Term)
  {
    if ParseSubject(subject).Some? {
      SubjectOfParse(subject);
    }
  }

  /** An advisory fails a live job whatever its stage, and is counted twice, under
      failed and under its message's event, iff the statement reported so. */
  lemma AdvisoryFails(g: Gateway, id: string, event: string, db: Db)
    requires '.' !in id && '.' !in event
    ensures var after := OnAdvisory(g, Some("cv." + id + "." + event), db);
            var moved := !db.Aborts? && Live(g.rows, id);
            && after.rows == (if moved then g.rows[id := g.rows[id].(status := Failed, updatedAt := g.now,
                                                                      error := Some("processing failed repeatedly"))]
                              else g.rows)
            && after.metrics == if moved && db.Commits?
                                then g.metrics.(failed := g.metrics.failed + 1,
                                                poisoned := g.metrics.poisoned + multiset{event})
                                else g.metrics
  {
    Parsed(id, event);
    if id in g.rows { assert g.rows[id := g.rows[id]] == g.rows; }
  }

  /** One that leads to no message, or to one of another kind, does nothing. */
  lemma AdvisoryWithoutJob(g: Gateway, fetched: Option<string>, db: Db)
    requires fetched.Some? ==> ParseSubject(fetched.value).None?
    ensures OnAdvisory(g, fetched, db) == g
  {
  }

  /** A sweep fails the live rows that are too old, and counts them under swept only. */
  lemma SweepFails(g: Gateway, olderThan: nat, db: Db)
    ensures var after := OnSweep(g, olderThan, db);
            var stuck := set id | id in g.rows && Live(g.rows, id) && g.rows[id].updatedAt < g.now - olderThan;
            && after.rows.Keys == g.rows.Keys
            && (forall id :: id in g.rows ==>
                  after.rows[id] == if id in stuck && !db.Aborts?
                                    then g.rows[id].(status := Failed, error := Some("job timed out"),
                                                     updatedAt := g.now)
                                    else g.rows[id])
            && after.metrics == if db.Commits? then g.metrics.(swept := g.metrics.swept + |stuck|) else g.metrics
  {
    var stuck := set id | id in g.rows && Live(g.rows, id) && g.rows[id].updatedAt < g.now - olderThan;
    assert stuck == StuckIds(g.rows, olderThan, g.now);
  }
}
