/** Everything that writes a job's row after its creation, and at-least-once
    delivery against the exactly-once projection: repeats, order and lost replies. */
module DeliveryLaws {
  import opened Wrappers
  import opened Subjects
  import opened Events
  import opened JobStore
  import opened Projection

  /** What writes a row: an event of its job, a sweep that found it stuck, an
      advisory about one of its messages, or its own submission giving up. */
  datatype Cause = ByEvent(event: Event) | BySweep | ByAdvisory(suffix: string) | BySubmission(text: string)

  /** A cause that took effect on the table, and when. */
  datatype Applied = Applied(cause: Cause, at: int)

  function ChangeBy(c: Cause): Option<Change> {
    match c
    case ByEvent(e) => ChangeFor(e)
    case BySweep => Some(ToFailed(TIMED_OUT))
    case ByAdvisory(_) => Some(ToFailed(MAX_DELIVERIES_ERROR))
    case BySubmission(text) => Some(ToFailed(text))
  }

  function Affect(r: Row, c: Cause, now: int): Row {
    var change := ChangeBy(c);
    if change.None? then r else change.value.On(r, now)
  }

  /** What one delivery of `e` does to the row of its job. */
  function ApplyEvent(r: Row, e: Event, now: int): Row {
    Affect(r, ByEvent(e), now)
  }

  function Project(r: Row, steps: seq<Applied>): Row {
    if steps == [] then r
    else
      var last := steps[|steps| - 1];
      Affect(Project(r, steps[..|steps| - 1]), last.cause, last.at)
  }

  function CausesOf(steps: seq<Applied>): set<Cause> {
    set a | a in steps :: a.cause
  }

  /** The same writes with every cause kept only the first time it lands. */
  function FirstOnly(steps: seq<Applied>): seq<Applied> {
    if steps == [] then []
    else
      var before := steps[..|steps| - 1];
      var last := steps[|steps| - 1];
      FirstOnly(before) + (if last.cause in CausesOf(before) then [] else [last])
  }

  // ---- at-least-once refines exactly-once ----

  /** `c` has nothing left to change on this row. */
  predicate Idle(r: Row, c: Cause) {
    var change := ChangeBy(c);
    change.Some? ==> !change.value.Guard(r.status)
  }

  predicate Spent(r: Row, e: Event) {
    Idle(r, ByEvent(e))
  }

  lemma IdleStays(r: Row, c: Cause, other: Cause, now: int)
    ensures Idle(r, c) ==> Idle(Affect(r, other, now), c)
    ensures Idle(Affect(r, c, now), c)
    ensures Idle(r, c) ==> Affect(r, c, now) == r
  {
  }

  lemma {:induction false} LandedCausesAreIdle(r: Row, steps: seq<Applied>, c: Cause)
    requires c in CausesOf(steps)
    ensures Idle(Project(r, steps), c)
  {
    var before := steps[..|steps| - 1];
    var last := steps[|steps| - 1];
    assert steps == before + [last];
    IdleStays(Project(r, before), c, last.cause, last.at);
    if c in CausesOf(before) {
      LandedCausesAreIdle(r, before, c);
    }
  }

  /** Repeats of causes that already landed, any number of them and anywhere,
      leave the row the same in every field, timestamps included. */
  lemma {:induction false} RepeatsChangeNothing(r: Row, steps: seq<Applied>)
    ensures Project(r, steps) == Project(r, FirstOnly(steps))
  {
    if steps != [] {
      var before := steps[..|steps| - 1];
      var last := steps[|steps| - 1];
      RepeatsChangeNothing(r, before);
      if last.cause in CausesOf(before) {
        LandedCausesAreIdle(r, before, last.cause);
        IdleStays(Project(r, before), last.cause, last.cause, last.at);
        assert FirstOnly(steps) == FirstOnly(before);
      } else {
        assert FirstOnly(steps)[..|FirstOnly(steps)| - 1] == FirstOnly(before);
      }
    }
  }

  // ---- from operations to the row ----

  /** What an operation of the gateway does to the row of job `id`, if anything:
      a statement that did not take effect does nothing, one whose reply was lost
      does what it does. */
  function CauseOf(g: Gateway, op: Op, id: string): Option<Cause> {
    match op
    case FailSubmission(to, text, db) => if to == id && !db.Aborts? then Some(BySubmission(text)) else None
    case Message(subject, payload, db) =>
      var parsed := ParseSubject(subject);
      if !db.Aborts? && parsed.Some? && parsed.value.0 == id
      then Some(ByEvent(Decode(parsed.value.1, payload))) else None
    case Advisory(Some(subject), db) =>
      var parsed := ParseSubject(subject);
      if !db.Aborts? && parsed.Some? && parsed.value.0 == id then Some(ByAdvisory(parsed.value.1)) else None
    case Sweep(olderThan, db) =>
      if !db.Aborts? && id in g.rows && Stuck(g.rows[id], olderThan, g.now) then Some(BySweep) else None
    case _ => None
  }

  /** The writes that reached the row of job `id` since it exists, acknowledged or not. */
  function Writes(g: Gateway, ops: seq<Op>, id: string): seq<Applied> {
    if ops == [] then []
    else
      var before := ops[..|ops| - 1];
      var here := Exec(g, before);
      var cause := CauseOf(here, ops[|ops| - 1], id);
      Writes(g, before, id) + (if id in here.rows && cause.Some? then [Applied(cause.value, here.now)] else [])
  }

  lemma OpOnRow(g: Gateway, op: Op, id: string)
    requires id in g.rows
    ensures id in Next(g, op).rows
    ensures var cause := CauseOf(g, op, id);
            Next(g, op).rows[id] == if cause.None? then g.rows[id] else Affect(g.rows[id], cause.value, g.now)
  {
  }

  lemma OnlyCreateAdds(g: Gateway, op: Op, id: string)
    requires id !in g.rows && id in Next(g, op).rows
    ensures op.Create? && Next(g, op).rows[id] == NewRow(op.spec, g.now)
  {
  }

  /** A job's row is what the writes that reached it make of it, whatever else
      the gateway did in between. */
  lemma {:induction false} RowIsItsWrites(g: Gateway, ops: seq<Op>, id: string)
    requires id in g.rows
    ensures id in Exec(g, ops).rows
    ensures Exec(g, ops).rows[id] == Project(g.rows[id], Writes(g, ops, id))
  {
    if ops != [] {
      var before := ops[..|ops| - 1];
      RowIsItsWrites(g, before, id);
      OpOnRow(Exec(g, before), ops[|ops| - 1], id);
      var steps := Writes(g, ops, id);
      if steps != Writes(g, before, id) {
        assert steps[..|steps| - 1] == Writes(g, before, id);
      }
    }
  }

  /** However events are delivered, redelivered after naks, interleaved with
      sweeps, advisories and other jobs' events or applied with the reply lost, a
      job's row is what the first effective occurrence of each makes of it. */
  lemma AtLeastOnceIsExactlyOnce(g: Gateway, ops: seq<Op>, id: string)
    requires id in g.rows
    ensures id in Exec(g, ops).rows
    ensures Exec(g, ops).rows[id] == Project(g.rows[id], FirstOnly(Writes(g, ops, id)))
  {
    RowIsItsWrites(g, ops, id);
    RepeatsChangeNothing(g.rows[id], Writes(g, ops, id));
  }

  // ---- order ----

  predicate Structures(c: Cause) {
    c.ByEvent? && c.event.JobStructured? && c.event.cv.Some?
  }

  predicate Renders(c: Cause) {
    c.ByEvent? && c.event.JobRendered? && c.event.pdfKey.Some?
  }

  /** A cause that is no failure, any PDF it announces being this one. */
  predicate Succeeds(c: Cause, key: string) {
    c.ByEvent? && (c.event.JobRequested? || Structures(c) || c.event == JobRendered(Some(key)))
  }

  predicate HasStructured(steps: seq<Applied>) {
    exists i :: 0 <= i < |steps| && Structures(steps[i].cause)
  }

  predicate HasRendered(steps: seq<Applied>) {
    exists i :: 0 <= i < |steps| && Renders(steps[i].cause)
  }

  lemma {:induction false} HighestEventWins(r: Row, steps: seq<Applied>, key: string)
    requires r.status.Pending? && r.pdfObjectKey.None? && r.error.None?
    requires forall a :: a in steps ==> Succeeds(a.cause, key)
    ensures var out := Project(r, steps);
            && out.status == (if HasRendered(steps) then Completed
                              else if HasStructured(steps) then Rendering else Pending)
            && out.pdfObjectKey == (if HasRendered(steps) then Some(key) else None)
            && out.error == None
  {
    if steps != [] {
      var before := steps[..|steps| - 1];
      var last := steps[|steps| - 1];
      assert steps == before + [last];
      HighestEventWins(r, before, key);
    }
  }

  /** Without failures, order and repetition are irrelevant to the outcome: two
      deliveries of the same kinds of events end in the same status with the
      same key. */
  lemma OrderIsIrrelevant(r: Row, xs: seq<Applied>, ys: seq<Applied>, key: string)
    requires r.status.Pending? && r.pdfObjectKey.None? && r.error.None?
    requires forall a :: a in xs ==> Succeeds(a.cause, key)
    requires forall a :: a in ys ==> Succeeds(a.cause, key)
    requires HasStructured(xs) == HasStructured(ys) && HasRendered(xs) == HasRendered(ys)
    ensures Project(r, xs).status == Project(r, ys).status
    ensures Project(r, xs).pdfObjectKey == Project(r, ys).pdfObjectKey
    ensures Project(r, xs).error == Project(r, ys).error
  {
    HighestEventWins(r, xs, key);
    HighestEventWins(r, ys, key);
  }
}
