/** What each counter counts, over every run of the gateway: the rows, told apart by
    the write that ended them. */
module CounterLaws {
  import opened Wrappers
  import opened Subjects
  import opened Events
  import opened JobStore
  import opened Projection
  import opened ProjectionLaws
  import opened DeliveryLaws
  import opened FateLaws

  /** The write that ended the row of job `id`, if any did. */
  function EndCause(ops: seq<Op>, id: string): Option<Cause> {
    EndOf(Writes(EMPTY, ops, id))
  }

  function EndOf(steps: seq<Applied>): Option<Cause> {
    var end := RowEnd(steps);
    if end.None? then None else Some(steps[end.value].cause)
  }

  /** How rows end, as the counters tell it. */
  datatype Kind = Delivered | ToldOf | Poisoned(suffix: string) | TimedOut | GivenUp

  predicate Is(k: Kind, c: Cause) {
    match k
    case Delivered => c.ByEvent? && c.event.JobRendered?
    case ToldOf => c.ByAdvisory? || (c.ByEvent? && c.event.JobFailed?)
    case Poisoned(suffix) => c == ByAdvisory(suffix)
    case TimedOut => c.BySweep?
    case GivenUp => c.BySubmission?
  }

  /** The rows that ended this way. */
  ghost function Ended(ops: seq<Op>, k: Kind): set<string> {
    set id | id in Exec(EMPTY, ops).rows && EndCause(ops, id).Some? && Is(k, EndCause(ops, id).value)
  }

  // ---- one operation ----

  /** `c` moves this row to a terminal status. */
  predicate EndsRow(r: Row, c: Cause) {
    var change := ChangeBy(c);
    change.Some? && !change.value.ToRendering? && change.value.Guard(r.status)
  }

  /** The operation ends this row, in this way. */
  predicate EndsAs(g: Gateway, op: Op, id: string, k: Kind) {
    && id in g.rows && CauseOf(g, op, id).Some?
    && EndsRow(g.rows[id], CauseOf(g, op, id).value) && Is(k, CauseOf(g, op, id).value)
  }

  lemma EndedIffTerminal(ops: seq<Op>, id: string)
    requires id in Exec(EMPTY, ops).rows
    ensures EndCause(ops, id).Some? <==> Terminal(Exec(EMPTY, ops).rows[id].status)
  {
    EveryRowMeetsItsFate(ops, id);
  }

  lemma ExecNext(ops: seq<Op>, op: Op)
    ensures Exec(EMPTY, ops + [op]) == Next(Exec(EMPTY, ops), op)
    ensures forall id :: Writes(EMPTY, ops + [op], id) == Writes(EMPTY, ops, id)
              + (var g := Exec(EMPTY, ops); var cause := CauseOf(g, op, id);
                 if id in g.rows && cause.Some? then [Applied(cause.value, g.now)] else [])
  {
    assert (ops + [op])[..|ops|] == ops;
  }

  lemma EndOfNext(r: Row, steps: seq<Applied>, a: Applied)
    requires Meets(r, FateOf(steps))
    ensures EndOf(steps + [a])
            == if EndOf(steps).Some? then EndOf(steps) else if EndsRow(r, a.cause) then Some(a.cause) else None
  {
    var all := steps + [a];
    assert all[..|steps|] == steps;
  }

  lemma EndNext(ops: seq<Op>, op: Op, id: string)
    requires id in Exec(EMPTY, ops).rows
    ensures var g := Exec(EMPTY, ops);
            var cause := CauseOf(g, op, id);
            EndCause(ops + [op], id)
            == if EndCause(ops, id).Some? then EndCause(ops, id)
               else if cause.Some? && EndsRow(g.rows[id], cause.value) then cause else None
  {
    ExecNext(ops, op);
    EveryRowMeetsItsFate(ops, id);
    var g, steps := Exec(EMPTY, ops), Writes(EMPTY, ops, id);
    var cause := CauseOf(g, op, id);
    if cause.Some? {
      EndOfNext(g.rows[id], steps, Applied(cause.value, g.now));
    } else {
      assert Writes(EMPTY, ops + [op], id) == steps;
    }
  }

  lemma NewRowHasNotEnded(ops: seq<Op>, op: Op, id: string)
    requires id !in Exec(EMPTY, ops).rows
    ensures EndCause(ops + [op], id).None?
  {
    ExecNext(ops, op);
    NoRowNoWrites(ops, id);
  }

  /** Each operation adds the rows that it ends in this way, and they are new. */
  lemma EndedNext(ops: seq<Op>, op: Op, k: Kind, new': set<string>)
    requires forall id :: id in new' <==> EndsAs(Exec(EMPTY, ops), op, id, k)
    ensures |Ended(ops + [op], k)| == |Ended(ops, k)| + |new'|
  {
    var g, all := Exec(EMPTY, ops), ops + [op];
    ExecNext(ops, op);
    forall id ensures id in Ended(all, k) <==> id in Ended(ops, k) || id in new' {
      if id in g.rows {
        OpOnRow(g, op, id);
        EndNext(ops, op, id);
        EndedIffTerminal(ops, id);
      } else {
        NewRowHasNotEnded(ops, op, id);
      }
    }
    forall id | id in new' ensures id !in Ended(ops, k) {
      EndedIffTerminal(ops, id);
    }
    assert Ended(all, k) == Ended(ops, k) + new';
  }

  // ---- the counters ----

  /** Each counter is the number of rows that ended its way. */
  ghost predicate Counts(ops: seq<Op>, g: Gateway) {
    && g.metrics.completed == |Ended(ops, Delivered)|
    && g.metrics.failed == |Ended(ops, ToldOf)|
    && g.metrics.swept == |Ended(ops, TimedOut)|
    && g.submissionFailures == |Ended(ops, GivenUp)|
    && forall suffix :: g.metrics.poisoned[suffix] == |Ended(ops, Poisoned(suffix))|
  }

  /** The rows an operation ends, when it is about one job. */
  function EndsOne(g: Gateway, op: Op, id: string, k: Kind): set<string> {
    if EndsAs(g, op, id, k) then {id} else {}
  }

  lemma OneJob(ops: seq<Op>, op: Op, id: string)
    requires forall other :: other != id ==> CauseOf(Exec(EMPTY, ops), op, other).None?
    ensures forall k :: |Ended(ops + [op], k)| == |Ended(ops, k)| + |EndsOne(Exec(EMPTY, ops), op, id, k)|
  {
    forall k ensures |Ended(ops + [op], k)| == |Ended(ops, k)| + |EndsOne(Exec(EMPTY, ops), op, id, k)| {
      EndedNext(ops, op, k, EndsOne(Exec(EMPTY, ops), op, id, k));
    }
  }

  lemma NoJob(ops: seq<Op>, op: Op)
    requires forall id :: CauseOf(Exec(EMPTY, ops), op, id).None?
    ensures forall k :: |Ended(ops + [op], k)| == |Ended(ops, k)|
  {
    forall k ensures |Ended(ops + [op], k)| == |Ended(ops, k)| {
      EndedNext(ops, op, k, {});
    }
  }

  /** The counters go up by the rows that the operation ends. */
  ghost predicate AddsUp(g: Gateway, after: Gateway, op: Op, id: string) {
    && after.metrics.completed == g.metrics.completed + |EndsOne(g, op, id, Delivered)|
    && after.metrics.failed == g.metrics.failed + |EndsOne(g, op, id, ToldOf)|
    && after.metrics.swept == g.metrics.swept + |EndsOne(g, op, id, TimedOut)|
    && after.submissionFailures == g.submissionFailures + |EndsOne(g, op, id, GivenUp)|
    && forall suffix ::
         after.metrics.poisoned[suffix] == g.metrics.poisoned[suffix] + |EndsOne(g, op, id, Poisoned(suffix))|
  }

  lemma MessageAddsUp(g: Gateway, id: string, op: Op)
    requires op.Message? && op.db.Commits? && ParseSubject(op.subject).Some? && ParseSubject(op.subject).value.0 == id
    ensures AddsUp(g, OnMessage(g, op.subject, op.payload, op.db).0, op, id)
  {
  }

  lemma AdvisoryAddsUp(g: Gateway, id: string, op: Op)
    requires op.Advisory? && op.db.Commits? && op.fetched.Some?
    requires ParseSubject(op.fetched.value).Some? && ParseSubject(op.fetched.value).value.0 == id
    ensures AddsUp(g, OnAdvisory(g, op.fetched, op.db), op, id)
  {
  }

  lemma OwnFailureAddsUp(g: Gateway, op: Op)
    requires op.FailSubmission? && op.db.Commits?
    ensures AddsUp(g, OnOwnFailure(g, op.id, op.text, op.db), op, op.id)
  {
  }

  lemma OneJobCounts(ops: seq<Op>, op: Op, id: string)
    requires Counts(ops, Exec(EMPTY, ops))
    requires forall other :: other != id ==> CauseOf(Exec(EMPTY, ops), op, other).None?
    requires AddsUp(Exec(EMPTY, ops), Next(Exec(EMPTY, ops), op), op, id)
    ensures Counts(ops + [op], Next(Exec(EMPTY, ops), op))
  {
    OneJob(ops, op, id);
  }

  lemma SweepCounts(ops: seq<Op>, op: Op)
    requires Counts(ops, Exec(EMPTY, ops)) && op.Sweep? && op.db.Commits?
    ensures Counts(ops + [op], OnSweep(Exec(EMPTY, ops), op.olderThan, op.db))
  {
    var g := Exec(EMPTY, ops);
    var stuck := StuckIds(g.rows, op.olderThan, g.now);
    forall k ensures |Ended(ops + [op], k)| == |Ended(ops, k)| + (if k.TimedOut? then |stuck| else 0) {
      SweepEnds(g, op, k);
      EndedNext(ops, op, k, if k.TimedOut? then stuck else {});
    }
  }

  lemma SweepEnds(g: Gateway, op: Op, k: Kind)
    requires op.Sweep? && op.db.Commits?
    ensures forall id :: id in (if k.TimedOut? then StuckIds(g.rows, op.olderThan, g.now) else {})
              <==> EndsAs(g, op, id, k)
  {
  }

  /** An operation that takes no effect on any row there is. */
  predicate EndsNothing(op: Op) {
    || op.Create? || op.Tick? || op.db.Aborts?
    || (op.Message? && ParseSubject(op.subject).None?)
    || (op.Advisory? && (op.fetched.None? || ParseSubject(op.fetched.value).None?))
  }

  lemma NothingEnds(g: Gateway, op: Op)
    requires EndsNothing(op)
    ensures forall id :: CauseOf(g, op, id).None?
    ensures Next(g, op).metrics == g.metrics && Next(g, op).submissionFailures == g.submissionFailures
  {
  }

  lemma NothingCounts(ops: seq<Op>, op: Op)
    requires Counts(ops, Exec(EMPTY, ops)) && EndsNothing(op)
    ensures Counts(ops + [op], Next(Exec(EMPTY, ops), op))
  {
    NothingEnds(Exec(EMPTY, ops), op);
    NoJob(ops, op);
  }

  lemma JobOfOpCounts(ops: seq<Op>, op: Op)
    requires Counts(ops, Exec(EMPTY, ops)) && !EndsNothing(op) && !op.Sweep? && op.db.Commits?
    ensures Counts(ops + [op], Next(Exec(EMPTY, ops), op))
  {
    var g := Exec(EMPTY, ops);
    if op.FailSubmission? {
      OwnFailureAddsUp(g, op);
      OneJobCounts(ops, op, op.id);
    } else if op.Message? {
      var id := ParseSubject(op.subject).value.0;
      MessageAddsUp(g, id, op);
      OneJobCounts(ops, op, id);
    } else {
      var id := ParseSubject(op.fetched.value).value.0;
      AdvisoryAddsUp(g, id, op);
      OneJobCounts(ops, op, id);
    }
  }

  lemma NextCounts(ops: seq<Op>, op: Op)
    requires Counts(ops, Exec(EMPTY, ops)) && !RepliesLost(op)
    ensures Counts(ops + [op], Exec(EMPTY, ops + [op]))
  {
    ExecNext(ops, op);
    if EndsNothing(op) {
      NothingCounts(ops, op);
    } else if op.Sweep? {
      SweepCounts(ops, op);
    } else {
      JobOfOpCounts(ops, op);
    }
  }

  /** Over every run in which no statement loses its reply: `completed` is the number
      of rows that a `rendered` ended, `failed` of those that a `failed` or an
      advisory ended, `swept` of those that a sweep ended, `poisoned` under each
      event of those that an advisory on such a message ended, and the submissions
      failed the rest themselves. */
  lemma {:induction false} CountersTellHowRowsEnded(ops: seq<Op>)
    requires forall op :: op in ops ==> !RepliesLost(op)
    ensures Counts(ops, Exec(EMPTY, ops))
  {
    if ops != [] {
      var n := |ops| - 1;
      CountersTellHowRowsEnded(ops[..n]);
      assert ops[n] in ops && ops == ops[..n] + [ops[n]];
      NextCounts(ops[..n], ops[n]);
    }
  }
}
