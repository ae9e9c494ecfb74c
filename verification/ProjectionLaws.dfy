/** What holds of the jobs table and its counters over every run of the gateway:
    any sequence of submissions, events, advisories, sweeps and clock ticks, with
    every statement free to fail or to lose its reply. */
module ProjectionLaws {
  import opened Wrappers
  import opened Subjects
  import opened Events
  import opened JobStore
  import opened Projection
  import opened DeliveryLaws

  // ---- rows move forward and freeze ----

  function Rank(s: Status): nat {
    match s
    case Pending => 0
    case Rendering => 1
    case Completed => 2
    case Failed => 2
  }

  /** The relation between one row's states at two moments. */
  predicate Follows(r: Row, later: Row) {
    && later.spec == r.spec && later.createdAt == r.createdAt
    && Rank(r.status) <= Rank(later.status)
    && (Terminal(r.status) ==> later == r)
    && (r.cv.Some? ==> later.cv == r.cv)
    && (later.status.Rendering? ==> !r.status.Pending? ==> later == r)
  }

  ghost predicate TableOk(g: Gateway) {
    forall id :: id in g.rows ==> Consistent(g.rows[id]) && g.rows[id].updatedAt <= g.now
  }

  lemma AffectKeepsRow(r: Row, c: Cause, now: int)
    requires Consistent(r) && r.updatedAt <= now
    ensures var after := Affect(r, c, now);
            Consistent(after) && after.updatedAt <= now && Follows(r, after)
  {
  }

  /** One step of the table: no row is lost and every row only moves on. */
  ghost predicate Steps(g: Gateway, after: Gateway) {
    && TableOk(after)
    && g.rows.Keys <= after.rows.Keys
    && forall id :: id in g.rows ==> Follows(g.rows[id], after.rows[id])
  }

  lemma NextKeepsRows(g: Gateway, op: Op)
    requires TableOk(g)
    ensures Steps(g, Next(g, op))
  {
    forall id | id in g.rows
      ensures id in Next(g, op).rows && Follows(g.rows[id], Next(g, op).rows[id])
      ensures Consistent(Next(g, op).rows[id]) && Next(g, op).rows[id].updatedAt <= g.now
    {
      OpOnRow(g, op, id);
      var cause := CauseOf(g, op, id);
      if cause.Some? { AffectKeepsRow(g.rows[id], cause.value, g.now); }
    }
    forall id | id in Next(g, op).rows && id !in g.rows
      ensures Consistent(Next(g, op).rows[id]) && Next(g, op).rows[id].updatedAt <= g.now
    {
      OnlyCreateAdds(g, op, id);
    }
    TimePasses(g, op);
  }

  lemma TimePasses(g: Gateway, op: Op)
    ensures Next(g, op).now >= g.now
    ensures Next(g, op).now > g.now ==> op.Tick? && Next(g, op).rows == g.rows
  {
  }

  /** Over any run: `completed` iff the PDF key is set, `failed` iff the error is
      set, a status never moves back, and a terminal row never changes again. */
  lemma {:induction false} RowsOnlyMoveForward(g: Gateway, ops: seq<Op>)
    requires TableOk(g)
    ensures Steps(g, Exec(g, ops))
  {
    if ops != [] {
      var before := ops[..|ops| - 1];
      RowsOnlyMoveForward(g, before);
      NextKeepsRows(Exec(g, before), ops[|ops| - 1]);
    }
  }

  /** A processing failure can change only a row that never entered `rendering`:
      such a row still has no structured CV. */
  lemma ProcessingFailureOnlyHitsPending(g: Gateway, id: string, text: string, db: Db)
    requires TableOk(g) && id in g.rows
    ensures Apply(g, id, ToFailedProcessing(text), db).rows[id] != g.rows[id]
            <==> !db.Aborts? && g.rows[id].status.Pending?
    ensures Apply(g, id, ToFailedProcessing(text), db).rows[id] != g.rows[id] ==> g.rows[id].cv.None?
  {
  }

  // ---- conservation of terminal transitions ----

  ghost function CompletedIds(rows: Table): set<string> {
    set id | id in rows && rows[id].status.Completed?
  }

  ghost function FailedIds(rows: Table): set<string> {
    set id | id in rows && rows[id].status.Failed?
  }

  /** The tallies of each terminal status add up to the rows that have it. */
  ghost predicate Conserved(g: Gateway) {
    && |CompletedIds(g.rows)| == g.metrics.completed + g.lostCompleted
    && |FailedIds(g.rows)| == g.metrics.failed + g.metrics.swept + g.submissionFailures + g.lostFailed
    && |g.metrics.poisoned| <= g.metrics.failed
  }

  lemma UpdateCounts(rows: Table, id: string, change: Change, now: int)
    ensures var after := Update(rows, id, change, now);
            && CompletedIds(after) == CompletedIds(rows)
               + (if Finishes(rows, id, change) && change.ToCompleted? then {id} else {})
            && FailedIds(after) == FailedIds(rows)
               + (if Finishes(rows, id, change) && !change.ToCompleted? then {id} else {})
  {
  }

  lemma ApplyConserves(g: Gateway, id: string, change: Change, db: Db)
    requires Conserved(g)
    ensures Conserved(Apply(g, id, change, db))
    ensures Apply(g, id, change, db).metrics.failed
            == g.metrics.failed + (if db.Commits? && Finishes(g.rows, id, change) && !change.ToCompleted? then 1 else 0)
    ensures Apply(g, id, change, db).metrics.poisoned == g.metrics.poisoned
  {
    UpdateCounts(g.rows, id, change, g.now);
  }

  lemma SweepConserves(g: Gateway, olderThan: nat, db: Db)
    requires Conserved(g)
    ensures Conserved(OnSweep(g, olderThan, db))
  {
    var stuck := StuckIds(g.rows, olderThan, g.now);
    var after := Swept(g.rows, olderThan, g.now);
    assert CompletedIds(after) == CompletedIds(g.rows);
    assert FailedIds(after) == FailedIds(g.rows) + stuck;
    assert FailedIds(g.rows) !! stuck;
  }

  lemma CreateConserves(g: Gateway, id: string, spec: JobSpec, db: Db)
    requires Conserved(g)
    ensures Conserved(OnCreate(g, id, spec, db))
  {
    var after := OnCreate(g, id, spec, db);
    assert CompletedIds(after.rows) == CompletedIds(g.rows);
    assert FailedIds(after.rows) == FailedIds(g.rows);
  }

  lemma OwnFailureConserves(g: Gateway, id: string, text: string, db: Db)
    requires Conserved(g)
    ensures Conserved(OnOwnFailure(g, id, text, db))
  {
    UpdateCounts(g.rows, id, ToFailed(text), g.now);
  }

  lemma NextConserves(g: Gateway, op: Op)
    requires Conserved(g)
    ensures Conserved(Next(g, op))
  {
    match op
    case Create(id, spec, db) => CreateConserves(g, id, spec, db);
    case FailSubmission(id, text, db) => OwnFailureConserves(g, id, text, db);
    case Message(subject, payload, db) =>
      var write := WriteOf(subject, payload);
      if write.Some? { ApplyConserves(g, write.value.0, write.value.1, db); }
    case Advisory(fetched, db) =>
      if fetched.Some? && ParseSubject(fetched.value).Some? {
        ApplyConserves(g, ParseSubject(fetched.value).value.0, ToFailed(MAX_DELIVERIES_ERROR), db);
      }
    case Sweep(olderThan, db) => SweepConserves(g, olderThan, db);
    case Tick(_) =>
  }

  predicate RepliesLost(op: Op) {
    !op.Tick? && op.db.LosesReply?
  }

  lemma {:induction false} ExecConserves(g: Gateway, ops: seq<Op>)
    requires Conserved(g)
    ensures Conserved(Exec(g, ops))
  {
    if ops != [] {
      ExecConserves(g, ops[..|ops| - 1]);
      NextConserves(Exec(g, ops[..|ops| - 1]), ops[|ops| - 1]);
    }
  }

  lemma {:induction false} NothingLostWithoutLostReplies(g: Gateway, ops: seq<Op>)
    requires forall op :: op in ops ==> !RepliesLost(op)
    ensures Exec(g, ops).lostCompleted == g.lostCompleted && Exec(g, ops).lostFailed == g.lostFailed
  {
    if ops != [] {
      NothingLostWithoutLostReplies(g, ops[..|ops| - 1]);
      assert ops[|ops| - 1] in ops;
    }
  }

  /** The counters account for every terminal row of every run in which no
      statement that reports an error took effect. */
  lemma CountersAccountForTerminalRows(ops: seq<Op>)
    ensures Conserved(Exec(EMPTY, ops))
    ensures (forall op :: op in ops ==> !RepliesLost(op)) ==>
              var g := Exec(EMPTY, ops);
              && |CompletedIds(g.rows)| == g.metrics.completed
              && |FailedIds(g.rows)| == g.metrics.failed + g.metrics.swept + g.submissionFailures
  {
    assert CompletedIds(EMPTY.rows) == {} && FailedIds(EMPTY.rows) == {};
    ExecConserves(EMPTY, ops);
    if forall op :: op in ops ==> !RepliesLost(op) {
      NothingLostWithoutLostReplies(EMPTY, ops);
    }
  }

  // ---- how long a job can stay live ----

  /** Sweeps that take effect are never more than `period` apart, and each uses `threshold`. */
  predicate Punctual(g: Gateway, ops: seq<Op>, threshold: nat, period: nat) {
    && Exec(g, ops).now <= Exec(g, ops).lastSweep + period
    && (ops != [] ==>
          var last := ops[|ops| - 1];
          (last.Sweep? ==> last.olderThan == threshold) && Punctual(g, ops[..|ops| - 1], threshold, period))
  }

  predicate RowTimely(r: Row, g: Gateway, threshold: nat, period: nat) {
    && r.createdAt <= r.updatedAt <= g.now
    && (!Terminal(r.status) ==> g.lastSweep - threshold <= r.updatedAt)
    && (r.status.Pending? ==> r.updatedAt == r.createdAt)
    && (r.status.Rendering? ==> r.updatedAt <= r.createdAt + threshold + period)
  }

  ghost predicate Timely(g: Gateway, threshold: nat, period: nat) {
    && g.lastSweep <= g.now <= g.lastSweep + period
    && forall id :: id in g.rows ==> RowTimely(g.rows[id], g, threshold, period)
  }

  lemma AffectTimely(r: Row, g: Gateway, c: Cause, threshold: nat, period: nat)
    requires RowTimely(r, g, threshold, period) && g.lastSweep <= g.now <= g.lastSweep + period
    ensures RowTimely(Affect(r, c, g.now), g, threshold, period)
  {
  }

  /** A sweep leaves only rows younger than the threshold. */
  lemma SweepTimely(g: Gateway, db: Db, threshold: nat, period: nat)
    requires Timely(g, threshold, period)
    ensures Timely(OnSweep(g, threshold, db), threshold, period)
  {
  }

  lemma NextTimely(g: Gateway, op: Op, threshold: nat, period: nat)
    requires Timely(g, threshold, period)
    requires op.Sweep? ==> op.olderThan == threshold
    requires Next(g, op).now <= Next(g, op).lastSweep + period
    ensures Timely(Next(g, op), threshold, period)
  {
    var after := Next(g, op);
    match op
    case Sweep(_, db) => SweepTimely(g, db, threshold, period);
    case Tick(_) =>
    case _ =>
      assert after.now == g.now && after.lastSweep == g.lastSweep;
      forall id | id in after.rows ensures RowTimely(after.rows[id], after, threshold, period) {
        if id in g.rows {
          OpOnRow(g, op, id);
          var cause := CauseOf(g, op, id);
          if cause.Some? { AffectTimely(g.rows[id], g, cause.value, threshold, period); }
          assert RowTimely(after.rows[id], g, threshold, period);
        } else {
          OnlyCreateAdds(g, op, id);
        }
      }
  }

  lemma {:induction false} ExecTimely(g: Gateway, ops: seq<Op>, threshold: nat, period: nat)
    requires Timely(g, threshold, period)
    requires Punctual(g, ops, threshold, period)
    ensures Timely(Exec(g, ops), threshold, period)
  {
    if ops != [] {
      ExecTimely(g, ops[..|ops| - 1], threshold, period);
      NextTimely(Exec(g, ops[..|ops| - 1]), ops[|ops| - 1], threshold, period);
    }
  }

  /** A live job is never older than twice the threshold plus twice the sweep
      period: its `updated_at` is refreshed at most once before it is terminal. */
  lemma NoJobStaysLive(ops: seq<Op>, threshold: nat, period: nat, id: string)
    requires Punctual(EMPTY, ops, threshold, period)
    requires id in Exec(EMPTY, ops).rows
    ensures var g := Exec(EMPTY, ops);
            g.now > g.rows[id].createdAt + 2 * (threshold + period) ==> Terminal(g.rows[id].status)
  {
    ExecTimely(EMPTY, ops, threshold, period);
  }

  // ---- and how long it can ----

  /** A gateway with this one row. */
  function OneRow(row: Row, now: int, lastSweep: int): Gateway {
    EMPTY.(rows := map["job" := row], now := now, lastSweep := lastSweep)
  }

  lemma Then(ops: seq<Op>, op: Op, threshold: nat, period: nat)
    requires Punctual(EMPTY, ops, threshold, period)
    requires op.Sweep? ==> op.olderThan == threshold
    requires Next(Exec(EMPTY, ops), op).now <= Next(Exec(EMPTY, ops), op).lastSweep + period
    ensures Exec(EMPTY, ops + [op]) == Next(Exec(EMPTY, ops), op)
    ensures Punctual(EMPTY, ops + [op], threshold, period)
  {
    assert (ops + [op])[..|ops|] == ops;
  }

  lemma SweepSpares(row: Row, now: int, lastSweep: int, threshold: nat)
    requires !Stuck(row, threshold, now)
    ensures OnSweep(OneRow(row, now, lastSweep), threshold, Commits) == OneRow(row, now, now)
  {
    assert StuckIds(map["job" := row], threshold, now) == {};
    assert Swept(map["job" := row], threshold, now) == map["job" := row];
  }

  /** Sweeping every second, a young row survives until it is as old as the threshold. */
  lemma {:induction false} RowSurvives(ops: seq<Op>, row: Row, now: int, k: nat, threshold: nat, period: nat)
    returns (more: seq<Op>)
    requires period >= 1 && Punctual(EMPTY, ops, threshold, period)
    requires Exec(EMPTY, ops) == OneRow(row, now, now) && now + k <= row.updatedAt + threshold
    ensures Punctual(EMPTY, more, threshold, period)
    ensures Exec(EMPTY, more) == OneRow(row, now + k, now + k)
    decreases k
  {
    if k == 0 {
      more := ops;
    } else {
      Then(ops, Tick(1), threshold, period);
      SweepSpares(row, now + 1, now, threshold);
      Then(ops + [Tick(1)], Sweep(threshold, Commits), threshold, period);
      more := RowSurvives(ops + [Tick(1)] + [Sweep(threshold, Commits)], row, now + 1, k - 1, threshold, period);
    }
  }

  /** Two near misses in a row: the bound is reached, for every threshold and period. */
  lemma BoundIsReached(threshold: nat, period: nat) returns (ops: seq<Op>, id: string)
    requires period >= 1
    ensures Punctual(EMPTY, ops, threshold, period) && id in Exec(EMPTY, ops).rows
    ensures var g := Exec(EMPTY, ops);
            && g.now == g.rows[id].createdAt + 2 * (threshold + period)
            && !Terminal(g.rows[id].status)
  {
    id := "job";
    var row := NewRow(NO_SPEC, 0);
    Then([], Create(id, NO_SPEC, Commits), threshold, period);
    ops := NearMiss([] + [Create(id, NO_SPEC, Commits)], row, 0, threshold, period);
    ops := MovesJustInTime(ops, threshold, period);
    var late := threshold + period;
    ops := NearMiss(ops, ToRendering("").On(row, late), late, threshold, period);
  }

  const NO_SPEC := JobSpec("", "", "", "")

  /** The last sweep that spares a row, and then nearly another period. */
  lemma NearMiss(ops: seq<Op>, row: Row, now: int, threshold: nat, period: nat) returns (more: seq<Op>)
    requires period >= 1 && Punctual(EMPTY, ops, threshold, period)
    requires Exec(EMPTY, ops) == OneRow(row, now, now) && row.updatedAt == now
    ensures Punctual(EMPTY, more, threshold, period)
    ensures Exec(EMPTY, more) == OneRow(row, now + threshold + period, now + threshold)
  {
    more := RowSurvives(ops, row, now, threshold, threshold, period);
    Then(more, Tick(period), threshold, period);
    more := more + [Tick(period)];
  }

  /** `structured` just before the sweep that would have failed the row. */
  lemma MovesJustInTime(ops: seq<Op>, threshold: nat, period: nat) returns (more: seq<Op>)
    requires Punctual(EMPTY, ops, threshold, period)
    requires Exec(EMPTY, ops) == OneRow(NewRow(NO_SPEC, 0), threshold + period, threshold)
    ensures Punctual(EMPTY, more, threshold, period)
    ensures var late := threshold + period;
            Exec(EMPTY, more) == OneRow(ToRendering("").On(NewRow(NO_SPEC, 0), late), late, late)
  {
    var row, late := NewRow(NO_SPEC, 0), threshold + period;
    var structured := Message(Subject("job", EVENT_STRUCTURED), Encode(JobStructured(Some(""))), Commits);
    StructuredMoves(row, late, threshold, NO_SPEC);
    Then(ops, structured, threshold, period);
    SweepSpares(ToRendering("").On(row, late), late, threshold, threshold);
    Then(ops + [structured], Sweep(threshold, Commits), threshold, period);
    more := ops + [structured] + [Sweep(threshold, Commits)];
  }

  lemma StructuredMoves(row: Row, now: int, lastSweep: int, spec: JobSpec)
    requires row == NewRow(spec, 0)
    ensures OnMessage(OneRow(row, now, lastSweep), Subject("job", EVENT_STRUCTURED),
                      Encode(JobStructured(Some(""))), Commits).0
            == OneRow(ToRendering("").On(row, now), now, lastSweep)
  {
    ParseOfSubject("job", EVENT_STRUCTURED);
    DecodeOfEncode(JobStructured(Some("")));
    assert map["job" := row]["job" := ToRendering("").On(row, now)] == map["job" := ToRendering("").On(row, now)];
  }

  /** With the deployed values, ten minutes and one minute, the bound is 22 minutes. */
  lemma DeployedBound(ops: seq<Op>, id: string)
    requires Punctual(EMPTY, ops, 600, 60)
    requires id in Exec(EMPTY, ops).rows
    requires Exec(EMPTY, ops).now > Exec(EMPTY, ops).rows[id].createdAt + 22 * 60
    ensures Terminal(Exec(EMPTY, ops).rows[id].status)
  {
    NoJobStaysLive(ops, 600, 60, id);
  }
}
