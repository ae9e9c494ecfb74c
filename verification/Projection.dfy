/** The gateway's event projection: the handlers that turn stream events,
    advisories and sweeper ticks into writes on the jobs table and counters. */
module Projection {
  import opened Wrappers
  import opened Subjects
  import opened Events
  import opened JobStore

  const MAX_DELIVERIES_ERROR := "processing failed repeatedly"

  datatype Disposition = Ack | Term | Nak

  /** `completed` and `failed` are `cvgen.jobs.total` by status. */
  datatype Metrics = Metrics(completed: nat, failed: nat, swept: nat, poisoned: multiset<string>)

  /** The table, its clock and the counters, with four history tallies that the
      program does not keep: the time of the last sweep that took effect, the
      rows `handleJobCreate` failed itself, and the terminal transitions that
      took effect although the statement reported an error. */
  datatype Gateway = Gateway(
    rows: Table,
    now: int,
    metrics: Metrics,
    lastSweep: int,
    submissionFailures: nat,
    lostCompleted: nat,
    lostFailed: nat)

  const EMPTY := Gateway(map[], 0, Metrics(0, 0, 0, multiset{}), 0, 0, 0, 0)

  /** Every way the gateway's state changes. */
  datatype Op =
    | Create(id: string, spec: JobSpec, db: Db)
    | FailSubmission(id: string, text: string, db: Db)
    | Message(subject: string, payload: Payload, db: Db)
    | Advisory(fetched: Option<string>, db: Db)
    | Sweep(olderThan: nat, db: Db)
    | Tick(seconds: nat)

  /** The statement `handleMsg` runs for an event; None when it runs none. */
  function ChangeFor(e: Event): Option<Change> {
    match e
    case JobStructured(Some(cv)) => Some(ToRendering(cv))
    case JobRendered(Some(key)) => Some(ToCompleted(key))
    case JobFailed(Some((stage, text))) =>
      Some(if stage.StageProcessing? then ToFailedProcessing(text) else ToFailed(text))
    case _ => None
  }

  /** Does `change` move this row from a live to a terminal status? */
  predicate Finishes(rows: Table, id: string, change: Change) {
    id in rows && change.Guard(rows[id].status) && !change.ToRendering?
  }

  /** One guarded update together with what `recordTerminal` then counts. */
  function Apply(g: Gateway, id: string, change: Change, db: Db): Gateway {
    if db.Aborts? then g
    else
      var after := g.(rows := Update(g.rows, id, change, g.now));
      if !Finishes(g.rows, id, change) then after
      else if db.Commits? then
        if change.ToCompleted?
        then after.(metrics := g.metrics.(completed := g.metrics.completed + 1))
        else after.(metrics := g.metrics.(failed := g.metrics.failed + 1))
      else
        if change.ToCompleted?
        then after.(lostCompleted := g.lostCompleted + 1)
        else after.(lostFailed := g.lostFailed + 1)
  }

  /** The row a message writes and how; None when it writes nothing. */
  function WriteOf(subject: string, payload: Payload): Option<(string, Change)> {
    match ParseSubject(subject)
    case None => None
    case Some((id, suffix)) =>
      match ChangeFor(Decode(suffix, payload))
      case None => None
      case Some(change) => Some((id, change))
  }

  predicate IsRequested(subject: string) {
    var parsed := ParseSubject(subject);
    parsed.Some? && parsed.value.1 == EVENT_REQUESTED
  }

  /** Without a write, only `requested` is good: everything else cannot be
      cured by redelivery and is terminated. */
  function OnMessage(g: Gateway, subject: string, payload: Payload, db: Db): (Gateway, Disposition) {
    match WriteOf(subject, payload)
    case None => (g, if IsRequested(subject) then Ack else Term)
    case Some((id, change)) => (Apply(g, id, change, db), if db.Commits? then Ack else Nak)
  }

  /** `fetched` is the subject of the message the advisory points at; None when
      the advisory does not parse or the message cannot be fetched back. */
  function OnAdvisory(g: Gateway, fetched: Option<string>, db: Db): Gateway {
    if fetched.None? || ParseSubject(fetched.value).None? then g
    else
      var (id, suffix) := ParseSubject(fetched.value).value;
      var change := ToFailed(MAX_DELIVERIES_ERROR);
      var after := Apply(g, id, change, db);
      if db.Commits? && Finishes(g.rows, id, change)
      then after.(metrics := after.metrics.(poisoned := after.metrics.poisoned + multiset{suffix}))
      else after
  }

  function OnSweep(g: Gateway, olderThan: nat, db: Db): Gateway {
    if db.Aborts? then g
    else
      var count := |StuckIds(g.rows, olderThan, g.now)|;
      var after := g.(rows := Swept(g.rows, olderThan, g.now), lastSweep := g.now);
      if db.Commits? then after.(metrics := g.metrics.(swept := g.metrics.swept + count))
      else after.(lostFailed := g.lostFailed + count)
  }

  /** `handleJobCreate` failing its own row; it ignores what the statement reports. */
  function OnOwnFailure(g: Gateway, id: string, text: string, db: Db): Gateway {
    if db.Aborts? then g
    else
      var after := g.(rows := Update(g.rows, id, ToFailed(text), g.now));
      if Finishes(g.rows, id, ToFailed(text))
      then after.(submissionFailures := g.submissionFailures + 1) else after
  }

  function OnCreate(g: Gateway, id: string, spec: JobSpec, db: Db): Gateway {
    if db.Aborts? || id in g.rows then g else g.(rows := g.rows[id := NewRow(spec, g.now)])
  }

  function Next(g: Gateway, op: Op): Gateway {
    match op
    case Create(id, spec, db) => OnCreate(g, id, spec, db)
    case FailSubmission(id, text, db) => OnOwnFailure(g, id, text, db)
    case Message(subject, payload, db) => OnMessage(g, subject, payload, db).0
    case Advisory(fetched, db) => OnAdvisory(g, fetched, db)
    case Sweep(olderThan, db) => OnSweep(g, olderThan, db)
    case Tick(seconds) => g.(now := g.now + seconds)
  }

  function Exec(g: Gateway, ops: seq<Op>): Gateway {
    if ops == [] then g else Next(Exec(g, ops[..|ops| - 1]), ops[|ops| - 1])
  }

  // ---- the runner ----

  class Runner {
    const st: Store
    var completed: nat
    var failed: nat
    var swept: nat
    var poisoned: multiset<string>
    ghost var lastSweep: int
    ghost var submissionFailures: nat
    ghost var lostCompleted: nat
    ghost var lostFailed: nat

    constructor (st: Store)
      ensures this.st == st
      ensures View() == Gateway(st.rows, st.now, EMPTY.metrics, st.now, 0, 0, 0)
    {
      this.st := st;
      completed, failed, swept, poisoned := 0, 0, 0, multiset{};
      lastSweep, submissionFailures, lostCompleted, lostFailed := st.now, 0, 0, 0;
    }

    ghost function View(): Gateway
      reads this, st
    {
      Gateway(st.rows, st.now, Metrics(completed, failed, swept, poisoned),
              lastSweep, submissionFailures, lostCompleted, lostFailed)
    }

    method RecordTerminal(status: Status)
      requires Terminal(status)
      modifies this`completed, this`failed
      ensures completed == old(completed) + (if status.Completed? then 1 else 0)
      ensures failed == old(failed) + (if status.Failed? then 1 else 0)
    {
      if status.Completed? { completed := completed + 1; } else { failed := failed + 1; }
    }

    method ProjectRendered(jobId: string, key: string, db: Db) returns (ok: bool)
      modifies this`completed, this`failed, this`lostCompleted, st`rows
      ensures View() == Apply(old(View()), jobId, ToCompleted(key), db)
      ensures ok <==> db.Commits?
    {
      if db.LosesReply? && Finishes(st.rows, jobId, ToCompleted(key)) { lostCompleted := lostCompleted + 1; }
      var marked := st.MarkCompleted(jobId, key, db);
      ok := marked.Success?;
      if ok && marked.value.Some? { RecordTerminal(Completed); }
    }

    /** Only a processing failure is held back from a row that went on to render. */
    method ProjectFailed(jobId: string, stage: Stage, text: string, db: Db) returns (ok: bool)
      modifies this`completed, this`failed, this`lostFailed, st`rows
      ensures ChangeFor(JobFailed(Some((stage, text)))).Some?
      ensures View() == Apply(old(View()), jobId, ChangeFor(JobFailed(Some((stage, text)))).value, db)
      ensures ok <==> db.Commits?
    {
      if db.LosesReply? && Finishes(st.rows, jobId, ChangeFor(JobFailed(Some((stage, text)))).value) {
        lostFailed := lostFailed + 1;
      }
      var marked;
      if stage == StageProcessing {
        marked := st.MarkFailedProcessing(jobId, text, db);
      } else {
        marked := st.MarkFailed(jobId, text, db);
      }
      ok := marked.Success?;
      if ok && marked.value.Some? { RecordTerminal(Failed); }
    }

    method HandleMsg(subject: string, payload: Payload, db: Db) returns (d: Disposition)
      modifies this, st`rows
      ensures (View(), d) == OnMessage(old(View()), subject, payload, db)
    {
      var parsed := ParseSubject(subject);
      if parsed.None? { return Term; }
      var (jobId, event) := parsed.value;
      var ok := true;
      if event == EVENT_REQUESTED {
        // The row was created as pending before the publish.
      } else if event == EVENT_STRUCTURED {
        if payload.structured.None? { return Term; }
        ok := st.MarkRendering(jobId, payload.structured.value, db);
      } else if event == EVENT_RENDERED {
        if payload.rendered.None? { return Term; }
        ok := ProjectRendered(jobId, payload.rendered.value, db);
      } else if event == EVENT_FAILED {
        if payload.failed.None? { return Term; }
        ok := ProjectFailed(jobId, payload.failed.value.0, payload.failed.value.1, db);
      } else {
        return Term;
      }
      d := if ok then Ack else Nak;
    }

    method HandleAdvisory(fetched: Option<string>, db: Db)
      modifies this, st`rows
      ensures View() == OnAdvisory(old(View()), fetched, db)
    {
      if fetched.None? { return; }
      var parsed := ParseSubject(fetched.value);
      if parsed.None? { return; }
      var (jobId, event) := parsed.value;
      var marked := st.MarkFailed(jobId, MAX_DELIVERIES_ERROR, db);
      if db.LosesReply? && Finishes(old(st.rows), jobId, ToFailed(MAX_DELIVERIES_ERROR)) {
        lostFailed := lostFailed + 1;
      }
      if marked.Failure? { return; }
      if marked.value.Some? {
        poisoned := poisoned + multiset{event};
        RecordTerminal(Failed);
      }
    }

    method SweepTick(olderThan: nat, db: Db)
      modifies this, st`rows
      ensures View() == OnSweep(old(View()), olderThan, db)
    {
      if !db.Aborts? {
        lastSweep := st.now;
        if db.LosesReply? { lostFailed := lostFailed + |StuckIds(st.rows, olderThan, st.now)|; }
      }
      var result := st.SweepStuck(olderThan, db);
      if result.Success? && result.value > 0 {
        swept := swept + result.value;
      }
    }

    /** The sweeper over the ticks seen so far: how long each was in coming and
        how its statement fared. The clock moves on its own between ticks. */
    method SweepLoop(ticks: seq<(nat, Db)>, olderThan: nat)
      modifies this, st
      ensures View() == Exec(old(View()), SweepOps(ticks, olderThan))
    {
      ghost var start := View();
      var i := 0;
      while i < |ticks|
        invariant 0 <= i <= |ticks|
        invariant View() == Exec(start, SweepOps(ticks[..i], olderThan))
      {
        var (wait, db) := ticks[i];
        SweepOpsExtend(start, ticks, i, olderThan);
        ghost var before := View();
        st.now := st.now + wait;
        assert View() == Next(before, Tick(wait));
        SweepTick(olderThan, db);
        i := i + 1;
      }
      assert ticks[..i] == ticks;
    }
  }

  function SweepOps(ticks: seq<(nat, Db)>, olderThan: nat): seq<Op> {
    if ticks == [] then []
    else
      var (wait, db) := ticks[|ticks| - 1];
      SweepOps(ticks[..|ticks| - 1], olderThan) + [Tick(wait), Sweep(olderThan, db)]
  }

  lemma SweepOpsExtend(g: Gateway, ticks: seq<(nat, Db)>, i: nat, olderThan: nat)
    requires i < |ticks|
    ensures Exec(g, SweepOps(ticks[..i + 1], olderThan))
            == OnSweep(Next(Exec(g, SweepOps(ticks[..i], olderThan)), Tick(ticks[i].0)), olderThan, ticks[i].1)
  {
    var (wait, db) := ticks[i];
    var before := SweepOps(ticks[..i], olderThan);
    assert ticks[..i + 1][..i] == ticks[..i];
    var all := before + [Tick(wait), Sweep(olderThan, db)];
    assert all == SweepOps(ticks[..i + 1], olderThan);
    assert all[..|all| - 1] == before + [Tick(wait)];
    assert (before + [Tick(wait)])[..|before|] == before;
  }
}
