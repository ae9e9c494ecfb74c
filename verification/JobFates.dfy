/** How the jobs of the pipeline end, over every run: which write decided each
    row, where that write came from, and when a delivered PDF ends completed. */
module JobFates {
  import opened Wrappers
  import opened Subjects
  import opened Events
  import opened Stream
  import opened JobStore
  import opened Projection
  import opened ProjectionLaws
  import opened DeliveryLaws
  import opened FateLaws
  import opened Pipeline
  import opened WorkerLaws
  import opened JobLaws
  import opened PipelineLaws
  import Submission
  import Ai = AiProcessor
  import Cv = CvGenerator

  // ---- what every system of a run can rely on ----

  /** A submission that fails its own row says one of two things. */
  predicate Told(j: Job) {
    j.submission.FailingRow? ==> j.submission.text in {Submission.HAND_OFF_ERROR, Submission.ENQUEUE_ERROR}
  }

  /** The jobs of a system have ids that fit a subject and submissions that speak plainly. */
  predicate Sound(jobs: map<string, Job>) {
    forall id :: id in jobs ==> '.' !in id && Told(jobs[id])
  }

  lemma JobsNextSound(delays: seq<nat>, s: System, a: Action)
    requires Sound(s.jobs)
    ensures Sound(JobsNext(delays, s, a))
  {
    if a.Act? && a.id in s.jobs { assert Told(JobNext(delays, a.id, s.jobs[a.id], a.action, s.gw.now)); }
  }

  lemma {:induction false} RunIsSound(delays: seq<nat>, actions: seq<Action>)
    ensures Sound(Run(delays, actions).jobs)
  {
    if actions != [] {
      var n := |actions| - 1;
      RunIsSound(delays, actions[..n]);
      JobsNextSound(delays, Run(delays, actions[..n]), actions[n]);
    }
  }

  lemma GwDeliveredGrows(j: Job, msg: nat, d: Disposition, lost: bool)
    requires msg < |j.log| && Deliverable(j.log[msg].gw)
    ensures Grows(j.log, GwDelivered(j, msg, d, lost).log)
  {
  }

  lemma JobsNextGrows(delays: seq<nat>, s: System, a: Action, id: string)
    requires id in s.jobs && JobOk(|delays|, id, s.jobs[id], s.gw.now)
    ensures id in JobsNext(delays, s, a) && Grows(s.jobs[id].log, JobsNext(delays, s, a)[id].log)
  {
    var j, after := s.jobs[id], JobsNext(delays, s, a)[id];
    if a.Act? && a.id == id {
      assert after == JobNext(delays, id, j, a.action, s.gw.now);
      JobNextEvolves(delays, id, j, a.action, s.gw.now);
    } else if a.GwDeliver? && a.id == id && CanDeliver(s, id, a.msg) {
      var e := j.log[a.msg].event;
      var d := OnMessage(s.gw, Subject(id, Suffix(e)), Encode(e), a.db).1;
      assert after == GwDelivered(j, a.msg, d, a.lost);
      GwDeliveredGrows(j, a.msg, d, a.lost);
    } else {
      assert after.log == j.log;
    }
  }

  lemma JobIsOk(n: nat, s: System, id: string)
    requires SystemOk(n, s) && id in s.jobs
    ensures id in s.gw.rows && JobStands(n, id, s.jobs[id], s.gw.rows[id], s.gw.now)
  {
  }

  /** The last action of a run leaves every stream grown. */
  lemma LastGrows(delays: seq<nat>, actions: seq<Action>, id: string)
    requires actions != []
    ensures var s, later := Run(delays, actions[..|actions| - 1]), Run(delays, actions);
            id in s.jobs ==> id in later.jobs && Grows(s.jobs[id].log, later.jobs[id].log)
  {
    var n := |actions| - 1;
    var s := Run(delays, actions[..n]);
    if id in s.jobs {
      RunStands(delays, actions[..n]);
      JobIsOk(|delays|, s, id);
      JobsNextGrows(delays, s, actions[n], id);
    }
  }

  // ---- where a write comes from ----

  /** The `k`-th action was enabled and its statement took effect. */
  predicate Took(delays: seq<nat>, actions: seq<Action>, k: nat)
    requires k < |actions|
  {
    var op := GatewayOp(Run(delays, actions[..k]), actions[k]);
    op.Some? && !op.value.Tick? && !op.value.db.Aborts?
  }

  /** The `k`-th action is an advisory on a message of the job that has no delivery left. */
  predicate Exhausts(a: Action, id: string, suffix: string, log: Log) {
    && a.Exhausted? && a.id == id && a.msg < |log| && Suffix(log[a.msg].event) == suffix
    && SubOf(log[a.msg], a.consumer).Sub? && SubOf(log[a.msg], a.consumer).left == 0
  }

  /** An action of this kind took effect. */
  ghost predicate SomeTook(delays: seq<nat>, actions: seq<Action>, kind: Action -> bool) {
    exists k :: 0 <= k < |actions| && kind(actions[k]) && Took(delays, actions, k)
  }

  function Sweeps(): Action -> bool {
    (a: Action) => a.SweepTick?
  }

  function Exhausting(id: string, suffix: string, log: Log): Action -> bool {
    (a: Action) => Exhausts(a, id, suffix, log)
  }

  function GivingUp(id: string): Action -> bool {
    (a: Action) => a.FailOwnRow? && a.id == id
  }

  /** The origin of a write in the run that brought it: an event of the job's
      stream, or an action that took effect: a sweep, an advisory on a message of
      the job with no delivery left, or its submission giving up with one of its
      two texts. */
  ghost predicate Backed(delays: seq<nat>, actions: seq<Action>, s: System, id: string, c: Cause) {
    match c
    case ByEvent(e) => id in s.jobs && exists i :: 0 <= i < |s.jobs[id].log| && s.jobs[id].log[i].event == e
    case BySweep => SomeTook(delays, actions, Sweeps())
    case ByAdvisory(suffix) => id in s.jobs && SomeTook(delays, actions, Exhausting(id, suffix, s.jobs[id].log))
    case BySubmission(text) =>
      && id in s.jobs && text in {Submission.HAND_OFF_ERROR, Submission.ENQUEUE_ERROR}
      && SomeTook(delays, actions, GivingUp(id))
  }

  lemma ExhaustsLater(a: Action, id: string, suffix: string, log: Log, later: Log)
    requires Exhausts(a, id, suffix, log) && Grows(log, later)
    ensures Exhausts(a, id, suffix, later)
  {
    assert MsgWears(log[a.msg], later[a.msg]);
  }

  lemma SomeTookLater(delays: seq<nat>, actions: seq<Action>, more: seq<Action>,
                      kind: Action -> bool, wider: Action -> bool)
    requires SomeTook(delays, actions, kind) && actions <= more
    requires forall a :: kind(a) ==> wider(a)
    ensures SomeTook(delays, more, wider)
  {
    var k :| 0 <= k < |actions| && kind(actions[k]) && Took(delays, actions, k);
    assert more[..k] == actions[..k] && more[k] == actions[k];
  }

  lemma BackedLater(delays: seq<nat>, actions: seq<Action>, s: System, more: seq<Action>, later: System,
                    id: string, c: Cause)
    requires Backed(delays, actions, s, id, c) && actions <= more
    requires id in s.jobs ==> id in later.jobs && Grows(s.jobs[id].log, later.jobs[id].log)
    ensures Backed(delays, more, later, id, c)
  {
    match c
    case ByEvent(e) =>
      var i :| 0 <= i < |s.jobs[id].log| && s.jobs[id].log[i].event == e;
      assert MsgWears(s.jobs[id].log[i], later.jobs[id].log[i]);
    case BySweep => SomeTookLater(delays, actions, more, Sweeps(), Sweeps());
    case ByAdvisory(suffix) =>
      var log, log' := s.jobs[id].log, later.jobs[id].log;
      forall a | Exhausting(id, suffix, log)(a) ensures Exhausting(id, suffix, log')(a) {
        ExhaustsLater(a, id, suffix, log, log');
      }
      SomeTookLater(delays, actions, more, Exhausting(id, suffix, log), Exhausting(id, suffix, log'));
    case BySubmission(_) => SomeTookLater(delays, actions, more, GivingUp(id), GivingUp(id));
  }

  lemma CauseOfEvent(g: Gateway, to: string, e: Event, db: Db, id: string)
    requires '.' !in to
    ensures CauseOf(g, Op.Message(Subject(to, Suffix(e)), Encode(e), db), id)
            == if to == id && !db.Aborts? then Some(ByEvent(e)) else None
    ensures CauseOf(g, Op.Advisory(Some(Subject(to, Suffix(e))), db), id)
            == if to == id && !db.Aborts? then Some(ByAdvisory(Suffix(e))) else None
  {
    SubjectOfEvent(to, e);
    DecodeOfEncode(e);
  }

  lemma CauseIsBacked(delays: seq<nat>, actions: seq<Action>, id: string)
    requires actions != []
    requires var n := |actions| - 1;
             var s := Run(delays, actions[..n]);
             && Sound(s.jobs)
             && GatewayOp(s, actions[n]).Some? && CauseOf(s.gw, GatewayOp(s, actions[n]).value, id).Some?
    ensures var s := Run(delays, actions[..|actions| - 1]);
            var op := GatewayOp(s, actions[|actions| - 1]).value;
            Backed(delays, actions, s, id, CauseOf(s.gw, op, id).value)
  {
    var n := |actions| - 1;
    var s := Run(delays, actions[..n]);
    match actions[n]
    case GwDeliver(to, msg, db, _) => CauseOfEvent(s.gw, to, s.jobs[to].log[msg].event, db, id);
    case Exhausted(to, msg, consumer, db) =>
      CauseOfEvent(s.gw, to, s.jobs[to].log[msg].event, db, id);
      assert Exhausting(id, Suffix(s.jobs[id].log[msg].event), s.jobs[id].log)(actions[n]) && Took(delays, actions, n);
    case SweepTick(_, _) => assert Sweeps()(actions[n]) && Took(delays, actions, n);
    case FailOwnRow(_, _) => assert GivingUp(id)(actions[n]) && Took(delays, actions, n);
    case _ =>
  }

  // ---- the history of a row ----

  /** Every write that reached the row of job `id`, in the order they took effect. */
  function Written(delays: seq<nat>, actions: seq<Action>, id: string): seq<Applied> {
    Writes(EMPTY, Operations(delays, actions), id)
  }

  lemma WrittenNext(delays: seq<nat>, actions: seq<Action>, id: string)
    requires actions != []
    ensures var n := |actions| - 1;
            var s := Run(delays, actions[..n]);
            var op := GatewayOp(s, actions[n]);
            Written(delays, actions, id)
            == Written(delays, actions[..n], id)
               + (if id in s.gw.rows && op.Some? && CauseOf(s.gw, op.value, id).Some?
                  then [Applied(CauseOf(s.gw, op.value, id).value, s.gw.now)] else [])
  {
    var n := |actions| - 1;
    var before := Operations(delays, actions[..n]);
    PipelineRunsGateway(delays, actions[..n]);
    var op := GatewayOp(Run(delays, actions[..n]), actions[n]);
    if op.Some? {
      assert (before + [op.value])[..|before|] == before;
    } else {
      assert Operations(delays, actions) == before;
    }
  }

  lemma NewWriteIsBacked(delays: seq<nat>, actions: seq<Action>, id: string)
    requires actions != []
    requires |Written(delays, actions, id)| > |Written(delays, actions[..|actions| - 1], id)|
    ensures var steps := Written(delays, actions, id);
            Backed(delays, actions, Run(delays, actions[..|actions| - 1]), id, steps[|steps| - 1].cause)
  {
    var n := |actions| - 1;
    WrittenNext(delays, actions, id);
    RunIsSound(delays, actions[..n]);
    CauseIsBacked(delays, actions, id);
  }

  /** Every write has an origin in the run. */
  lemma {:induction false} WrittenIsBacked(delays: seq<nat>, actions: seq<Action>, id: string, i: nat)
    requires i < |Written(delays, actions, id)|
    ensures Backed(delays, actions, Run(delays, actions), id, Written(delays, actions, id)[i].cause)
  {
    if actions != [] {
      var n := |actions| - 1;
      var before, s := actions[..n], Run(delays, actions[..n]);
      var c := Written(delays, actions, id)[i].cause;
      WrittenNext(delays, actions, id);
      LastGrows(delays, actions, id);
      if i < |Written(delays, before, id)| {
        WrittenIsBacked(delays, before, id, i);
        BackedLater(delays, before, s, actions, Run(delays, actions), id, c);
      } else {
        NewWriteIsBacked(delays, actions, id);
        BackedLater(delays, actions, s, actions, Run(delays, actions), id, c);
      }
    }
  }

  // ---- how rows end ----

  lemma RunRowMeetsItsFate(delays: seq<nat>, actions: seq<Action>, id: string)
    requires id in Run(delays, actions).gw.rows
    ensures var row := Run(delays, actions).gw.rows[id];
            var new' := NewRow(row.spec, row.createdAt);
            && row == Project(new', Written(delays, actions, id)) && Consistent(new')
            && Meets(row, FateOf(Written(delays, actions, id)))
  {
    PipelineRunsGateway(delays, actions);
    RowFromCreation(Operations(delays, actions), id);
    EveryRowMeetsItsFate(Operations(delays, actions), id);
  }

  /** In every reachable state, a row is failed exactly when some write struck it:
      a failure with no `rendered` and, if a processing failure, no `structured`
      before it. Its error is the text of such a write, and that write has its
      origin in the run. The dual of a completed row's provenance. */
  lemma FailedMeansStruck(delays: seq<nat>, actions: seq<Action>, id: string)
    requires id in Run(delays, actions).gw.rows
    ensures var s, steps := Run(delays, actions), Written(delays, actions, id);
            && (s.gw.rows[id].status.Failed? <==> Struck(steps))
            && (s.gw.rows[id].status.Failed? ==> exists i ::
                  && 0 <= i < |steps| && Strikes(steps, i)
                  && s.gw.rows[id].error == Some(TextOf(steps[i].cause))
                  && Backed(delays, actions, s, id, steps[i].cause))
  {
    var row, steps := Run(delays, actions).gw.rows[id], Written(delays, actions, id);
    RunRowMeetsItsFate(delays, actions, id);
    FailedIffStruck(NewRow(row.spec, row.createdAt), steps);
    if row.status.Failed? {
      var i :| 0 <= i < |steps| && Strikes(steps, i) && row.error == Some(TextOf(steps[i].cause));
      WrittenIsBacked(delays, actions, id, i);
    }
  }

  /** In every reachable state, a row is completed exactly when `rendered` reached
      it and no write struck it. */
  lemma CompletedMeansSpared(delays: seq<nat>, actions: seq<Action>, id: string)
    requires id in Run(delays, actions).gw.rows
    ensures var steps := Written(delays, actions, id);
            Run(delays, actions).gw.rows[id].status.Completed? <==> HasRendered(steps) && !Struck(steps)
  {
    var row := Run(delays, actions).gw.rows[id];
    RunRowMeetsItsFate(delays, actions, id);
    FailedIffStruck(NewRow(row.spec, row.createdAt), Written(delays, actions, id));
  }

  /** When a delivered PDF ends completed: once the gateway acknowledged
      `rendered`, the job is completed if and only if no write struck its row, no
      failure, sweep, advisory or given-up submission while it was live and no
      processing failure while it was pending. */
  lemma DeliveredEndsCompleted(delays: seq<nat>, actions: seq<Action>, id: string, msg: nat)
    requires id in Run(delays, actions).jobs && msg < |Run(delays, actions).jobs[id].log|
    requires var m := Run(delays, actions).jobs[id].log[msg];
             m.event.JobRendered? && m.gw.Sub? && m.gw.settled.Acked?
    ensures var s := Run(delays, actions);
            id in s.gw.rows && (s.gw.rows[id].status.Completed? <==> !Struck(Written(delays, actions, id)))
  {
    RunStands(delays, actions);
    var s := Run(delays, actions);
    JobIsOk(|delays|, s, id);
    RenderedIsTerminal(|delays|, id, s.jobs[id], s.gw.rows[id], s.gw.now, msg);
    FailedMeansStruck(delays, actions, id);
  }

  lemma RenderedIsTerminal(n: nat, id: string, j: Job, row: Row, now: int, msg: nat)
    requires JobStands(n, id, j, row, now) && msg < |j.log|
    requires j.log[msg].event.JobRendered? && j.log[msg].gw.Sub? && j.log[msg].gw.settled.Acked?
    ensures Terminal(row.status)
  {
    KnownMessage(n, id, j, row, now, msg);
    assert GwSettledHonestly(row, j.log[msg]);
  }

  lemma RowsFollow(delays: seq<nat>, actions: seq<Action>, id: string)
    requires actions != [] && id in Run(delays, actions[..|actions| - 1]).gw.rows
    ensures id in Run(delays, actions).gw.rows
    ensures Follows(Run(delays, actions[..|actions| - 1]).gw.rows[id], Run(delays, actions).gw.rows[id])
  {
    var n := |actions| - 1;
    var s := Run(delays, actions[..n]);
    PipelineRunsGateway(delays, actions[..n]);
    RowsOnlyMoveForward(EMPTY, Operations(delays, actions[..n]));
    var op := GatewayOp(s, actions[n]);
    if op.Some? { NextKeepsRows(s.gw, op.value); }
  }
}
