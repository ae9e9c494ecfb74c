/** Jobs that are over: nothing of them can be delivered any more and no run of
    theirs is going on. When such a job's row is still live, and what can then end it. */
module QuietLaws {
  import opened Wrappers
  import opened Subjects
  import opened Events
  import opened Stream
  import opened JobStore
  import opened Projection
  import opened ProjectionLaws
  import opened DeliveryLaws
  import opened FateLaws
  import opened Pipeline
  import opened WorkerLaws
  import opened JobLaws
  import opened PipelineLaws
  import opened JobFates
  import Submission
  import Ai = AiProcessor
  import Cv = CvGenerator

  /** The submission is through and every run that has not died is done. */
  predicate RunsOver(j: Job) {
    && j.submission.Finished?
    && (forall k :: 0 <= k < |j.ai| && j.ai[k].live ==> j.ai[k].run.phase.Done?)
    && (forall k :: 0 <= k < |j.cv| && j.cv[k].live ==> j.cv[k].run.phase.Done?)
  }

  /** Nothing of the job can be delivered, and nothing runs. */
  predicate Over(j: Job) {
    && RunsOver(j)
    && (forall i :: 0 <= i < |j.log| ==>
          !Deliverable(j.log[i].ai) && !Deliverable(j.log[i].cv) && !Deliverable(j.log[i].gw))
  }

  /** Some message used up its deliveries unsettled, which is what advisories are about. */
  predicate Waits(j: Job) {
    exists i :: 0 <= i < |j.log| && (Starved(j.log[i].ai) || Starved(j.log[i].cv) || Starved(j.log[i].gw))
  }

  predicate HasMore(s: Sub) {
    s.Sub? && s.settled.Open?
  }

  /** Every message is settled, and nothing runs. */
  predicate Quiet(j: Job) {
    && RunsOver(j)
    && (forall i :: 0 <= i < |j.log| ==>
          !HasMore(j.log[i].ai) && !HasMore(j.log[i].cv) && !HasMore(j.log[i].gw))
  }

  lemma QuietIsOver(j: Job)
    ensures Quiet(j) <==> Over(j) && !Waits(j)
  {
    if Over(j) && !Waits(j) {
      forall i | 0 <= i < |j.log|
        ensures !HasMore(j.log[i].ai) && !HasMore(j.log[i].cv) && !HasMore(j.log[i].gw)
      {
        assert !Starved(j.log[i].ai) && !Starved(j.log[i].cv) && !Starved(j.log[i].gw);
      }
    }
  }

  // ---- when a quiet job is still live ----

  predicate OnlyProcessingFailures(log: Log) {
    forall i :: 0 <= i < |log| && log[i].event.JobFailed? ==>
      log[i].event.report.Some? && log[i].event.report.value.0.StageProcessing?
  }

  /** No sweep, advisory or given-up submission reached the row. */
  predicate EventsAlone(steps: seq<Applied>) {
    forall i :: 0 <= i < |steps| ==> steps[i].cause.ByEvent?
  }

  lemma QuietIsHeard(row: Row, id: string, j: Job, i: nat)
    requires RowBacked(row, id, j) && Shaped(id, j) && Quiet(j) && i < |j.log|
    ensures Spent(row, j.log[i].event)
  {
    assert GwSettledHonestly(row, j.log[i]) && MsgOk(id, j.log[i], i == 0);
  }

  lemma QuietHolds(row: Row, id: string, j: Job, suffix: string) returns (i: nat)
    requires RowBacked(row, id, j) && Shaped(id, j) && Quiet(j) && Holds(j.log, suffix)
    ensures i < |j.log| && Suffix(j.log[i].event) == suffix && Spent(row, j.log[i].event)
    ensures KnownEvent(id, j.log[i].event)
  {
    i :| 0 <= i < |j.log| && Suffix(j.log[i].event) == suffix;
    QuietIsHeard(row, id, j, i);
    assert MsgOk(id, j.log[i], i == 0);
  }

  /** What a live row says of a quiet job whose `requested` was stored. */
  lemma QuietLiveRow(id: string, j: Job, row: Row)
    requires RowBacked(row, id, j) && Shaped(id, j) && NoSilentLoss(j) && Quiet(j)
    requires j.log != [] && !Terminal(row.status)
    ensures row.status.Rendering? && Holds(j.log, EVENT_FAILED)
    ensures !Holds(j.log, EVENT_RENDERED) && OnlyProcessingFailures(j.log)
  {
    if Holds(j.log, EVENT_RENDERED) { var i := QuietHolds(row, id, j, EVENT_RENDERED); }
    forall i | 0 <= i < |j.log| && j.log[i].event.JobFailed?
      ensures j.log[i].event.report.Some? && j.log[i].event.report.value.0.StageProcessing?
    {
      QuietIsHeard(row, id, j, i);
      assert MsgOk(id, j.log[i], i == 0);
    }
    assert MsgOk(id, j.log[0], true) && AiSubHonest(j.log[0].ai, j.log);
    if Holds(j.log, EVENT_STRUCTURED) {
      var i := QuietHolds(row, id, j, EVENT_STRUCTURED);
      assert MsgOk(id, j.log[i], i == 0) && CvSubHonest(j.log[i].cv, j.log);
    }
    var f := QuietHolds(row, id, j, EVENT_FAILED);
  }

  /** With only processing failures among its writes, a row that has its CV has not failed. */
  lemma StructuredIsSpared(delays: seq<nat>, actions: seq<Action>, id: string)
    requires id in Run(delays, actions).gw.rows && id in Run(delays, actions).jobs
    requires EventsAlone(Written(delays, actions, id))
    requires OnlyProcessingFailures(Run(delays, actions).jobs[id].log)
    ensures var s := Run(delays, actions);
            s.gw.rows[id].status.Failed? ==> s.gw.rows[id].cv.None? && s.jobs[id].log != []
  {
    var s, steps := Run(delays, actions), Written(delays, actions, id);
    var row := s.gw.rows[id];
    RunRowMeetsItsFate(delays, actions, id);
    forall i | 0 <= i < |steps| && Fails(steps[i].cause) ensures FailsPending(steps[i].cause) {
      WrittenIsBacked(delays, actions, id, i);
      var k :| 0 <= k < |s.jobs[id].log| && s.jobs[id].log[k].event == steps[i].cause.event;
    }
    ProcessingFailuresSpareTheStructured(NewRow(row.spec, row.createdAt), steps);
    FailedMeansStruck(delays, actions, id);
  }

  /** No sweep, advisory or given-up submission reached the row, the stream holds
      no `rendered` and none but processing failures, and, once `requested` was
      stored, the row has its CV. */
  ghost predicate Forgotten(j: Job, row: Row, steps: seq<Applied>) {
    && EventsAlone(steps) && !Holds(j.log, EVENT_RENDERED) && OnlyProcessingFailures(j.log)
    && (j.log == [] || row.cv.Some?)
  }

  lemma LiveIsForgotten(id: string, j: Job, row: Row, steps: seq<Applied>)
    requires RowBacked(row, id, j) && Shaped(id, j) && NoSilentLoss(j) && Quiet(j)
    requires Consistent(row) && Meets(row, FateOf(steps)) && !Terminal(row.status)
    ensures Forgotten(j, row, steps)
    ensures j.log != [] ==> row.status.Rendering? && Holds(j.log, EVENT_FAILED)
  {
    RowEndIsFirst(steps);
    forall i | 0 <= i < |steps| ensures steps[i].cause.ByEvent? {
      assert !Ending(steps, i);
    }
    if j.log != [] { QuietLiveRow(id, j, row); }
  }

  /** When a job can be over and done with while its row is not. In every reachable
      state, the row of a quiet job is live if and only if it is forgotten. It is
      then at `rendering`, and somebody's failure is in the stream, unheard. */
  lemma QuietRowIsLive(delays: seq<nat>, actions: seq<Action>, id: string)
    requires id in Run(delays, actions).jobs && Quiet(Run(delays, actions).jobs[id])
    ensures id in Run(delays, actions).gw.rows
    ensures var s := Run(delays, actions);
            var j, row := s.jobs[id], s.gw.rows[id];
            && (!Terminal(row.status) <==> Forgotten(j, row, Written(delays, actions, id)))
            && (!Terminal(row.status) && j.log != [] ==> row.status.Rendering? && Holds(j.log, EVENT_FAILED))
  {
    var s, steps := Run(delays, actions), Written(delays, actions, id);
    RunStands(delays, actions);
    JobIsOk(|delays|, s, id);
    assert Consistent(s.gw.rows[id]);
    RunRowMeetsItsFate(delays, actions, id);
    if !Terminal(s.gw.rows[id].status) {
      LiveIsForgotten(id, s.jobs[id], s.gw.rows[id], steps);
    }
    if Forgotten(s.jobs[id], s.gw.rows[id], steps) {
      StructuredIsSpared(delays, actions, id);
    }
  }

  /** When a job that is over is still live. Its row is live if and only if no
      `rendered` reached it and no write struck it. It then waits for an advisory on
      a message that ran out of deliveries, or it is forgotten; and if it waits for
      none, it is live exactly when it is forgotten. */
  lemma OverRowIsLive(delays: seq<nat>, actions: seq<Action>, id: string)
    requires id in Run(delays, actions).jobs && Over(Run(delays, actions).jobs[id])
    ensures id in Run(delays, actions).gw.rows
    ensures var s, steps := Run(delays, actions), Written(delays, actions, id);
            var j, row := s.jobs[id], s.gw.rows[id];
            && (!Terminal(row.status) <==> !HasRendered(steps) && !Struck(steps))
            && (!Terminal(row.status) ==> Waits(j) || Forgotten(j, row, steps))
            && (!Waits(j) ==> (!Terminal(row.status) <==> Forgotten(j, row, steps)))
            && (!Waits(j) && !Terminal(row.status) && j.log != [] ==>
                  row.status.Rendering? && Holds(j.log, EVENT_FAILED))
  {
    var s := Run(delays, actions);
    RunStands(delays, actions);
    JobIsOk(|delays|, s, id);
    FailedMeansStruck(delays, actions, id);
    CompletedMeansSpared(delays, actions, id);
    QuietIsOver(s.jobs[id]);
    if !Waits(s.jobs[id]) { QuietRowIsLive(delays, actions, id); }
  }

  // ---- what can end it ----

  /** Over stays over, and settled stays settled. */
  ghost predicate StillOver(j: Job, after: Job) {
    Over(after) && (Quiet(j) ==> Quiet(after))
  }

  lemma AiSettlesOver(j: Job, work: nat, lost: bool)
    requires Over(j)
    ensures StillOver(j, DoAiSettle(j, work, lost))
  {
  }

  lemma CvSettlesOver(j: Job, work: nat, lost: bool)
    requires Over(j)
    ensures StillOver(j, DoCvSettle(j, work, lost))
  {
  }

  lemma OverJobStays(delays: seq<nat>, id: string, j: Job, a: JobAction, now: int)
    requires Over(j)
    ensures StillOver(j, JobNext(delays, id, j, a, now))
  {
    match a
    case AiSettle(work, lost) => AiSettlesOver(j, work, lost);
    case CvSettle(work, lost) => CvSettlesOver(j, work, lost);
    case _ =>
  }

  lemma OverStays(delays: seq<nat>, s: System, a: Action, id: string)
    requires id in s.jobs && Over(s.jobs[id])
    ensures id in JobsNext(delays, s, a) && StillOver(s.jobs[id], JobsNext(delays, s, a)[id])
  {
    if a.Act? { OverJobStays(delays, id, s.jobs[id], a.action, s.gw.now); }
  }

  /** A job that is over, with this row. */
  ghost predicate Rests(s: System, id: string, row: Row) {
    id in s.jobs && Over(s.jobs[id]) && id in s.gw.rows && s.gw.rows[id] == row
  }

  /** A sweep, or an advisory on one of this job's messages. */
  predicate MayEnd(a: Action, id: string) {
    a.SweepTick? || (a.Exhausted? && a.id == id)
  }

  /** No other operation has business with the row of a job that is over. */
  lemma OverIsLeftAlone(s: System, a: Action, id: string)
    requires Sound(s.jobs) && id in s.jobs && Over(s.jobs[id]) && !MayEnd(a, id) && GatewayOp(s, a).Some?
    ensures CauseOf(s.gw, GatewayOp(s, a).value, id).None?
  {
    match a
    case GwDeliver(to, msg, db, _) => CauseOfEvent(s.gw, to, s.jobs[to].log[msg].event, db, id);
    case Exhausted(to, msg, consumer, db) => CauseOfEvent(s.gw, to, s.jobs[to].log[msg].event, db, id);
    case _ =>
  }

  /** Once a job is over, nothing but a sweep or an advisory of its own touches its row. */
  lemma OverRowWaits(delays: seq<nat>, s: System, a: Action, id: string, row: Row)
    requires Sound(s.jobs) && Rests(s, id, row) && !MayEnd(a, id)
    ensures Rests(Advance(delays, s, a), id, row)
  {
    OverStays(delays, s, a, id);
    if GatewayOp(s, a).Some? {
      OverIsLeftAlone(s, a, id);
      OpOnRow(s.gw, GatewayOp(s, a).value, id);
    }
  }

  lemma RestsOn(delays: seq<nat>, actions: seq<Action>, id: string, row: Row)
    requires actions != [] && !MayEnd(actions[|actions| - 1], id)
    requires Rests(Run(delays, actions[..|actions| - 1]), id, row)
    ensures Rests(Run(delays, actions), id, row)
  {
    var n := |actions| - 1;
    RunIsSound(delays, actions[..n]);
    OverRowWaits(delays, Run(delays, actions[..n]), actions[n], id, row);
  }

  /** Over any further run, the row of a job that is over changes only if a sweep
      comes by or an advisory on one of its messages. */
  lemma {:induction false} OnlySweepOrAdvisoryEndsIt(delays: seq<nat>, actions: seq<Action>, k: nat,
                                                     id: string, row: Row)
    requires k <= |actions| && forall i :: k <= i < |actions| ==> !MayEnd(actions[i], id)
    requires Rests(Run(delays, actions[..k]), id, row)
    ensures Rests(Run(delays, actions), id, row)
  {
    if k == |actions| {
      assert actions[..k] == actions;
    } else {
      var n := |actions| - 1;
      assert actions[..n][..k] == actions[..k];
      OnlySweepOrAdvisoryEndsIt(delays, actions[..n], k, id, row);
      RestsOn(delays, actions, id, row);
    }
  }

  /** An advisory can be raised on a job that is over only while it waits for one;
      if its statement takes effect, it ends a live row. */
  lemma AdvisoryEndsIt(delays: seq<nat>, s: System, a: Action, id: string)
    requires Sound(s.jobs) && id in s.jobs && Over(s.jobs[id]) && id in s.gw.rows && a.Exhausted? && a.id == id
    ensures GatewayOp(s, a).Some? ==> Waits(s.jobs[id])
    ensures var after := Advance(delays, s, a).gw;
            && id in after.rows
            && (GatewayOp(s, a).Some? && !a.db.Aborts? && !Terminal(s.gw.rows[id].status) ==>
                  after.rows[id].status.Failed? && after.rows[id].error == Some(MAX_DELIVERIES_ERROR))
            && (GatewayOp(s, a).None? || a.db.Aborts? || Terminal(s.gw.rows[id].status) ==>
                  after.rows[id] == s.gw.rows[id])
  {
    if GatewayOp(s, a).Some? {
      CauseOfEvent(s.gw, id, s.jobs[id].log[a.msg].event, a.db, id);
      OpOnRow(s.gw, GatewayOp(s, a).value, id);
      assert Starved(SubOf(s.jobs[id].log[a.msg], a.consumer));
    }
  }

  // ---- a quiet job has only the sweeper left ----

  /** Once every message of a job is settled, nothing but the sweeper touches its row. */
  lemma QuietRowWaits(delays: seq<nat>, s: System, a: Action, id: string, row: Row)
    requires Sound(s.jobs) && Rests(s, id, row) && Quiet(s.jobs[id]) && !a.SweepTick?
    ensures Rests(Advance(delays, s, a), id, row) && Quiet(Advance(delays, s, a).jobs[id])
  {
    QuietIsOver(s.jobs[id]);
    OverStays(delays, s, a, id);
    if MayEnd(a, id) {
      AdvisoryEndsIt(delays, s, a, id);
    } else {
      OverRowWaits(delays, s, a, id, row);
    }
  }

  lemma QuietRestsOn(delays: seq<nat>, actions: seq<Action>, id: string, row: Row)
    requires actions != [] && !actions[|actions| - 1].SweepTick?
    requires Rests(Run(delays, actions[..|actions| - 1]), id, row)
    requires Quiet(Run(delays, actions[..|actions| - 1]).jobs[id])
    ensures Rests(Run(delays, actions), id, row) && Quiet(Run(delays, actions).jobs[id])
  {
    var n := |actions| - 1;
    RunIsSound(delays, actions[..n]);
    QuietRowWaits(delays, Run(delays, actions[..n]), actions[n], id, row);
  }

  /** Over any further run, a quiet job's row changes only if a sweep comes by. */
  lemma {:induction false} OnlyTheSweeperEndsIt(delays: seq<nat>, actions: seq<Action>, k: nat, id: string, row: Row)
    requires k <= |actions| && forall i :: k <= i < |actions| ==> !actions[i].SweepTick?
    requires Rests(Run(delays, actions[..k]), id, row) && Quiet(Run(delays, actions[..k]).jobs[id])
    ensures Rests(Run(delays, actions), id, row) && Quiet(Run(delays, actions).jobs[id])
  {
    if k == |actions| {
      assert actions[..k] == actions;
    } else {
      var n := |actions| - 1;
      assert actions[..n][..k] == actions[..k];
      OnlyTheSweeperEndsIt(delays, actions[..n], k, id, row);
      QuietRestsOn(delays, actions, id, row);
    }
  }
}
