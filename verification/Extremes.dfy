/** Runs at the edges: a job that only an advisory can save from waiting, a
    completion that nothing counts, and as many deliveries as there can be. */
module Extremes {
  import opened Wrappers
  import opened Subjects
  import opened Events
  import opened Stream
  import opened JobStore
  import opened Projection
  import opened DeliveryLaws
  import opened Pipeline
  import opened WorkerLaws
  import opened JobLaws
  import opened PipelineLaws
  import opened JobFates
  import opened QuietLaws
  import opened Scenarios
  import Ai = AiProcessor
  import Cv = CvGenerator

  // ---- over, and waiting for an advisory ----

  const BROKEN_BUCKET := Ai.Input(None, Ai.LookupBreaks, Ai.Replied, false, Ai.Cv(""), true, SENT)

  /** A delivery whose run cannot look the model up and is left to redelivery. */
  lemma AiGivesUp(delays: seq<nat>, id: string, row: Row, metrics: Metrics, j: Job) returns (j': Job)
    requires Reachable(delays, Sole(id, row, metrics, j)) && j.log != [] && Deliverable(j.log[0].ai)
    ensures Reachable(delays, Sole(id, row, metrics, j'))
    ensures j'.log == j.log[0 := j.log[0].(ai := Delivered(j.log[0].ai))]
    ensures |j'.ai| == |j.ai| + 1 && j'.ai[..|j.ai|] == j.ai && j'.ai[|j.ai|].run.phase == Ai.Done(Nak)
    ensures j'.cv == j.cv && j'.submission == j.submission
  {
    var k := |j.ai|;
    var j1 := AiDelivers(delays, id, row, metrics, j);
    var j2 := AiActs(delays, id, row, metrics, j1, k, BROKEN_BUCKET);
    assert j2.ai[k].run.phase == Ai.LookingUp;
    j' := AiActs(delays, id, row, metrics, j2, k, BROKEN_BUCKET);
  }

  lemma ThreeGiveUp(delays: seq<nat>, id: string, spec: JobSpec, apiKey: string) returns (j: Job)
    requires '.' !in id && apiKey != ""
    ensures Reachable(delays, Sole(id, NewRow(spec, 0), EMPTY.metrics, j))
    ensures j.log == [Requested(0)] && j.cv == [] && j.submission.Finished?
    ensures forall k :: 0 <= k < |j.ai| ==> j.ai[k].run.phase.Done?
  {
    var row, m := NewRow(spec, 0), EMPTY.metrics;
    Submits(delays, id, spec, apiKey);
    var a := AiGivesUp(delays, id, row, m, Queued(apiKey));
    var b := AiGivesUp(delays, id, row, m, a);
    j := AiGivesUp(delays, id, row, m, b);
    assert j.ai[0] == b.ai[0] == a.ai[0] && j.ai[1] == b.ai[1];
  }

  /** Three deliveries end in a nak and `requested` is acknowledged at the gateway:
      nothing can be delivered any more and nothing runs, yet the row is pending. */
  lemma DeliveriesCanRunOut(delays: seq<nat>, id: string, spec: JobSpec, apiKey: string) returns (s: System)
    requires '.' !in id && apiKey != ""
    ensures Reachable(delays, s) && id in s.jobs && id in s.gw.rows
    ensures Over(s.jobs[id]) && Waits(s.jobs[id]) && s.gw.rows[id] == NewRow(spec, 0)
    ensures GatewayOp(s, Exhausted(id, 0, AiConsumer, Aborts)).Some?
    ensures GatewayOp(s, Exhausted(id, 0, AiConsumer, Commits)).Some?
    ensures s.jobs.Keys == {id}
  {
    var row, m := NewRow(spec, 0), EMPTY.metrics;
    var j := ThreeGiveUp(delays, id, spec, apiKey);
    m, j := GwDelivers(delays, id, row, m, j, 0);
    s := Sole(id, row, m, j);
    assert Starved(j.log[0].ai);
  }

  /** An advisory whose statement fails is dropped, and the job goes on waiting; one
      that takes effect fails the row. */
  lemma AdvisoryDecides(delays: seq<nat>, id: string, spec: JobSpec, apiKey: string) returns (s: System)
    requires '.' !in id && apiKey != ""
    ensures Reachable(delays, s) && id in s.jobs && Over(s.jobs[id])
    ensures var dropped := Advance(delays, s, Exhausted(id, 0, AiConsumer, Aborts)).gw;
            id in dropped.rows && dropped.rows[id] == NewRow(spec, 0)
    ensures var heard := Advance(delays, s, Exhausted(id, 0, AiConsumer, Commits)).gw;
            id in heard.rows && heard.rows[id].status.Failed? && heard.rows[id].error == Some(MAX_DELIVERIES_ERROR)
  {
    s := DeliveriesCanRunOut(delays, id, spec, apiKey);
    var actions :| Run(delays, actions) == s;
    RunIsSound(delays, actions);
    AdvisoryEndsIt(delays, s, Exhausted(id, 0, AiConsumer, Aborts), id);
    AdvisoryEndsIt(delays, s, Exhausted(id, 0, AiConsumer, Commits), id);
  }

  // ---- a completion that nothing counts ----

  /** A rendered job whose `rendered` the gateway has yet to see. */
  lemma AwaitsCompletion(delays: seq<nat>, id: string, spec: JobSpec, apiKey: string, cv: string) returns (j: Job)
    requires '.' !in id && apiKey != ""
    ensures Reachable(delays, Sole(id, NewRow(spec, 0).(status := Rendering, cv := Some(cv)), EMPTY.metrics, j))
    ensures |j.log| == 3 && j.log[2] == Fresh(JobRendered(Some(Cv.ObjectKey(id))))
  {
    var row, m := NewRow(spec, 0), EMPTY.metrics;
    j := FirstRunClaims(delays, id, spec, apiKey);
    j := AiStructures(delays, id, row, m, j, 0, cv);
    j := RendersStored(delays, id, row, m, j, 1, Cv.Pdf(1), SENT);
    m, j := GwDelivers(delays, id, row, m, j, 1);
  }

  /** The row as the completion leaves it, and the gateway once its reply is lost. */
  function Uncounted(id: string, spec: JobSpec, cv: string): Gateway {
    EMPTY.(rows := map[id := Row(spec, Completed, None, Some(Cv.ObjectKey(id)), Some(cv), 0, 0)], lostCompleted := 1)
  }

  lemma CompletesUncounted(id: string, spec: JobSpec, cv: string)
    requires '.' !in id
    ensures var e := JobRendered(Some(Cv.ObjectKey(id)));
            var g := EMPTY.(rows := map[id := NewRow(spec, 0).(status := Rendering, cv := Some(cv))]);
            && OnMessage(g, Subject(id, Suffix(e)), Encode(e), LosesReply) == (Uncounted(id, spec, cv), Nak)
            && OnMessage(Uncounted(id, spec, cv), Subject(id, Suffix(e)), Encode(e), Commits)
               == (Uncounted(id, spec, cv), Ack)
  {
    var e := JobRendered(Some(Cv.ObjectKey(id)));
    WriteOfKnown(id, e);
    var row := NewRow(spec, 0).(status := Rendering, cv := Some(cv));
    var after := row.(status := Completed, pdfObjectKey := Some(Cv.ObjectKey(id)));
    assert map[id := row][id := after] == map[id := after] == map[id := after][id := after];
  }

  /** The statement takes effect, its reply is lost, and the redelivery finds the row
      completed: it is acknowledged, and `cvgen.jobs.total` never hears of it. */
  lemma CompletionCanGoUncounted(delays: seq<nat>, id: string, spec: JobSpec, apiKey: string, cv: string)
    returns (s: System)
    requires '.' !in id && apiKey != ""
    ensures Reachable(delays, s) && id in s.jobs && id in s.gw.rows
    ensures s.gw.rows[id].status.Completed? && s.gw.metrics.completed == 0 && s.gw.lostCompleted == 1
    ensures |s.jobs[id].log| == 3 && s.jobs[id].log[2].event.JobRendered?
    ensures s.jobs[id].log[2].gw.Sub? && s.jobs[id].log[2].gw.settled.Acked?
  {
    var j := AwaitsCompletion(delays, id, spec, apiKey, cv);
    var s0 := Sole(id, NewRow(spec, 0).(status := Rendering, cv := Some(cv)), EMPTY.metrics, j);
    CompletesUncounted(id, spec, cv);
    AdvanceDelivers(delays, s0, id, 2, LosesReply, false);
    Goes(delays, s0, GwDeliver(id, 2, LosesReply, false));
    s := Redelivered(delays, id, spec, cv, s0.jobs[id := GwDelivered(j, 2, Nak, false)]);
  }

  lemma Redelivered(delays: seq<nat>, id: string, spec: JobSpec, cv: string, jobs: map<string, Job>) returns (s: System)
    requires '.' !in id && id in jobs && Reachable(delays, System(Uncounted(id, spec, cv), jobs))
    requires |jobs[id].log| == 3 && jobs[id].log[2].event == JobRendered(Some(Cv.ObjectKey(id)))
    requires Deliverable(jobs[id].log[2].gw)
    ensures Reachable(delays, s) && s.gw == Uncounted(id, spec, cv) && id in s.jobs && |s.jobs[id].log| == 3
    ensures s.jobs[id].log[2] == jobs[id].log[2].(gw := Sub(jobs[id].log[2].gw.left - 1, Acked))
  {
    var before := System(Uncounted(id, spec, cv), jobs);
    CompletesUncounted(id, spec, cv);
    AdvanceDelivers(delays, before, id, 2, Commits, false);
    Goes(delays, before, GwDeliver(id, 2, Commits, false));
    s := Advance(delays, before, GwDeliver(id, 2, Commits, false));
  }

  // ---- as many deliveries as there can be ----

  /** Every publish comes after the window of the one before. */
  const AGAIN := Outcome(Accepted, true, true)

  const FREE := Ai.Input(None, Ai.Found(Ai.Fake), Ai.Replied, false, Ai.Cv(""), true, AGAIN)

  const STRUCTURED := JobStructured(Some(""))

  /** A delivery to the ai-processor that stores another `structured`. */
  lemma StructuresAgain(delays: seq<nat>, id: string, row: Row, metrics: Metrics, j: Job) returns (j': Job)
    requires Reachable(delays, Sole(id, row, metrics, j)) && j.log != [] && Deliverable(j.log[0].ai)
    ensures Reachable(delays, Sole(id, row, metrics, j'))
    ensures j'.log == j.log[0 := j.log[0].(ai := Delivered(j.log[0].ai))] + [Fresh(STRUCTURED)]
    ensures j'.deliveries == j.deliveries + 1
  {
    var k := |j.ai|;
    var j1 := AiDelivers(delays, id, row, metrics, j);
    j1 := AiActs(delays, id, row, metrics, j1, k, FREE);
    assert j1.ai[k].run == Ai.START.(phase := Ai.LookingUp);
    j1 := AiActs(delays, id, row, metrics, j1, k, FREE);
    assert j1.ai[k].run == Ai.START.(phase := Ai.Building(Ai.Fake));
    j1 := AiActs(delays, id, row, metrics, j1, k, FREE);
    assert j1.ai[k].run == Ai.START.(phase := Ai.Calling(0));
    j' := AnnouncesAgain(delays, id, row, metrics, j1, k);
  }

  lemma AnnouncesAgain(delays: seq<nat>, id: string, row: Row, metrics: Metrics, j: Job, k: nat) returns (j': Job)
    requires Reachable(delays, Sole(id, row, metrics, j)) && k < |j.ai| && j.ai[k].live
    requires j.ai[k].run == Ai.START.(phase := Ai.Calling(0))
    ensures Reachable(delays, Sole(id, row, metrics, j'))
    ensures j'.log == j.log + [Fresh(STRUCTURED)] && j'.deliveries == j.deliveries
  {
    var j1 := AiActs(delays, id, row, metrics, j, k, FREE);
    assert j1.ai[k].run.phase == Ai.Converting("") && j1.ai[k].run.courier == NEW_COURIER;
    j1 := AiActs(delays, id, row, metrics, j1, k, FREE);
    assert j1.ai[k].run.phase == Ai.Announcing("", 0) && j1.ai[k].run.courier == NEW_COURIER;
    j' := AiActs(delays, id, row, metrics, j1, k, FREE);
  }

  /** All of the gateway's deliveries of these messages are still to come. */
  predicate Unheard(log: Log, from: nat) {
    forall i :: from <= i < |log| ==> log[i].gw == Sub(GW_DELIVERIES, Open)
  }

  /** One delivery to the ai-processor and all that it can bring. */
  lemma Round(delays: seq<nat>, id: string, row: Row, metrics: Metrics, j: Job) returns (j': Job)
    requires Reachable(delays, Sole(id, row, metrics, j)) && j.log != [] && Deliverable(j.log[0].ai)
    requires Unheard(j.log, 0)
    ensures Reachable(delays, Sole(id, row, metrics, j')) && Unheard(j'.log, 0)
    ensures |j'.log| == |j.log| + 4 && j'.deliveries == j.deliveries + 4
    ensures j'.log[0].ai == Delivered(j.log[0].ai)
  {
    var msg := |j.log|;
    var a := StructuresAgain(delays, id, row, metrics, j);
    assert a.log[msg] == Fresh(STRUCTURED);
    var b := RendersStored(delays, id, row, metrics, a, msg, Cv.Pdf(1), AGAIN);
    var c := RendersStored(delays, id, row, metrics, b, msg, Cv.Pdf(1), AGAIN);
    j' := RendersStored(delays, id, row, metrics, c, msg, Cv.Pdf(1), AGAIN);
  }

  /** A delivery to the gateway that changes nothing and whose settlement is lost. */
  lemma GwDeliversInVain(delays: seq<nat>, id: string, row: Row, metrics: Metrics, j: Job, msg: nat) returns (j': Job)
    requires Reachable(delays, Sole(id, row, metrics, j)) && msg < |j.log| && Deliverable(j.log[msg].gw)
    ensures Reachable(delays, Sole(id, row, metrics, j'))
    ensures j'.log == j.log[msg := j.log[msg].(gw := Delivered(j.log[msg].gw))] && j'.deliveries == j.deliveries + 1
  {
    var s := Sole(id, row, metrics, j);
    AdvanceDelivers(delays, s, id, msg, Aborts, true);
    Goes(delays, s, GwDeliver(id, msg, Aborts, true));
    var e := j.log[msg].event;
    var (gw, d) := OnMessage(s.gw, Subject(id, Suffix(e)), Encode(e), Aborts);
    assert gw == s.gw;
    j' := GwDelivered(j, msg, d, true);
    assert map[id := j][id := j'] == map[id := j'];
  }

  /** All the deliveries of one message. */
  lemma {:induction false} WearsOut(delays: seq<nat>, id: string, row: Row, metrics: Metrics, j: Job, msg: nat)
    returns (j': Job)
    requires Reachable(delays, Sole(id, row, metrics, j)) && msg < |j.log|
    requires j.log[msg].gw.Sub? && j.log[msg].gw.settled.Open?
    ensures Reachable(delays, Sole(id, row, metrics, j'))
    ensures |j'.log| == |j.log| && forall i :: 0 <= i < |j.log| && i != msg ==> j'.log[i] == j.log[i]
    ensures j'.deliveries == j.deliveries + j.log[msg].gw.left
    decreases j.log[msg].gw.left
  {
    if j.log[msg].gw.left == 0 {
      j' := j;
    } else {
      var next := GwDeliversInVain(delays, id, row, metrics, j, msg);
      j' := WearsOut(delays, id, row, metrics, next, msg);
    }
  }

  lemma {:induction false} AllWearOut(delays: seq<nat>, id: string, row: Row, metrics: Metrics, j: Job, from: nat)
    returns (j': Job)
    requires Reachable(delays, Sole(id, row, metrics, j)) && from <= |j.log| && Unheard(j.log, from)
    ensures Reachable(delays, Sole(id, row, metrics, j'))
    ensures j'.deliveries == j.deliveries + GW_DELIVERIES * (|j.log| - from)
    decreases |j.log| - from
  {
    if from == |j.log| {
      j' := j;
    } else {
      var next := WearsOut(delays, id, row, metrics, j, from);
      j' := AllWearOut(delays, id, row, metrics, next, from + 1);
    }
  }

  /** Three `structured`, nine `rendered` and every delivery of them: the bound is reached. */
  lemma DeliveryBoundIsReached(delays: seq<nat>, id: string, spec: JobSpec, apiKey: string) returns (s: System)
    requires '.' !in id && apiKey != ""
    ensures Reachable(delays, s) && id in s.jobs && s.jobs[id].deliveries == 77
  {
    var row, m := NewRow(spec, 0), EMPTY.metrics;
    Submits(delays, id, spec, apiKey);
    var j := Queued(apiKey);
    j := Round(delays, id, row, m, j);
    j := Round(delays, id, row, m, j);
    j := Round(delays, id, row, m, j);
    assert |j.log| == 13 && j.deliveries == 12;
    j := AllWearOut(delays, id, row, m, j, 0);
    s := Sole(id, row, m, j);
  }
}
