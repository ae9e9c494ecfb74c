/** Runs that show the results of PipelineLaws are about something, and where
    they stop: a job that completes, a job that fails although its PDF is
    delivered, and a rendering failure that nobody is told of. */
module Scenarios {
  import opened Wrappers
  import opened Subjects
  import opened Events
  import opened Stream
  import opened JobStore
  import opened Projection
  import opened DeliveryLaws
  import opened Pipeline
  import opened WorkerLaws
  import opened JobLaws
  import opened PipelineLaws
  import opened QuietLaws
  import Submission
  import Ai = AiProcessor
  import Cv = CvGenerator

  ghost predicate Reachable(delays: seq<nat>, s: System) {
    exists actions :: Run(delays, actions) == s
  }

  lemma Goes(delays: seq<nat>, s: System, a: Action)
    requires Reachable(delays, s)
    ensures Reachable(delays, Advance(delays, s, a))
  {
    var actions :| Run(delays, actions) == s;
    assert (actions + [a])[..|actions|] == actions;
    assert Run(delays, actions + [a]) == Advance(delays, s, a);
  }

  /** The only job of a system, with its row. */
  function Sole(id: string, row: Row, metrics: Metrics, j: Job): System {
    System(EMPTY.(rows := map[id := row], metrics := metrics), map[id := j])
  }

  lemma Acts(delays: seq<nat>, id: string, row: Row, metrics: Metrics, j: Job, a: JobAction)
    requires Reachable(delays, Sole(id, row, metrics, j))
    ensures Reachable(delays, Sole(id, row, metrics, JobNext(delays, id, j, a, 0)))
  {
    var s := Sole(id, row, metrics, j);
    Goes(delays, s, Act(id, a));
    assert s.jobs[id := JobNext(delays, id, j, a, 0)] == map[id := JobNext(delays, id, j, a, 0)];
  }

  const SENT := Outcome(Accepted, true, false)

  /** A job whose key is handed off and whose `requested` is in the stream. */
  function Queued(apiKey: string): Job {
    Submitted(apiKey, 0).(submission := Submission.Finished,
                          key := Some(Ai.ApiKey(true, Submission.KEY_TTL)),
                          log := [Fresh(JobRequested)])
  }

  lemma Submits(delays: seq<nat>, id: string, spec: JobSpec, apiKey: string)
    requires '.' !in id && apiKey != ""
    ensures Reachable(delays, Sole(id, NewRow(spec, 0), EMPTY.metrics, Queued(apiKey)))
  {
    assert Run(delays, []) == INIT;
    Goes(delays, INIT, Submit(id, spec, apiKey, Commits));
    var row := NewRow(spec, 0);
    assert map[][id := row] == map[id := row];
    assert Reachable(delays, Sole(id, row, EMPTY.metrics, Submitted(apiKey, 0)));
    Acts(delays, id, row, EMPTY.metrics, Submitted(apiKey, 0), PutKey(true, Submission.KeyStored));
    var keyed := DoPutKey(Submitted(apiKey, 0), true, Submission.KeyStored, 0);
    Acts(delays, id, row, EMPTY.metrics, keyed, PublishRequested(SENT));
    assert DoPublish(keyed, SENT) == Queued(apiKey);
  }

  // ---- workers, one effect at a time ----

  lemma AiActs(delays: seq<nat>, id: string, row: Row, metrics: Metrics, j: Job, k: nat, input: Ai.Input)
    returns (j': Job)
    requires Reachable(delays, Sole(id, row, metrics, j)) && k < |j.ai| && j.ai[k].live
    ensures Reachable(delays, Sole(id, row, metrics, j'))
    ensures var (r, w) := Ai.Step(delays, j.ai[k].run, Ai.World(j.key, j.log), input);
            && j'.ai == j.ai[k := j.ai[k].(run := r)] && j'.key == w.key && j'.log == w.log
            && j'.shelf == j.shelf && j'.cv == j.cv && j'.submission == j.submission
            && j'.deliveries == j.deliveries
  {
    Acts(delays, id, row, metrics, j, AiAct(k, input));
    j' := DoAiAct(delays, j, k, input);
  }

  lemma CvActs(delays: seq<nat>, id: string, row: Row, metrics: Metrics, j: Job, k: nat, input: Cv.Input)
    returns (j': Job)
    requires Reachable(delays, Sole(id, row, metrics, j)) && k < |j.cv| && j.cv[k].live
    ensures Reachable(delays, Sole(id, row, metrics, j'))
    ensures var (r, w) := Cv.Step(id, j.cv[k].run, Cv.World(j.shelf, j.log), input);
            && j'.cv == j.cv[k := j.cv[k].(run := r)] && j'.shelf == w.shelf && j'.log == w.log
            && j'.ai == j.ai && j'.key == j.key && j'.submission == j.submission
            && j'.deliveries == j.deliveries
  {
    Acts(delays, id, row, metrics, j, CvAct(k, input));
    j' := DoCvAct(id, j, k, input);
  }

  /** An ai-processor run of a billed model, up to the point where it holds the key or misses it. */
  lemma AiClaims(delays: seq<nat>, id: string, row: Row, metrics: Metrics, j: Job, k: nat, input: Ai.Input)
    returns (j': Job)
    requires Reachable(delays, Sole(id, row, metrics, j)) && k < |j.ai| && j.ai[k].live && j.ai[k].run == Ai.START
    requires input.invalid.None? && input.lookup == Ai.Found(Ai.Supported) && input.getDel.Replied?
    requires j.key.Some? ==> j.key.value.utf8
    ensures Reachable(delays, Sole(id, row, metrics, j'))
    ensures var r := if j.key.Some? then Ai.START.(phase := Ai.Building(Ai.Supported), holdsKey := true)
                     else Ai.Report(Ai.START, Ai.API_KEY_MISSING_ERROR, Ai.ApiKeyMissing, true);
            j'.ai == j.ai[k := j.ai[k].(run := r)]
    ensures j'.key == None && j'.log == j.log && j'.shelf == j.shelf && j'.cv == j.cv && j'.submission == j.submission
  {
    var j1 := AiActs(delays, id, row, metrics, j, k, input);
    assert j1.ai[k].run == Ai.START.(phase := Ai.LookingUp);
    var j2 := AiActs(delays, id, row, metrics, j1, k, input);
    assert j2.ai[k].run == Ai.START.(phase := Ai.Claiming(Ai.Supported));
    j' := AiActs(delays, id, row, metrics, j2, k, input);
  }

  function Good(cv: string): Ai.Input {
    Ai.Input(None, Ai.Found(Ai.Supported), Ai.Replied, false, Ai.Cv(cv), true, SENT)
  }

  /** The rest of a run that holds the key. */
  lemma AiStructures(delays: seq<nat>, id: string, row: Row, metrics: Metrics, j: Job, k: nat, cv: string)
    returns (j': Job)
    requires Reachable(delays, Sole(id, row, metrics, j)) && k < |j.ai| && j.ai[k].live
    requires j.ai[k].run == Ai.START.(phase := Ai.Building(Ai.Supported), holdsKey := true)
    requires !HasLike(j.log, JobStructured(Some(cv)))
    ensures Reachable(delays, Sole(id, row, metrics, j'))
    ensures j'.log == j.log + [Fresh(JobStructured(Some(cv)))]
    ensures |j'.ai| == |j.ai| && j'.ai[k].run.phase == Ai.Done(Ack) && j'.ai[k].live && j'.ai[k].msg == j.ai[k].msg
    ensures forall v :: 0 <= v < |j.ai| && v != k ==> j'.ai[v] == j.ai[v]
    ensures j'.key == j.key && j'.shelf == j.shelf && j'.cv == j.cv && j'.submission == j.submission
  {
    var j1 := AiActs(delays, id, row, metrics, j, k, Good(cv));
    assert j1.ai[k].run.phase == Ai.Calling(0);
    var j2 := AiActs(delays, id, row, metrics, j1, k, Good(cv));
    assert j2.ai[k].run.phase == Ai.Converting(cv) && j2.ai[k].run.courier == NEW_COURIER;
    var j3 := AiActs(delays, id, row, metrics, j2, k, Good(cv));
    assert j3.ai[k].run.phase == Ai.Announcing(cv, 0) && j3.ai[k].run.courier == NEW_COURIER;
    j' := AiActs(delays, id, row, metrics, j3, k, Good(cv));
  }

  function Fine(pdf: Cv.Pdf, o: Outcome): Cv.Input {
    Cv.Input(None, Cv.Compiled(pdf), true, Cv.Stored, o)
  }

  // ---- deliveries ----

  lemma AiDelivers(delays: seq<nat>, id: string, row: Row, metrics: Metrics, j: Job) returns (j': Job)
    requires Reachable(delays, Sole(id, row, metrics, j)) && j.log != [] && Deliverable(j.log[0].ai)
    ensures Reachable(delays, Sole(id, row, metrics, j'))
    ensures j'.log == j.log[0 := j.log[0].(ai := Delivered(j.log[0].ai))]
    ensures j'.ai == j.ai + [AiWork(Ai.START, 0, true)] && j'.deliveries == j.deliveries + 1
    ensures j'.key == j.key && j'.shelf == j.shelf && j'.cv == j.cv && j'.submission == j.submission
  {
    Acts(delays, id, row, metrics, j, AiDeliver(0));
    j' := DoAiDeliver(j, 0);
  }

  lemma CvDelivers(delays: seq<nat>, id: string, row: Row, metrics: Metrics, j: Job, msg: nat) returns (j': Job)
    requires Reachable(delays, Sole(id, row, metrics, j)) && msg < |j.log| && Deliverable(j.log[msg].cv)
    ensures Reachable(delays, Sole(id, row, metrics, j'))
    ensures j'.log == j.log[msg := j.log[msg].(cv := Delivered(j.log[msg].cv))]
    ensures j'.cv == j.cv + [CvWork(Cv.START, msg, true)] && j'.deliveries == j.deliveries + 1
    ensures j'.key == j.key && j'.shelf == j.shelf && j'.ai == j.ai && j'.submission == j.submission
  {
    Acts(delays, id, row, metrics, j, CvDeliver(msg));
    j' := DoCvDeliver(j, msg);
  }

  /** An event that commits on the only row. */
  lemma SoleRowTakes(id: string, row: Row, metrics: Metrics, j: Job, e: Event) returns (metrics': Metrics)
    requires '.' !in id && KnownEvent(id, e)
    ensures var g := EMPTY.(metrics := metrics);
            OnMessage(g.(rows := map[id := row]), Subject(id, Suffix(e)), Encode(e), Commits)
            == (g.(rows := map[id := ApplyEvent(row, e, 0)], metrics := metrics'), Ack)
    ensures e.JobStructured? ==> metrics' == metrics
  {
    WriteOfKnown(id, e);
    var g := EMPTY.(rows := map[id := row], metrics := metrics);
    var (gw, d) := OnMessage(g, Subject(id, Suffix(e)), Encode(e), Commits);
    metrics' := gw.metrics;
    assert gw.rows == map[id := ApplyEvent(row, e, 0)];
  }

  /** One event that commits at the gateway and is settled there. */
  lemma GwDelivers(delays: seq<nat>, id: string, row: Row, metrics: Metrics, j: Job, msg: nat)
    returns (metrics': Metrics, j': Job)
    requires Reachable(delays, Sole(id, row, metrics, j)) && '.' !in id
    requires msg < |j.log| && Deliverable(j.log[msg].gw) && KnownEvent(id, j.log[msg].event)
    ensures Reachable(delays, Sole(id, ApplyEvent(row, j.log[msg].event, 0), metrics', j'))
    ensures j.log[msg].event.JobStructured? ==> metrics' == metrics
    ensures j'.log == j.log[msg := j.log[msg].(gw := Sub(j.log[msg].gw.left - 1, Acked))]
    ensures j'.key == j.key && j'.shelf == j.shelf && j'.ai == j.ai && j'.cv == j.cv && j'.submission == j.submission
  {
    var s := Sole(id, row, metrics, j);
    var e := j.log[msg].event;
    AdvanceDelivers(delays, s, id, msg, Commits, false);
    Goes(delays, s, GwDeliver(id, msg, Commits, false));
    metrics' := SoleRowTakes(id, row, metrics, j, e);
    j' := GwDelivered(j, msg, Ack, false);
    assert map[id := j][id := j'] == map[id := j'];
  }

  // ---- stages ----

  /** `requested` as the stream holds it after some deliveries to the ai-processor. */
  function Requested(left: nat): Stored {
    Fresh(JobRequested).(ai := Sub(left, Open))
  }

  const HOLDER := Ai.START.(phase := Ai.Building(Ai.Supported), holdsKey := true)

  /** A first run takes the key. */
  lemma FirstRunClaims(delays: seq<nat>, id: string, spec: JobSpec, apiKey: string) returns (j: Job)
    requires '.' !in id && apiKey != ""
    ensures Reachable(delays, Sole(id, NewRow(spec, 0), EMPTY.metrics, j))
    ensures j.log == [Requested(2)] && j.ai == [AiWork(HOLDER, 0, true)]
    ensures j.key == None && j.shelf == None && j.cv == [] && j.submission == Submission.Finished
  {
    var row, m := NewRow(spec, 0), EMPTY.metrics;
    Submits(delays, id, spec, apiKey);
    j := AiDelivers(delays, id, row, m, Queued(apiKey));
    j := AiClaims(delays, id, row, m, j, 0, Good(""));
  }

  /** A redelivery overlaps it, misses the key and reports so. */
  lemma SecondRunBlames(delays: seq<nat>, id: string, row: Row, metrics: Metrics, j: Job) returns (j': Job)
    requires Reachable(delays, Sole(id, row, metrics, j))
    requires j.log != [] && j.log[0] == Requested(2) && |j.ai| == 1 && j.key == None
    requires !HasLike(j.log, JobFailed(None))
    ensures Reachable(delays, Sole(id, row, metrics, j'))
    ensures j'.log == j.log[0 := Requested(1)] + [Fresh(Ai.ProcessingFailure(Ai.API_KEY_MISSING_ERROR))]
    ensures |j'.ai| == 2 && j'.ai[0] == j.ai[0] && j'.ai[1].run.phase == Ai.Done(Term)
    ensures j'.key == None && j'.shelf == j.shelf && j'.cv == j.cv && j'.submission == j.submission
  {
    j' := AiDelivers(delays, id, row, metrics, j);
    assert !HasLike(j'.log, JobFailed(None)) by {
      assert forall i :: 0 <= i < |j.log| ==> j'.log[i].event == j.log[i].event;
    }
    j' := AiClaims(delays, id, row, metrics, j', 1, Good(""));
    j' := AiActs(delays, id, row, metrics, j', 1, Good(""));
  }

  /** A `structured` is delivered and rendered, and `rendered` is stored. */
  lemma RendersStored(delays: seq<nat>, id: string, row: Row, metrics: Metrics, j: Job, msg: nat, pdf: Cv.Pdf,
                      o: Outcome)
    returns (j': Job)
    requires Reachable(delays, Sole(id, row, metrics, j)) && msg < |j.log| && Deliverable(j.log[msg].cv)
    requires pdf.pages <= 2 && o.reply.Accepted? && (o.windowPassed || !HasLike(j.log, JobRendered(None)))
    ensures Reachable(delays, Sole(id, row, metrics, j'))
    ensures j'.log == j.log[msg := j.log[msg].(cv := Delivered(j.log[msg].cv))]
                      + [Fresh(JobRendered(Some(Cv.ObjectKey(id))))]
    ensures j'.shelf == Some(pdf) && j'.deliveries == j.deliveries + 1
  {
    var j1 := CvDelivers(delays, id, row, metrics, j, msg);
    assert forall i :: 0 <= i < |j.log| ==> j1.log[i].event == j.log[i].event;
    j' := CvRenders(delays, id, row, metrics, j1, |j.cv|, pdf, o);
  }

  /** A whole rendering run that succeeds. */
  lemma CvRenders(delays: seq<nat>, id: string, row: Row, metrics: Metrics, j: Job, k: nat, pdf: Cv.Pdf, o: Outcome)
    returns (j': Job)
    requires Reachable(delays, Sole(id, row, metrics, j)) && k < |j.cv| && j.cv[k].live && j.cv[k].run == Cv.START
    requires pdf.pages <= 2 && o.reply.Accepted? && (o.windowPassed || !HasLike(j.log, JobRendered(None)))
    ensures Reachable(delays, Sole(id, row, metrics, j'))
    ensures j'.log == j.log + [Fresh(JobRendered(Some(Cv.ObjectKey(id))))]
    ensures j'.shelf == Some(pdf) && j'.deliveries == j.deliveries
  {
    var input := Fine(pdf, o);
    var j2 := CvActs(delays, id, row, metrics, j, k, input);
    assert j2.cv[k].run.phase == Cv.Compiling;
    var j3 := CvActs(delays, id, row, metrics, j2, k, input);
    assert j3.cv[k].run.phase == Cv.Counting(pdf);
    var j4 := CvActs(delays, id, row, metrics, j3, k, input);
    assert j4.cv[k].run.phase == Cv.Putting(pdf) && j4.log == j.log;
    var j5 := CvActs(delays, id, row, metrics, j4, k, input);
    assert j5.cv[k].run.phase == Cv.Announcing(0) && j5.cv[k].run.courier == NEW_COURIER && j5.shelf == Some(pdf);
    assert j5.log == j.log && Lands(NEW_COURIER, j.log, JobRendered(Some(Cv.ObjectKey(id))), o);
    j' := CvActs(delays, id, row, metrics, j5, k, input);
  }

  // ---- the three runs ----

  /** The pipeline can complete any job with any PDF of at most two pages. */
  lemma JobsCanComplete(delays: seq<nat>, id: string, spec: JobSpec, apiKey: string, cv: string, pdf: Cv.Pdf)
    returns (s: System)
    requires '.' !in id && apiKey != "" && pdf.pages <= 2
    ensures Reachable(delays, s) && id in s.jobs && id in s.gw.rows
    ensures s.jobs[id].shelf == Some(pdf)
    ensures s.gw.rows[id] == Row(spec, Completed, None, Some("cvs/" + id + ".pdf"), Some(cv), 0, 0)
  {
    var row, m := NewRow(spec, 0), EMPTY.metrics;
    var j := FirstRunClaims(delays, id, spec, apiKey);
    j := AiStructures(delays, id, row, m, j, 0, cv);
    j := RendersStored(delays, id, row, m, j, 1, pdf, SENT);
    m, j := GwDelivers(delays, id, row, m, j, 1);
    row := row.(status := Rendering, cv := Some(cv));
    m, j := GwDelivers(delays, id, row, m, j, 2);
    row := row.(status := Completed, pdfObjectKey := Some(Cv.ObjectKey(id)));
    s := Sole(id, row, m, j);
  }

  /** The claim loser's failure reaches the row while it is pending. */
  lemma LoserStrikes(delays: seq<nat>, id: string, spec: JobSpec, apiKey: string) returns (metrics: Metrics, j: Job)
    requires '.' !in id && apiKey != ""
    ensures var row := NewRow(spec, 0).(status := Failed, error := Some(Ai.API_KEY_MISSING_ERROR));
            Reachable(delays, Sole(id, row, metrics, j))
    ensures j.log == [Requested(1), Taken(Fresh(Ai.ProcessingFailure(Ai.API_KEY_MISSING_ERROR)))]
    ensures |j.ai| == 2 && j.ai[0] == AiWork(HOLDER, 0, true) && j.cv == []
  {
    var row, m := NewRow(spec, 0), EMPTY.metrics;
    j := FirstRunClaims(delays, id, spec, apiKey);
    j := SecondRunBlames(delays, id, row, m, j);
    metrics, j := GwDelivers(delays, id, row, m, j, 1);
  }

  /** A completed row implies a delivered PDF, but not the other way round: a
      redelivered run that lost the key claim can fail the row while it is still
      pending, and the winner's PDF then comes too late. */
  lemma DeliveredIsNotCompleted(delays: seq<nat>, id: string, spec: JobSpec, apiKey: string, cv: string, pdf: Cv.Pdf)
    returns (s: System)
    requires '.' !in id && apiKey != "" && pdf.pages <= 2
    ensures Reachable(delays, s) && id in s.jobs && id in s.gw.rows
    ensures s.jobs[id].shelf == Some(pdf) && Holds(s.jobs[id].log, EVENT_RENDERED)
    ensures s.gw.rows[id].status.Failed? && s.gw.rows[id].error == Some(Ai.API_KEY_MISSING_ERROR)
  {
    var m, j := LoserStrikes(delays, id, spec, apiKey);
    var row := NewRow(spec, 0).(status := Failed, error := Some(Ai.API_KEY_MISSING_ERROR));
    j := AiStructures(delays, id, row, m, j, 0, cv);
    j := RendersStored(delays, id, row, m, j, 2, pdf, SENT);
    assert Suffix(j.log[3].event) == EVENT_RENDERED;
    s := Sole(id, row, m, j);
  }

  // ---- a failure that is not told ----

  const BROKEN := Cv.Input(None, Cv.TypstError, true, Cv.Stored, SENT)

  /** A rendering run that fails, its report dropped as a duplicate of an earlier
      failure: both carry the message id of the job's `failed` event. */
  lemma CvFailsUnheard(delays: seq<nat>, id: string, row: Row, metrics: Metrics, j: Job, k: nat) returns (j': Job)
    requires Reachable(delays, Sole(id, row, metrics, j)) && k < |j.cv| && j.cv[k].live && j.cv[k].run == Cv.START
    requires HasLike(j.log, JobFailed(None))
    ensures Reachable(delays, Sole(id, row, metrics, j'))
    ensures j'.log == j.log && |j'.cv| == |j.cv| && j'.ai == j.ai && j'.submission == j.submission
    ensures j'.cv[k].run.phase == Cv.Done(Term) && j'.cv[k].live && j'.cv[k].msg == j.cv[k].msg
    ensures j'.cv[k].run.reasons == [Cv.RenderFailed]
  {
    var j1 := CvActs(delays, id, row, metrics, j, k, BROKEN);
    assert j1.cv[k].run.phase == Cv.Compiling;
    var j2 := CvActs(delays, id, row, metrics, j1, k, BROKEN);
    assert j2.cv[k].run.phase == Cv.Reporting(Cv.RENDER_ERROR);
    j' := CvActs(delays, id, row, metrics, j2, k, BROKEN);
  }

  lemma SettledIsQuiet(j: Job)
    requires AwaitsWorkers(j.log) && j.submission.Finished?
    requires |j.ai| == 2 && j.ai[0].live && j.ai[0].run.phase == Ai.Done(Ack) && j.ai[0].msg == 0
    requires j.ai[1].run.phase.Done?
    requires |j.cv| == 1 && j.cv[0].live && j.cv[0].run.phase == Cv.Done(Term) && j.cv[0].msg == 1
    ensures var after := DoCvSettle(DoAiSettle(j, 0, false), 0, false);
            Quiet(after) && SameEvents(j.log, after.log) && |after.cv| == 1 && after.cv[0].run == j.cv[0].run
  {
    var j1 := DoAiSettle(j, 0, false);
    assert j1.log[1] == j.log[1] && j1.cv == j.cv;
    var j2 := DoCvSettle(j1, 0, false);
    assert j2.log[0] == j1.log[0] && j2.log[2] == j.log[2];
  }

  function Taken(m: Stored): Stored {
    m.(gw := Sub(GW_DELIVERIES - 1, Acked))
  }

  lemma LateBlame(delays: seq<nat>, id: string, spec: JobSpec, apiKey: string, cv: string) returns (j: Job)
    requires '.' !in id && apiKey != ""
    ensures Reachable(delays, Sole(id, NewRow(spec, 0), EMPTY.metrics, j))
    ensures j.log == [Requested(1), Fresh(JobStructured(Some(cv))),
                      Fresh(Ai.ProcessingFailure(Ai.API_KEY_MISSING_ERROR))]
    ensures |j.ai| == 2 && j.ai[0].live && j.ai[0].run.phase == Ai.Done(Ack) && j.ai[0].msg == 0
    ensures j.ai[1].run.phase.Done?
    ensures j.cv == [] && j.submission == Submission.Finished
  {
    var row, m := NewRow(spec, 0), EMPTY.metrics;
    j := FirstRunClaims(delays, id, spec, apiKey);
    j := AiStructures(delays, id, row, m, j, 0, cv);
    j := SecondRunBlames(delays, id, row, m, j);
  }

  /** The claim loser's failure reaches the stream after `structured`: the row ignores it. */
  lemma LateBlameIsIgnored(delays: seq<nat>, id: string, spec: JobSpec, apiKey: string, cv: string)
    returns (metrics: Metrics, j: Job)
    requires '.' !in id && apiKey != ""
    ensures Reachable(delays, Sole(id, NewRow(spec, 0).(status := Rendering, cv := Some(cv)), metrics, j))
    ensures j.log == [Taken(Requested(1)), Taken(Fresh(JobStructured(Some(cv)))),
                      Taken(Fresh(Ai.ProcessingFailure(Ai.API_KEY_MISSING_ERROR)))]
    ensures |j.ai| == 2 && j.ai[0].live && j.ai[0].run.phase == Ai.Done(Ack) && j.ai[0].msg == 0
    ensures j.ai[1].run.phase.Done?
    ensures j.cv == [] && j.submission == Submission.Finished
  {
    var row, m := NewRow(spec, 0), EMPTY.metrics;
    j := LateBlame(delays, id, spec, apiKey, cv);
    m, j := GwDelivers(delays, id, row, m, j, 0);
    m, j := GwDelivers(delays, id, row, m, j, 1);
    row := row.(status := Rendering, cv := Some(cv));
    metrics, j := GwDelivers(delays, id, row, m, j, 2);
  }

  /** The stream of such a job once all three messages are settled but for the workers' own. */
  predicate AwaitsWorkers(log: Log) {
    && |log| == 3
    && log[0].ai.Sub? && log[0].ai.settled.Open? && log[0].ai.left > 0 && !HasMore(log[0].cv) && !HasMore(log[0].gw)
    && log[1].cv.Sub? && log[1].cv.settled.Open? && log[1].cv.left > 0 && !HasMore(log[1].ai) && !HasMore(log[1].gw)
    && !HasMore(log[2].ai) && !HasMore(log[2].cv) && !HasMore(log[2].gw)
  }

  predicate SameEvents(log: Log, after: Log) {
    |after| == |log| && forall i :: 0 <= i < |log| ==> after[i].event == log[i].event
  }

  /** Its rendering fails, unheard. */
  lemma RenderingFailsUnheard(delays: seq<nat>, id: string, row: Row, metrics: Metrics, j: Job) returns (j': Job)
    requires Reachable(delays, Sole(id, row, metrics, j)) && AwaitsWorkers(j.log)
    requires j.log[1].cv.left == CV_DELIVERIES && j.log[2].event.JobFailed? && j.cv == []
    ensures Reachable(delays, Sole(id, row, metrics, j')) && AwaitsWorkers(j'.log)
    ensures j'.ai == j.ai && j'.submission == j.submission && SameEvents(j.log, j'.log)
    ensures |j'.cv| == 1 && j'.cv[0].run.reasons == [Cv.RenderFailed]
    ensures j'.cv[0].live && j'.cv[0].run.phase == Cv.Done(Term) && j'.cv[0].msg == 1
  {
    var late := j.log[2].event;
    j' := CvDelivers(delays, id, row, metrics, j, 1);
    assert j'.log[2].event == late && Suffix(late) == EVENT_FAILED;
    j' := CvFailsUnheard(delays, id, row, metrics, j', 0);
  }

  /** Both workers settle, and nothing is left. */
  lemma BothSettle(delays: seq<nat>, id: string, row: Row, metrics: Metrics, j: Job) returns (j': Job)
    requires Reachable(delays, Sole(id, row, metrics, j)) && AwaitsWorkers(j.log) && j.submission.Finished?
    requires |j.ai| == 2 && j.ai[0].live && j.ai[0].run.phase == Ai.Done(Ack) && j.ai[0].msg == 0
    requires j.ai[1].run.phase.Done?
    requires |j.cv| == 1 && j.cv[0].live && j.cv[0].run.phase == Cv.Done(Term) && j.cv[0].msg == 1
    ensures Reachable(delays, Sole(id, row, metrics, j')) && Quiet(j') && SameEvents(j.log, j'.log)
    ensures |j'.cv| == 1 && j'.cv[0].run == j.cv[0].run
  {
    Acts(delays, id, row, metrics, j, AiSettle(0, false));
    var j1 := DoAiSettle(j, 0, false);
    Acts(delays, id, row, metrics, j1, CvSettle(0, false));
    j' := DoCvSettle(j1, 0, false);
    SettledIsQuiet(j);
  }

  /** A rendering failure that shares its message id with an ignored processing
      failure is dropped: everything is settled, and the row still says `rendering`. */
  lemma FailureCanGoUnheard(delays: seq<nat>, id: string, spec: JobSpec, apiKey: string, cv: string)
    returns (s: System)
    requires '.' !in id && apiKey != ""
    ensures Reachable(delays, s) && id in s.jobs && id in s.gw.rows
    ensures s.gw.rows[id].status.Rendering? && Quiet(s.jobs[id])
    ensures |s.jobs[id].cv| == 1 && s.jobs[id].cv[0].run.reasons == [Cv.RenderFailed]
    ensures forall m :: m in s.jobs[id].log && m.event.JobFailed? ==>
              m.event == Ai.ProcessingFailure(Ai.API_KEY_MISSING_ERROR)
  {
    var row := NewRow(spec, 0).(status := Rendering, cv := Some(cv));
    var m, j := LateBlameIsIgnored(delays, id, spec, apiKey, cv);
    j := RenderingFailsUnheard(delays, id, row, m, j);
    j := BothSettle(delays, id, row, m, j);
    s := Sole(id, row, m, j);
  }
}
