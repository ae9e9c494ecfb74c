/** The main results about whole runs of the pipeline: every interleaving of
    submissions, overlapping and redelivered worker runs, event deliveries,
    advisories, sweeps, crashes and lost replies, for any number of jobs. */
module PipelineLaws {
  import opened Wrappers
  import opened Subjects
  import opened Events
  import opened Stream
  import opened JobStore
  import opened Projection
  import opened ProjectionLaws
  import opened DeliveryLaws
  import opened Pipeline
  import opened WorkerLaws
  import opened JobLaws
  import opened DeliveryBound
  import CounterLaws
  import Submission
  import Ai = AiProcessor
  import Cv = CvGenerator

  // ---- one job's own actions ----

  lemma BooksKeep(n: nat, id: string, j: Job, after: Job, now: int)
    requires JobOk(n, id, j, now) && Bookkeeping(j, after) && NoSilentLoss(after)
    ensures JobOk(n, id, after, now)
  {
    BooksKeepShape(id, j, after);
    BooksKeepCouriers(j, after);
    BooksKeepProvenance(j, after);
    BooksKeepOneClaim(n, j, after);
    BooksKeepKeyAccounted(j, after, now);
  }

  lemma AiActKeeps(delays: seq<nat>, id: string, j: Job, work: nat, input: Ai.Input, now: int)
    requires JobOk(|delays|, id, j, now)
    ensures JobOk(|delays|, id, DoAiAct(delays, j, work, input), now)
  {
    AiActKeepsShape(delays, id, j, work, input);
    AiActKeepsCouriers(delays, j, work, input);
    AiActKeepsProvenance(delays, j, work, input);
    AiActKeepsOneClaim(delays, j, work, input);
    AiActKeepsHonest(delays, j, work, input);
    AiActKeepsKeyAccounted(delays, id, j, work, input, now);
  }

  lemma CvActKeeps(n: nat, id: string, j: Job, work: nat, input: Cv.Input, now: int)
    requires JobOk(n, id, j, now)
    ensures JobOk(n, id, DoCvAct(id, j, work, input), now)
  {
    CvActKeepsShape(id, j, work, input);
    CvActKeepsCouriers(id, j, work, input);
    CvActKeepsProvenance(id, j, work, input);
    CvActKeepsHonest(id, j, work, input);
    var after := DoCvAct(id, j, work, input);
    assert after.ai == j.ai && |after.log| >= |j.log|;
    assert OneClaim(n, after) && KeyAccounted(after, now);
  }

  lemma AiDeliverKeeps(n: nat, id: string, j: Job, msg: nat, now: int)
    requires JobOk(n, id, j, now)
    ensures JobOk(n, id, DoAiDeliver(j, msg), now)
  {
    AiDeliverBooks(id, j, msg);
    DeliverKeepsHonest(id, j, msg);
    BooksKeep(n, id, j, DoAiDeliver(j, msg), now);
  }

  lemma CvDeliverKeeps(n: nat, id: string, j: Job, msg: nat, now: int)
    requires JobOk(n, id, j, now)
    ensures JobOk(n, id, DoCvDeliver(j, msg), now)
  {
    CvDeliverBooks(id, j, msg);
    DeliverKeepsHonest(id, j, msg);
    BooksKeep(n, id, j, DoCvDeliver(j, msg), now);
  }

  lemma AiSettleKeeps(n: nat, id: string, j: Job, work: nat, lost: bool, now: int)
    requires JobOk(n, id, j, now)
    ensures JobOk(n, id, DoAiSettle(j, work, lost), now)
  {
    AiSettleBooks(j, work, lost);
    AiSettleKeepsHonest(j, work, lost);
    BooksKeep(n, id, j, DoAiSettle(j, work, lost), now);
  }

  lemma CvSettleKeeps(n: nat, id: string, j: Job, work: nat, lost: bool, now: int)
    requires JobOk(n, id, j, now)
    ensures JobOk(n, id, DoCvSettle(j, work, lost), now)
  {
    CvSettleBooks(j, work, lost);
    CvSettleKeepsHonest(j, work, lost);
    BooksKeep(n, id, j, DoCvSettle(j, work, lost), now);
  }

  lemma AiCrashKeeps(n: nat, id: string, j: Job, work: nat, now: int)
    requires JobOk(n, id, j, now)
    ensures JobOk(n, id, DoAiCrash(j, work), now)
  {
    AiCrashBooks(j, work);
    CrashKeepsHonest(j, work);
    BooksKeep(n, id, j, DoAiCrash(j, work), now);
  }

  lemma CvCrashKeeps(n: nat, id: string, j: Job, work: nat, now: int)
    requires JobOk(n, id, j, now)
    ensures JobOk(n, id, DoCvCrash(j, work), now)
  {
    CvCrashBooks(j, work);
    CrashKeepsHonest(j, work);
    BooksKeep(n, id, j, DoCvCrash(j, work), now);
  }

  lemma HandOffIsOk(delays: seq<nat>, id: string, j: Job, a: JobAction, now: int)
    requires JobOk(|delays|, id, j, now) && (a.PutKey? || a.PublishRequested? || a.ExpireKey?)
    ensures JobOk(|delays|, id, JobNext(delays, id, j, a, now), now)
  {
    match a
    case PutKey(utf8, put) => PutKeyKeeps(|delays|, id, j, utf8, put, now);
    case PublishRequested(o) => PublishKeeps(|delays|, id, j, o, now);
    case ExpireKey => ExpireKeeps(|delays|, id, j, now);
  }

  lemma AiNextIsOk(delays: seq<nat>, id: string, j: Job, a: JobAction, now: int)
    requires JobOk(|delays|, id, j, now) && (a.AiDeliver? || a.AiAct? || a.AiSettle? || a.AiCrash?)
    ensures JobOk(|delays|, id, JobNext(delays, id, j, a, now), now)
  {
    match a
    case AiDeliver(msg) => AiDeliverKeeps(|delays|, id, j, msg, now);
    case AiAct(work, input) => AiActKeeps(delays, id, j, work, input, now);
    case AiSettle(work, lost) => AiSettleKeeps(|delays|, id, j, work, lost, now);
    case AiCrash(work) => AiCrashKeeps(|delays|, id, j, work, now);
  }

  lemma CvNextIsOk(delays: seq<nat>, id: string, j: Job, a: JobAction, now: int)
    requires JobOk(|delays|, id, j, now) && (a.CvDeliver? || a.CvAct? || a.CvSettle? || a.CvCrash?)
    ensures JobOk(|delays|, id, JobNext(delays, id, j, a, now), now)
  {
    if a.CvDeliver? {
      CvDeliverKeeps(|delays|, id, j, a.msg, now);
    } else if a.CvAct? {
      CvActKeeps(|delays|, id, j, a.work, a.cvInput, now);
    } else if a.CvSettle? {
      CvSettleKeeps(|delays|, id, j, a.work, a.lost, now);
    } else {
      CvCrashKeeps(|delays|, id, j, a.work, now);
    }
  }

  lemma JobNextIsOk(delays: seq<nat>, id: string, j: Job, a: JobAction, now: int)
    requires JobOk(|delays|, id, j, now)
    ensures JobOk(|delays|, id, JobNext(delays, id, j, a, now), now)
  {
    if a.PutKey? || a.PublishRequested? || a.ExpireKey? {
      HandOffIsOk(delays, id, j, a, now);
    } else if a.AiDeliver? || a.AiAct? || a.AiSettle? || a.AiCrash? {
      AiNextIsOk(delays, id, j, a, now);
    } else {
      CvNextIsOk(delays, id, j, a, now);
    }
  }

  /** An action that stores at most one event, or moves one delivery on, pays its way. */
  lemma JobNextPays(t: Tariff, delays: seq<nat>, id: string, j: Job, a: JobAction, now: int)
    requires Shaped(id, j) && Couriers(j) && Provenance(j)
    ensures Pays(t, j, JobNext(delays, id, j, a, now))
  {
    var after := JobNext(delays, id, j, a, now);
    match a
    case PutKey(utf8, put) =>
      assert after == DoPutKey(j, utf8, put, now);
      PutKeyPays(t, j, utf8, put, now);
    case PublishRequested(o) =>
      assert after == DoPublish(j, o);
      PublishPays(t, id, j, o);
    case ExpireKey =>
      assert after == DoExpire(j, now);
      ExpirePays(t, j, now);
    case AiDeliver(msg) =>
      assert after == DoAiDeliver(j, msg);
      AiDeliverPays(t, j, msg);
    case AiAct(work, input) =>
      assert after == DoAiAct(delays, j, work, input);
      AiActPays(t, delays, j, work, input);
    case AiSettle(work, lost) =>
      assert after == DoAiSettle(j, work, lost);
      AiSettlePays(t, j, work, lost);
    case AiCrash(work) =>
      assert after == DoAiCrash(j, work);
      AiCrashPays(t, j, work);
    case CvDeliver(msg) =>
      assert after == DoCvDeliver(j, msg);
      CvDeliverPays(t, j, msg);
    case CvAct(work, input) =>
      assert after == DoCvAct(id, j, work, input);
      CvActPays(t, id, j, work, input);
    case CvSettle(work, lost) =>
      assert after == DoCvSettle(j, work, lost);
      CvSettlePays(t, j, work, lost);
    case CvCrash(work) =>
      assert after == DoCvCrash(j, work);
      CvCrashPays(t, j, work);
  }

  /** All that an action owes the job it acts on. */
  ghost predicate Kept(n: nat, id: string, j: Job, after: Job, now: int) {
    JobOk(n, id, after, now) && Pays(PerDelivery, j, after) && Pays(PerStructured, j, after)
  }

  /** Every action a job takes keeps everything that holds of it, and pays for its deliveries. */
  lemma JobNextKeeps(delays: seq<nat>, id: string, j: Job, a: JobAction, now: int)
    requires JobOk(|delays|, id, j, now)
    ensures Kept(|delays|, id, j, JobNext(delays, id, j, a, now), now)
  {
    JobNextIsOk(delays, id, j, a, now);
    JobNextPays(PerDelivery, delays, id, j, a, now);
    JobNextPays(PerStructured, delays, id, j, a, now);
  }

  lemma GwDeliveredKeeps(n: nat, id: string, j: Job, msg: nat, d: Disposition, lost: bool, now: int)
    requires JobOk(n, id, j, now) && msg < |j.log| && Deliverable(j.log[msg].gw)
    ensures Kept(n, id, j, GwDelivered(j, msg, d, lost), now)
  {
    GwDeliverBooks(j, msg, d, lost);
    GwDeliverKeepsHonest(j, msg, d, lost);
    BooksKeep(n, id, j, GwDelivered(j, msg, d, lost), now);
    GwDeliverPays(PerDelivery, j, msg, d, lost);
    GwDeliverPays(PerStructured, j, msg, d, lost);
  }

  // ---- the row behind a job ----

  /** What the jobs table says of a job is backed by its stream. */
  ghost predicate RowBacked(row: Row, id: string, j: Job) {
    && row.createdAt == j.submittedAt
    && (row.status.Completed? ==> row.pdfObjectKey == Some(Cv.ObjectKey(id)) && Holds(j.log, EVENT_RENDERED))
    && (forall i :: 0 <= i < |j.log| ==> GwSettledHonestly(row, j.log[i]))
  }

  /** The gateway terminates none of the pipeline's events, and an event it
      acknowledged has nothing left to do. */
  predicate GwSettledHonestly(row: Row, m: Stored) {
    m.gw.Sub? ==> !m.gw.settled.Termed? && (m.gw.settled.Acked? ==> Spent(row, m.event))
  }

  /** A row that moved on for a reason other than a rendered PDF. */
  predicate MovesWithoutPdf(row: Row, later: Row) {
    Follows(row, later) && (later.status.Completed? ==> later == row)
  }

  lemma SpentLater(row: Row, later: Row, e: Event)
    requires Follows(row, later) && Spent(row, e)
    ensures Spent(later, e)
  {
  }

  lemma BackingSurvives(row: Row, later: Row, id: string, j: Job)
    requires RowBacked(row, id, j) && MovesWithoutPdf(row, later)
    ensures RowBacked(later, id, j)
  {
    forall i | 0 <= i < |j.log| ensures GwSettledHonestly(later, j.log[i]) {
      assert GwSettledHonestly(row, j.log[i]);
      if Spent(row, j.log[i].event) { SpentLater(row, later, j.log[i].event); }
    }
  }

  /** A job's own actions neither settle nor forget anything of the gateway's. */
  ghost predicate GwUntouched(j: Job, after: Job) {
    && after.submittedAt == j.submittedAt
    && |j.log| <= |after.log|
    && (forall i :: 0 <= i < |j.log| ==> after.log[i].event == j.log[i].event && after.log[i].gw == j.log[i].gw)
    && (forall i :: |j.log| <= i < |after.log| ==> after.log[i].gw == Sub(GW_DELIVERIES, Open))
  }

  lemma BackingFollowsJob(row: Row, id: string, j: Job, after: Job)
    requires RowBacked(row, id, j) && GwUntouched(j, after)
    ensures RowBacked(row, id, after)
  {
    forall i | 0 <= i < |after.log| ensures GwSettledHonestly(row, after.log[i]) {
      assert i < |j.log| ==> GwSettledHonestly(row, j.log[i]);
    }
    if Holds(j.log, EVENT_RENDERED) {
      var i :| 0 <= i < |j.log| && Suffix(j.log[i].event) == EVENT_RENDERED;
      assert after.log[i].event == j.log[i].event;
    }
  }

  predicate Wears(s: Sub, later: Sub) {
    s.Sub? ==> later.Sub? && later.left <= s.left
  }

  predicate MsgWears(m: Stored, later: Stored) {
    later.event == m.event && Wears(m.ai, later.ai) && Wears(m.cv, later.cv) && Wears(m.gw, later.gw)
  }

  /** A job's stream only grows, and its deliveries only run out. */
  ghost predicate Grows(log: Log, after: Log) {
    |log| <= |after| && forall i :: 0 <= i < |log| ==> MsgWears(log[i], after[i])
  }

  ghost predicate Evolves(j: Job, after: Job) {
    GwUntouched(j, after) && Grows(j.log, after.log)
  }

  lemma AppendEvolves(j: Job, after: Job)
    requires Appends(j.log, after.log) && after.submittedAt == j.submittedAt
    ensures Evolves(j, after)
  {
  }

  lemma UpdateEvolves(j: Job, after: Job, m: nat)
    requires m < |j.log| && |after.log| == |j.log| && after.submittedAt == j.submittedAt
    requires after.log == j.log[m := after.log[m]]
    requires MsgWears(j.log[m], after.log[m]) && after.log[m].gw == j.log[m].gw
    ensures Evolves(j, after)
  {
  }

  lemma DeliverEvolves(j: Job, msg: nat)
    ensures Evolves(j, DoAiDeliver(j, msg)) && Evolves(j, DoCvDeliver(j, msg))
  {
    if msg < |j.log| && Deliverable(j.log[msg].ai) { UpdateEvolves(j, DoAiDeliver(j, msg), msg); }
    if msg < |j.log| && Deliverable(j.log[msg].cv) { UpdateEvolves(j, DoCvDeliver(j, msg), msg); }
  }

  lemma AiSettleEvolves(j: Job, work: nat, lost: bool)
    ensures Evolves(j, DoAiSettle(j, work, lost))
  {
    var after := DoAiSettle(j, work, lost);
    if after.log != j.log { UpdateEvolves(j, after, j.ai[work].msg); }
  }

  lemma CvSettleEvolves(j: Job, work: nat, lost: bool)
    ensures Evolves(j, DoCvSettle(j, work, lost))
  {
    var after := DoCvSettle(j, work, lost);
    if after.log != j.log { UpdateEvolves(j, after, j.cv[work].msg); }
  }

  lemma PublishEvolves(j: Job, o: Outcome)
    ensures Evolves(j, DoPublish(j, o))
  {
    if j.submission.Publishing? { PublishAppends(NEW_COURIER, j.log, JobRequested, o); }
    AppendEvolves(j, DoPublish(j, o));
  }

  lemma JobNextEvolves(delays: seq<nat>, id: string, j: Job, a: JobAction, now: int)
    requires JobOk(|delays|, id, j, now)
    ensures Evolves(j, JobNext(delays, id, j, a, now))
  {
    var after := JobNext(delays, id, j, a, now);
    match a
    case AiDeliver(msg) => DeliverEvolves(j, msg);
    case CvDeliver(msg) => DeliverEvolves(j, msg);
    case AiSettle(work, lost) => AiSettleEvolves(j, work, lost);
    case CvSettle(work, lost) => CvSettleEvolves(j, work, lost);
    case PublishRequested(o) => PublishEvolves(j, o);
    case AiAct(work, input) =>
      AiActKeepsShape(delays, id, j, work, input);
      AppendEvolves(j, after);
    case CvAct(work, input) =>
      CvActKeepsShape(id, j, work, input);
      AppendEvolves(j, after);
    case _ => assert after.log == j.log && after.submittedAt == j.submittedAt;
  }

  // ---- the whole system ----

  ghost predicate JobStands(n: nat, id: string, j: Job, row: Row, now: int) {
    && '.' !in id
    && JobOk(n, id, j, now)
    && Within(PerDelivery, j) && Within(PerStructured, j)
    && RowBacked(row, id, j)
  }

  ghost predicate SystemOk(n: nat, s: System) {
    && TableOk(s.gw)
    && (forall id :: id in s.jobs ==> id in s.gw.rows && JobStands(n, id, s.jobs[id], s.gw.rows[id], s.gw.now))
    && PdfsHaveJobs(s)
  }

  /** Only the pipeline completes rows. */
  ghost predicate PdfsHaveJobs(s: System) {
    forall id :: id in s.gw.rows && s.gw.rows[id].status.Completed? ==> id in s.jobs
  }

  /** A gateway operation that completes no row leaves every other job standing. */
  ghost predicate NoNewPdf(g: Gateway, after: Gateway) {
    && Steps(g, after) && g.now <= after.now
    && (forall id :: id in g.rows ==> MovesWithoutPdf(g.rows[id], after.rows[id]))
    && (forall id :: id in after.rows && id !in g.rows ==> !after.rows[id].status.Completed?)
  }

  lemma JobOutlives(n: nat, id: string, j: Job, row: Row, later: Row, now: int, then': int)
    requires JobStands(n, id, j, row, now) && MovesWithoutPdf(row, later) && now <= then'
    ensures JobStands(n, id, j, later, then')
  {
    BackingSurvives(row, later, id, j);
  }

  /** Nothing changes outside job `id` and its row. */
  ghost predicate OthersStay(s: System, gw: Gateway, id: string) {
    && gw.now == s.gw.now && gw.rows.Keys == s.gw.rows.Keys
    && forall other :: other in s.gw.rows && other != id ==> gw.rows[other] == s.gw.rows[other]
  }

  lemma OthersKeepPdfs(s: System, gw: Gateway, id: string, j: Job)
    requires PdfsHaveJobs(s) && OthersStay(s, gw, id)
    ensures PdfsHaveJobs(System(gw, s.jobs[id := j]))
  {
    forall other | other in gw.rows && gw.rows[other].status.Completed? && other != id ensures other in s.jobs {
      assert gw.rows[other] == s.gw.rows[other];
    }
  }

  /** An action on one job, the others and their rows being left alone. */
  lemma OneJobChanges(n: nat, s: System, gw: Gateway, id: string, j: Job)
    requires SystemOk(n, s)
    requires TableOk(gw) && OthersStay(s, gw, id)
    requires id in gw.rows && JobStands(n, id, j, gw.rows[id], gw.now)
    ensures SystemOk(n, System(gw, s.jobs[id := j]))
  {
    OthersKeepPdfs(s, gw, id, j);
    forall other | other in s.jobs[id := j]
      ensures other in gw.rows && JobStands(n, other, s.jobs[id := j][other], gw.rows[other], gw.now)
    {
      if other != id {
        assert other in s.jobs && JobStands(n, other, s.jobs[other], s.gw.rows[other], s.gw.now);
      }
    }
  }

  lemma GatewayNoNewPdf(g: Gateway, op: Op)
    requires TableOk(g) && !op.Message?
    ensures NoNewPdf(g, Projection.Next(g, op))
  {
    NextKeepsRows(g, op);
    TimePasses(g, op);
    forall id | id in Projection.Next(g, op).rows
      ensures id in g.rows ==> MovesWithoutPdf(g.rows[id], Projection.Next(g, op).rows[id])
      ensures id !in g.rows ==> !Projection.Next(g, op).rows[id].status.Completed?
    {
      if id in g.rows { OpOnRow(g, op, id); } else { OnlyCreateAdds(g, op, id); }
    }
  }

  /** What the gateway reads off a message that the pipeline published. */
  lemma WriteOfKnown(id: string, e: Event)
    requires '.' !in id && KnownEvent(id, e)
    ensures WriteOf(Subject(id, Suffix(e)), Encode(e))
            == if ChangeFor(e).None? then None else Some((id, ChangeFor(e).value))
    ensures IsRequested(Subject(id, Suffix(e))) <==> e.JobRequested?
  {
    SubjectOfEvent(id, e);
    DecodeOfEncode(e);
  }

  lemma MessageSteps(g: Gateway, subject: string, payload: Payload, db: Db)
    requires TableOk(g)
    ensures Steps(g, OnMessage(g, subject, payload, db).0)
  {
    NextKeepsRows(g, Op.Message(subject, payload, db));
  }

  /** One delivery to the gateway, on the row of the job it belongs to. */
  lemma DeliveredRow(g: Gateway, id: string, e: Event, db: Db)
    requires TableOk(g) && id in g.rows && '.' !in id && KnownEvent(id, e)
    ensures var (after, d) := OnMessage(g, Subject(id, Suffix(e)), Encode(e), db);
            && Steps(g, after) && after.now == g.now
            && after.rows.Keys == g.rows.Keys
            && (forall other :: other in g.rows && other != id ==> after.rows[other] == g.rows[other])
            && after.rows[id] == (if db.Aborts? then g.rows[id] else ApplyEvent(g.rows[id], e, g.now))
            && !d.Term? && (d.Ack? ==> Spent(after.rows[id], e))
  {
    WriteOfKnown(id, e);
    MessageSteps(g, Subject(id, Suffix(e)), Encode(e), db);
    IdleStays(g.rows[id], ByEvent(e), ByEvent(e), g.now);
  }

  lemma DeliveryKeepsBacking(row: Row, later: Row, id: string, j: Job, msg: nat, d: Disposition, lost: bool,
                             now: int, db: Db)
    requires RowBacked(row, id, j) && Follows(row, later)
    requires msg < |j.log| && Deliverable(j.log[msg].gw) && KnownEvent(id, j.log[msg].event)
    requires later == if db.Aborts? then row else ApplyEvent(row, j.log[msg].event, now)
    requires !d.Term? && (d.Ack? ==> Spent(later, j.log[msg].event))
    ensures RowBacked(later, id, GwDelivered(j, msg, d, lost))
  {
    var after := GwDelivered(j, msg, d, lost);
    forall i | 0 <= i < |after.log| ensures GwSettledHonestly(later, after.log[i]) {
      assert GwSettledHonestly(row, j.log[i]);
      if Spent(row, j.log[i].event) { SpentLater(row, later, j.log[i].event); }
    }
    GwDeliverBooks(j, msg, d, lost);
    BooksHold(j, after);
    if later.status.Completed? && !row.status.Completed? {
      assert j.log[msg].event == JobRendered(Some(Cv.ObjectKey(id)));
      assert Suffix(j.log[msg].event) == EVENT_RENDERED;
    }
  }

  lemma DeliveredJobStands(n: nat, id: string, j: Job, msg: nat, d: Disposition, lost: bool,
                           row: Row, later: Row, now: int, db: Db)
    requires JobStands(n, id, j, row, now) && Follows(row, later)
    requires msg < |j.log| && Deliverable(j.log[msg].gw)
    requires later == if db.Aborts? then row else ApplyEvent(row, j.log[msg].event, now)
    requires !d.Term? && (d.Ack? ==> Spent(later, j.log[msg].event))
    ensures JobStands(n, id, GwDelivered(j, msg, d, lost), later, now)
  {
    assert MsgOk(id, j.log[msg], msg == 0);
    GwDeliveredKeeps(n, id, j, msg, d, lost, now);
    DeliveryKeepsBacking(row, later, id, j, msg, d, lost, now, db);
  }

  /** A delivery, told apart from what it keeps. */
  lemma AdvanceDelivers(delays: seq<nat>, s: System, id: string, msg: nat, db: Db, lost: bool)
    requires CanDeliver(s, id, msg)
    ensures var e := s.jobs[id].log[msg].event;
            var (gw, d) := OnMessage(s.gw, Subject(id, Suffix(e)), Encode(e), db);
            Advance(delays, s, GwDeliver(id, msg, db, lost))
            == System(gw, s.jobs[id := GwDelivered(s.jobs[id], msg, d, lost)])
  {
  }

  lemma GwDeliverStands(delays: seq<nat>, s: System, id: string, msg: nat, db: Db, lost: bool)
    requires SystemOk(|delays|, s) && CanDeliver(s, id, msg)
    ensures SystemOk(|delays|, Advance(delays, s, GwDeliver(id, msg, db, lost)))
  {
    var j, row := s.jobs[id], s.gw.rows[id];
    var e := j.log[msg].event;
    KnownMessage(|delays|, id, j, row, s.gw.now, msg);
    var (gw, d) := OnMessage(s.gw, Subject(id, Suffix(e)), Encode(e), db);
    DeliveredRow(s.gw, id, e, db);
    AdvanceDelivers(delays, s, id, msg, db, lost);
    DeliveredJobStands(|delays|, id, j, msg, d, lost, row, gw.rows[id], s.gw.now, db);
    OneJobChanges(|delays|, s, gw, id, GwDelivered(j, msg, d, lost));
  }

  lemma KnownMessage(n: nat, id: string, j: Job, row: Row, now: int, msg: nat)
    requires JobStands(n, id, j, row, now) && msg < |j.log|
    ensures KnownEvent(id, j.log[msg].event)
  {
    assert MsgOk(id, j.log[msg], msg == 0);
  }

  lemma ActStands(delays: seq<nat>, s: System, id: string, a: JobAction)
    requires SystemOk(|delays|, s) && id in s.jobs
    ensures SystemOk(|delays|, Advance(delays, s, Act(id, a)))
  {
    var j := s.jobs[id];
    var j' := JobNext(delays, id, j, a, s.gw.now);
    var after := Advance(delays, s, Act(id, a));
    assert after == System(s.gw, s.jobs[id := j']);
    ActedJobStands(delays, id, j, a, s.gw.rows[id], s.gw.now);
    OneJobChanges(|delays|, s, s.gw, id, j');
  }

  lemma ActedJobStands(delays: seq<nat>, id: string, j: Job, a: JobAction, row: Row, now: int)
    requires JobStands(|delays|, id, j, row, now)
    ensures JobStands(|delays|, id, JobNext(delays, id, j, a, now), row, now)
  {
    JobNextKeeps(delays, id, j, a, now);
    JobNextEvolves(delays, id, j, a, now);
    BackingFollowsJob(row, id, j, JobNext(delays, id, j, a, now));
  }

  /** An operation that is no delivery, with the jobs left alone. */
  lemma OperationStands(n: nat, s: System, after: System, op: Op)
    requires SystemOk(n, s) && !op.Message?
    requires after == System(Projection.Next(s.gw, op), s.jobs)
    ensures SystemOk(n, after) && NoNewPdf(s.gw, after.gw)
  {
    GatewayNoNewPdf(s.gw, op);
    forall id | id in after.jobs
      ensures id in after.gw.rows && JobStands(n, id, after.jobs[id], after.gw.rows[id], after.gw.now)
    {
      JobOutlives(n, id, s.jobs[id], s.gw.rows[id], after.gw.rows[id], s.gw.now, after.gw.now);
    }
  }

  lemma NewJobStands(n: nat, id: string, spec: JobSpec, apiKey: string, now: int)
    requires '.' !in id
    ensures JobStands(n, id, Submitted(apiKey, now), NewRow(spec, now), now)
  {
    SubmittedIsOk(n, id, apiKey, now);
    NewJobWeighs(PerDelivery, apiKey, now);
    NewJobWeighs(PerStructured, apiKey, now);
  }

  lemma SubmitStands(delays: seq<nat>, s: System, a: Action)
    requires SystemOk(|delays|, s) && a.Submit? && GatewayOp(s, a).Some?
    ensures SystemOk(|delays|, Advance(delays, s, a))
  {
    var n := |delays|;
    var after := Advance(delays, s, a);
    var mid := System(after.gw, s.jobs);
    OperationStands(n, s, mid, GatewayOp(s, a).value);
    if a.db.Commits? {
      NewJobStands(n, a.id, a.spec, a.apiKey, s.gw.now);
      OneJobChanges(n, mid, mid.gw, a.id, Submitted(a.apiKey, s.gw.now));
    }
  }

  lemma FailOwnRowStands(delays: seq<nat>, s: System, a: Action)
    requires SystemOk(|delays|, s) && a.FailOwnRow? && GatewayOp(s, a).Some?
    ensures SystemOk(|delays|, Advance(delays, s, a))
  {
    var n := |delays|;
    var after := Advance(delays, s, a);
    var mid := System(after.gw, s.jobs);
    OperationStands(n, s, mid, GatewayOp(s, a).value);
    FinishedJobStands(n, a.id, s.jobs[a.id], mid.gw.rows[a.id], mid.gw.now);
    OneJobChanges(n, mid, mid.gw, a.id, after.jobs[a.id]);
  }

  lemma FinishedJobStands(n: nat, id: string, j: Job, row: Row, now: int)
    requires JobStands(n, id, j, row, now) && j.submission.FailingRow?
    ensures JobStands(n, id, j.(submission := Submission.Finished), row, now)
  {
    BackingFollowsJob(row, id, j, j.(submission := Submission.Finished));
  }

  lemma NextStands(delays: seq<nat>, s: System, a: Action)
    requires SystemOk(|delays|, s)
    ensures SystemOk(|delays|, Advance(delays, s, a))
  {
    var op := GatewayOp(s, a);
    match a
    case Submit(_, _, _, _) => if op.Some? { SubmitStands(delays, s, a); }
    case FailOwnRow(_, _) => if op.Some? { FailOwnRowStands(delays, s, a); }
    case Act(id, action) => if id in s.jobs { ActStands(delays, s, id, action); }
    case GwDeliver(id, msg, db, lost) => if CanDeliver(s, id, msg) { GwDeliverStands(delays, s, id, msg, db, lost); }
    case Exhausted(_, _, _, _) => if op.Some? { OperationStands(|delays|, s, Advance(delays, s, a), op.value); }
    case SweepTick(_, _) => OperationStands(|delays|, s, Advance(delays, s, a), op.value);
    case Wait(_) => OperationStands(|delays|, s, Advance(delays, s, a), op.value);
  }

  lemma {:induction false} RunStands(delays: seq<nat>, actions: seq<Action>)
    ensures SystemOk(|delays|, Run(delays, actions))
  {
    if actions != [] {
      var n := |actions| - 1;
      RunStands(delays, actions[..n]);
      NextStands(delays, Run(delays, actions[..n]), actions[n]);
    }
  }

  // ---- the main results ----

  /** In every reachable state, a completed row carries its job's own key, that
      object is in storage with at most two pages, and `requested`, `structured`
      and `rendered` are all in the stream. */
  lemma CompletedMeansDelivered(delays: seq<nat>, actions: seq<Action>, id: string)
    requires id in Run(delays, actions).gw.rows && Run(delays, actions).gw.rows[id].status.Completed?
    ensures var s := Run(delays, actions);
            && s.gw.rows[id].pdfObjectKey == Some("cvs/" + id + ".pdf")
            && id in s.jobs
            && s.jobs[id].shelf.Some? && s.jobs[id].shelf.value.pages <= 2
            && Holds(s.jobs[id].log, EVENT_REQUESTED)
            && Holds(s.jobs[id].log, EVENT_STRUCTURED)
            && Holds(s.jobs[id].log, EVENT_RENDERED)
  {
    RunStands(delays, actions);
    var s := Run(delays, actions);
    assert JobStands(|delays|, id, s.jobs[id], s.gw.rows[id], s.gw.now);
    var log := s.jobs[id].log;
    assert MsgOk(id, log[0], true);
    assert Suffix(log[0].event) == EVENT_REQUESTED;
  }

  /** Over the whole life of a job, at most one run ever obtains its API key, and
      the model is called with that key at most once more than there are retry
      delays, however many redeliveries or overlapping runs there are. */
  lemma KeyIsUsedByOneRun(delays: seq<nat>, actions: seq<Action>, id: string)
    requires id in Run(delays, actions).jobs
    ensures var j := Run(delays, actions).jobs[id];
            && j.claims <= 1
            && j.keyCalls <= |delays| + 1
            && (forall v, w :: 0 <= v < |j.ai| && 0 <= w < |j.ai| ==>
                  j.ai[v].run.holdsKey && j.ai[w].run.holdsKey ==> v == w)
            && (forall w :: 0 <= w < |j.ai| && j.ai[w].run.holdsKey ==> j.keyCalls == j.ai[w].run.calls)
  {
    RunStands(delays, actions);
    var s := Run(delays, actions);
    assert JobStands(|delays|, id, s.jobs[id], s.gw.rows[id], s.gw.now);
  }

  /** An acknowledged `requested` has `structured` in the stream, an acknowledged
      `structured` has `rendered`, and a terminated message of either kind has
      `failed`: nothing a worker settles is lost, de-duplication included. */
  lemma NothingSettledIsLost(delays: seq<nat>, actions: seq<Action>, id: string, msg: nat)
    requires id in Run(delays, actions).jobs && msg < |Run(delays, actions).jobs[id].log|
    ensures var log := Run(delays, actions).jobs[id].log;
            && (log[msg].ai.Sub? && log[msg].ai.settled.Acked? ==> Holds(log, EVENT_STRUCTURED))
            && (log[msg].cv.Sub? && log[msg].cv.settled.Acked? ==> Holds(log, EVENT_RENDERED))
            && (log[msg].ai.Sub? && log[msg].ai.settled.Termed? ==> Holds(log, EVENT_FAILED))
            && (log[msg].cv.Sub? && log[msg].cv.settled.Termed? ==> Holds(log, EVENT_FAILED))
  {
    RunStands(delays, actions);
    var s := Run(delays, actions);
    assert JobStands(|delays|, id, s.jobs[id], s.gw.rows[id], s.gw.now);
    assert AiSubHonest(s.jobs[id].log[msg].ai, s.jobs[id].log);
    assert CvSubHonest(s.jobs[id].log[msg].cv, s.jobs[id].log);
  }

  /** An event the gateway acknowledged is in the row for good: applying it again
      now or after any further run changes nothing. */
  lemma AcknowledgedIsApplied(delays: seq<nat>, actions: seq<Action>, id: string, msg: nat, now: int)
    requires id in Run(delays, actions).jobs && msg < |Run(delays, actions).jobs[id].log|
    requires var gw := Run(delays, actions).jobs[id].log[msg].gw; gw.Sub? && gw.settled.Acked?
    ensures var s := Run(delays, actions);
            id in s.gw.rows && ApplyEvent(s.gw.rows[id], s.jobs[id].log[msg].event, now) == s.gw.rows[id]
  {
    RunStands(delays, actions);
    var s := Run(delays, actions);
    assert JobStands(|delays|, id, s.jobs[id], s.gw.rows[id], s.gw.now);
    assert GwSettledHonestly(s.gw.rows[id], s.jobs[id].log[msg]);
    var cause := ByEvent(s.jobs[id].log[msg].event);
    IdleStays(s.gw.rows[id], cause, cause, now);
  }

  /** A run blames a missing key only when the form carried none, an earlier
      GETDEL took it, or its fifteen minutes since submission were over. */
  lemma MissingKeyHasAReason(delays: seq<nat>, actions: seq<Action>, id: string, work: nat)
    requires id in Run(delays, actions).jobs && work < |Run(delays, actions).jobs[id].ai|
    requires Ai.ApiKeyMissing in Run(delays, actions).jobs[id].ai[work].run.reasons
    ensures var s := Run(delays, actions);
            var j := s.jobs[id];
            && id in s.gw.rows
            && (!j.handed || j.taken || s.gw.now >= s.gw.rows[id].createdAt + 900)
  {
    RunStands(delays, actions);
    var s := Run(delays, actions);
    assert JobStands(|delays|, id, s.jobs[id], s.gw.rows[id], s.gw.now);
  }

  /** One submission stores at most three `structured`, and causes at most 23
      deliveries over all three consumers and 18 more for each of those: never more
      than 77, in any run. */
  lemma DeliveriesAreBounded(delays: seq<nat>, actions: seq<Action>, id: string)
    requires id in Run(delays, actions).jobs
    ensures var j := Run(delays, actions).jobs[id];
            j.deliveries <= 23 + 18 * Structureds(j.log) <= 77
  {
    RunStands(delays, actions);
    var s := Run(delays, actions);
    assert JobStands(|delays|, id, s.jobs[id], s.gw.rows[id], s.gw.now);
    WithinBounds(s.jobs[id]);
  }

  // ---- the gateway's own results, for the pipeline ----

  /** The gateway operations a run of the pipeline performs. */
  function Operations(delays: seq<nat>, actions: seq<Action>): seq<Op> {
    if actions == [] then []
    else
      var n := |actions| - 1;
      var op := GatewayOp(Run(delays, actions[..n]), actions[n]);
      Operations(delays, actions[..n]) + (if op.Some? then [op.value] else [])
  }

  lemma {:induction false} PipelineRunsGateway(delays: seq<nat>, actions: seq<Action>)
    ensures Run(delays, actions).gw == Exec(EMPTY, Operations(delays, actions))
  {
    if actions != [] {
      var n := |actions| - 1;
      PipelineRunsGateway(delays, actions[..n]);
      var before := Operations(delays, actions[..n]);
      var op := GatewayOp(Run(delays, actions[..n]), actions[n]);
      if op.Some? {
        assert (before + [op.value])[..|before|] == before;
      } else {
        assert Operations(delays, actions) == before;
      }
    }
  }

  /** The action's statement takes effect although it reports an error. */
  predicate LosesItsReply(a: Action) {
    (a.Submit? || a.FailOwnRow? || a.GwDeliver? || a.Exhausted? || a.SweepTick?) && a.db.LosesReply?
  }

  lemma {:induction false} NoReplyLost(delays: seq<nat>, actions: seq<Action>)
    requires forall a :: a in actions ==> !LosesItsReply(a)
    ensures forall op :: op in Operations(delays, actions) ==> !RepliesLost(op)
  {
    if actions != [] {
      var n := |actions| - 1;
      assert actions[n] in actions;
      NoReplyLost(delays, actions[..n]);
    }
  }

  /** In every reachable state, the counters, the submissions' own failures and the
      statements that took effect and reported an error add up to the terminal
      rows. Where no statement does that, they are all there is, and each counter is
      the number of rows that ended its way. */
  lemma PipelineConserves(delays: seq<nat>, actions: seq<Action>)
    ensures Conserved(Run(delays, actions).gw)
    ensures (forall a :: a in actions ==> !LosesItsReply(a)) ==>
              var g := Run(delays, actions).gw;
              && |CompletedIds(g.rows)| == g.metrics.completed
              && |FailedIds(g.rows)| == g.metrics.failed + g.metrics.swept + g.submissionFailures
              && CounterLaws.Counts(Operations(delays, actions), g)
  {
    PipelineRunsGateway(delays, actions);
    CountersAccountForTerminalRows(Operations(delays, actions));
    if forall a :: a in actions ==> !LosesItsReply(a) {
      NoReplyLost(delays, actions);
      CounterLaws.CountersTellHowRowsEnded(Operations(delays, actions));
    }
  }

  /** With punctual sweeps, no job of the pipeline outlives twice threshold plus period. */
  lemma PipelineJobsEnd(delays: seq<nat>, actions: seq<Action>, threshold: nat, period: nat, id: string)
    requires Punctual(EMPTY, Operations(delays, actions), threshold, period)
    requires id in Run(delays, actions).gw.rows
    ensures var g := Run(delays, actions).gw;
            g.now > g.rows[id].createdAt + 2 * (threshold + period) ==> Terminal(g.rows[id].status)
  {
    PipelineRunsGateway(delays, actions);
    NoJobStaysLive(Operations(delays, actions), threshold, period, id);
  }
}
