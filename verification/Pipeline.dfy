/** The whole pipeline as one transition system. Any number of jobs; for each,
    a submission, redelivered and overlapping worker runs that advance one effect
    at a time, event deliveries to the gateway and max-deliveries advisories;
    over all of them the sweeper and the clock. A run of the system is any
    sequence of actions; an action that is not enabled changes nothing. */
module Pipeline {
  import opened Wrappers
  import opened Subjects
  import opened Events
  import opened Stream
  import opened JobStore
  import opened Projection
  import Submission
  import Ai = AiProcessor
  import Cv = CvGenerator

  /** A worker run in flight: its state and the message it was delivered. A run
      that was settled or whose process died is no longer live. */
  datatype AiWork = AiWork(run: Ai.Run, msg: nat, live: bool)
  datatype CvWork = CvWork(run: Cv.Run, msg: nat, live: bool)

  /** One job. The last line are tallies of what happened, read by nothing. */
  datatype Job = Job(
    submission: Submission.Phase,
    handed: bool,                 // the form carried an API key
    key: Option<Ai.ApiKey>,
    log: Log,
    shelf: Option<Cv.Pdf>,
    ai: seq<AiWork>,
    cv: seq<CvWork>,
    submittedAt: int, taken: bool, expired: bool, claims: nat, keyCalls: nat, deliveries: nat)

  datatype Consumer = AiConsumer | CvConsumer | GwConsumer

  /** What happens to one job without touching the jobs table. */
  datatype JobAction =
    | PutKey(utf8: bool, put: Submission.KeyPut)
    | PublishRequested(publish: Outcome)
    | ExpireKey
    | AiDeliver(msg: nat)
    | AiAct(work: nat, input: Ai.Input)
    | AiSettle(work: nat, lost: bool)
    | AiCrash(work: nat)
    | CvDeliver(msg: nat)
    | CvAct(work: nat, cvInput: Cv.Input)
    | CvSettle(work: nat, lost: bool)
    | CvCrash(work: nat)

  datatype Action =
    | Submit(id: string, spec: JobSpec, apiKey: string, db: Db)
    | FailOwnRow(id: string, db: Db)
    | Act(id: string, action: JobAction)
    | GwDeliver(id: string, msg: nat, db: Db, lost: bool)
    | Exhausted(id: string, msg: nat, consumer: Consumer, db: Db)
    | SweepTick(olderThan: nat, db: Db)
    | Wait(seconds: nat)

  datatype System = System(gw: Gateway, jobs: map<string, Job>)

  const INIT := System(EMPTY, map[])

  // ---- deliveries and settlements ----

  predicate Deliverable(s: Sub) {
    s.Sub? && s.settled.Open? && s.left > 0
  }

  predicate Starved(s: Sub) {
    s.Sub? && s.settled.Open? && s.left == 0
  }

  function Delivered(s: Sub): Sub
    requires Deliverable(s)
  {
    s.(left := s.left - 1)
  }

  /** The first settlement that arrives stands; a nak settles nothing. */
  function Settled(s: Sub, d: Disposition, lost: bool): Sub {
    if lost || d.Nak? || !s.Sub? || !s.settled.Open? then s
    else s.(settled := if d.Ack? then Acked else Termed)
  }

  function SubOf(m: Stored, c: Consumer): Sub {
    match c
    case AiConsumer => m.ai
    case CvConsumer => m.cv
    case GwConsumer => m.gw
  }

  // ---- one job ----

  function Submitted(apiKey: string, now: int): Job {
    Job(Submission.Begin(apiKey), apiKey != "", None, [], None, [], [], now, false, false, 0, 0, 0)
  }

  function DoPutKey(j: Job, utf8: bool, put: Submission.KeyPut, now: int): Job {
    if !j.submission.PuttingKey? then j
    else
      var h := Submission.PutKey(Submission.HandOff(j.submission, j.key, j.log), utf8, put, now);
      j.(submission := h.phase, key := h.key)
  }

  function DoPublish(j: Job, o: Outcome): Job {
    if !j.submission.Publishing? then j
    else
      var h := Submission.PublishRequested(Submission.HandOff(j.submission, j.key, j.log), o);
      j.(submission := h.phase, log := h.log)
  }

  function DoExpire(j: Job, now: int): Job {
    if j.key.None? || now < j.key.value.expiresAt then j else j.(key := None, expired := true)
  }

  function DoAiDeliver(j: Job, msg: nat): Job {
    if msg >= |j.log| || !Deliverable(j.log[msg].ai) then j
    else
      j.(log := j.log[msg := j.log[msg].(ai := Delivered(j.log[msg].ai))],
         ai := j.ai + [AiWork(Ai.START, msg, true)],
         deliveries := j.deliveries + 1)
  }

  function DoAiAct(delays: seq<nat>, j: Job, work: nat, input: Ai.Input): Job {
    if work >= |j.ai| || !j.ai[work].live then j
    else
      var run := j.ai[work].run;
      var (run', world') := Ai.Step(delays, run, Ai.World(j.key, j.log), input);
      j.(ai := j.ai[work := j.ai[work].(run := run')],
         key := world'.key,
         log := world'.log,
         taken := j.taken || (j.key.Some? && world'.key.None?),
         claims := j.claims + (if run'.holdsKey && !run.holdsKey then 1 else 0),
         keyCalls := j.keyCalls + (if run.holdsKey && run'.calls > run.calls then run'.calls - run.calls else 0))
  }

  function DoAiSettle(j: Job, work: nat, lost: bool): Job {
    if work >= |j.ai| || !j.ai[work].live || !j.ai[work].run.phase.Done? || j.ai[work].msg >= |j.log| then j
    else
      var m := j.ai[work].msg;
      j.(ai := j.ai[work := j.ai[work].(live := false)],
         log := j.log[m := j.log[m].(ai := Settled(j.log[m].ai, j.ai[work].run.phase.disposition, lost))])
  }

  function DoAiCrash(j: Job, work: nat): Job {
    if work >= |j.ai| then j else j.(ai := j.ai[work := j.ai[work].(live := false)])
  }

  function DoCvDeliver(j: Job, msg: nat): Job {
    if msg >= |j.log| || !Deliverable(j.log[msg].cv) then j
    else
      j.(log := j.log[msg := j.log[msg].(cv := Delivered(j.log[msg].cv))],
         cv := j.cv + [CvWork(Cv.START, msg, true)],
         deliveries := j.deliveries + 1)
  }

  function DoCvAct(id: string, j: Job, work: nat, input: Cv.Input): Job {
    if work >= |j.cv| || !j.cv[work].live then j
    else
      var (run', world') := Cv.Step(id, j.cv[work].run, Cv.World(j.shelf, j.log), input);
      j.(cv := j.cv[work := j.cv[work].(run := run')], shelf := world'.shelf, log := world'.log)
  }

  function DoCvSettle(j: Job, work: nat, lost: bool): Job {
    if work >= |j.cv| || !j.cv[work].live || !j.cv[work].run.phase.Done? || j.cv[work].msg >= |j.log| then j
    else
      var m := j.cv[work].msg;
      j.(cv := j.cv[work := j.cv[work].(live := false)],
         log := j.log[m := j.log[m].(cv := Settled(j.log[m].cv, j.cv[work].run.phase.disposition, lost))])
  }

  function DoCvCrash(j: Job, work: nat): Job {
    if work >= |j.cv| then j else j.(cv := j.cv[work := j.cv[work].(live := false)])
  }

  function JobNext(delays: seq<nat>, id: string, j: Job, a: JobAction, now: int): Job {
    match a
    case PutKey(utf8, put) => DoPutKey(j, utf8, put, now)
    case PublishRequested(o) => DoPublish(j, o)
    case ExpireKey => DoExpire(j, now)
    case AiDeliver(msg) => DoAiDeliver(j, msg)
    case AiAct(work, input) => DoAiAct(delays, j, work, input)
    case AiSettle(work, lost) => DoAiSettle(j, work, lost)
    case AiCrash(work) => DoAiCrash(j, work)
    case CvDeliver(msg) => DoCvDeliver(j, msg)
    case CvAct(work, input) => DoCvAct(id, j, work, input)
    case CvSettle(work, lost) => DoCvSettle(j, work, lost)
    case CvCrash(work) => DoCvCrash(j, work)
  }

  /** A delivery of message `msg` to the gateway, settled as its handler decides. */
  function GwDelivered(j: Job, msg: nat, d: Disposition, lost: bool): Job
    requires msg < |j.log| && Deliverable(j.log[msg].gw)
  {
    j.(log := j.log[msg := j.log[msg].(gw := Settled(Delivered(j.log[msg].gw), d, lost))],
       deliveries := j.deliveries + 1)
  }

  // ---- the system ----

  predicate CanDeliver(s: System, id: string, msg: nat) {
    id in s.jobs && msg < |s.jobs[id].log| && Deliverable(s.jobs[id].log[msg].gw)
  }

  /** The operation an action performs on the gateway's state. */
  function GatewayOp(s: System, a: Action): Option<Op> {
    match a
    case Submit(id, spec, _, db) =>
      if id in s.jobs || id in s.gw.rows || '.' in id then None else Some(Op.Create(id, spec, db))
    case FailOwnRow(id, db) =>
      if id in s.jobs && s.jobs[id].submission.FailingRow?
      then Some(Op.FailSubmission(id, s.jobs[id].submission.text, db)) else None
    case Act(_, _) => None
    case GwDeliver(id, msg, db, _) =>
      if CanDeliver(s, id, msg)
      then var e := s.jobs[id].log[msg].event; Some(Op.Message(Subject(id, Suffix(e)), Encode(e), db))
      else None
    case Exhausted(id, msg, consumer, db) =>
      if id in s.jobs && msg < |s.jobs[id].log| && Starved(SubOf(s.jobs[id].log[msg], consumer))
      then Some(Op.Advisory(Some(Subject(id, Suffix(s.jobs[id].log[msg].event))), db)) else None
    case SweepTick(olderThan, db) => Some(Op.Sweep(olderThan, db))
    case Wait(seconds) => Some(Op.Tick(seconds))
  }

  function JobsNext(delays: seq<nat>, s: System, a: Action): map<string, Job> {
    match a
    case Submit(id, _, apiKey, db) =>
      // Only a committed and acknowledged insert goes on to the hand-off.
      if GatewayOp(s, a).None? || !db.Commits? then s.jobs else s.jobs[id := Submitted(apiKey, s.gw.now)]
    case FailOwnRow(id, _) =>
      if GatewayOp(s, a).None? then s.jobs else s.jobs[id := s.jobs[id].(submission := Submission.Finished)]
    case Act(id, action) =>
      if id in s.jobs then s.jobs[id := JobNext(delays, id, s.jobs[id], action, s.gw.now)] else s.jobs
    case GwDeliver(id, msg, db, lost) =>
      if !CanDeliver(s, id, msg) then s.jobs
      else
        var e := s.jobs[id].log[msg].event;
        var d := OnMessage(s.gw, Subject(id, Suffix(e)), Encode(e), db).1;
        s.jobs[id := GwDelivered(s.jobs[id], msg, d, lost)]
    case _ => s.jobs
  }

  function Advance(delays: seq<nat>, s: System, a: Action): System {
    var op := GatewayOp(s, a);
    System(if op.None? then s.gw else Projection.Next(s.gw, op.value), JobsNext(delays, s, a))
  }

  function Run(delays: seq<nat>, actions: seq<Action>): System {
    if actions == [] then INIT
    else Advance(delays, Run(delays, actions[..|actions| - 1]), actions[|actions| - 1])
  }
}
