/** The cv-generator's handler: render, check the page limit, store, then
    publish `rendered` or `failed`. As for the ai-processor, `Step` is one effect
    of a run and the handler class performs exactly these steps in order. */
module CvGenerator {
  import opened Wrappers
  import opened Events
  import opened Stream
  import opened Natsx
  import opened Projection

  const RENDER_ERROR := "The CV could not be rendered to PDF; please resubmit"
  const INVALID_INPUT_ERROR := "The submitted data could not be processed; please resubmit"
  const PAGE_LIMIT_ERROR := "The generated CV exceeded 2 pages; please shorten your career history and resubmit"
  const PAGE_LIMIT := 2

  function ObjectKey(jobId: string): string {
    "cvs/" + jobId + ".pdf"
  }

  datatype Reason = InvalidInput | RenderFailed | PageLimit

  datatype Pdf = Pdf(pages: nat)

  /** The compiler: a PDF, a Typst error, or any other exception. */
  datatype RenderResult = Compiled(pdf: Pdf) | TypstError | RenderBreaks

  /** How the upload comes back. Without a reply it may or may not have been stored. */
  datatype PutResult = Stored | PutReplyLost | NotStored

  datatype Phase =
    | Converting
    | Compiling
    | Counting(pdf: Pdf)
    | Putting(pdf: Pdf)
    | Announcing(attempt: nat)
    | Reporting(error: string)
    | Done(disposition: Disposition)

  datatype Run = Run(phase: Phase, reasons: seq<Reason>, courier: Courier)

  const START := Run(Converting, [], NEW_COURIER)

  /** What runs of one job share: the object under the job's key and its events. */
  datatype World = World(shelf: Option<Pdf>, log: Log)

  datatype Input = Input(
    invalid: Option<string>,
    render: RenderResult,
    readable: bool,
    put: PutResult,
    publish: Outcome)

  function Report(r: Run, error: string, reason: Reason): Run {
    r.(phase := Reporting(error), reasons := r.reasons + [reason])
  }

  function RenderingFailure(error: string): Event {
    JobFailed(Some((StageRendering, error)))
  }

  function Finish(r: Run, d: Disposition): Run {
    r.(phase := Done(d))
  }

  function StepReport(r: Run, w: World, error: string, o: Outcome): (Run, World) {
    var (courier, log) := Publish(r.courier, w.log, RenderingFailure(error), o);
    (Finish(r.(courier := courier), if o.reply.Accepted? then Term else Nak), w.(log := log))
  }

  function StepAnnounce(jobId: string, r: Run, w: World, attempt: nat, o: Outcome): (Run, World) {
    var (courier, log) := Publish(r.courier, w.log, JobRendered(Some(ObjectKey(jobId))), o);
    var sent := r.(courier := courier);
    (if o.reply.Accepted? then Finish(sent, Ack)
     else if o.reply.TransportError? && attempt < |PUBLISH_RETRY_DELAYS|
     then sent.(phase := Announcing(attempt + 1),
                courier := courier.(slept := courier.slept + [PUBLISH_RETRY_DELAYS[attempt]]))
     else Finish(sent, Nak),
     w.(log := log))
  }

  function Step(jobId: string, r: Run, w: World, i: Input): (Run, World) {
    match r.phase
    case Converting =>
      (if i.invalid.Some?
       then Report(r, INVALID_INPUT_ERROR + " (" + i.invalid.value + ")", InvalidInput)
       else r.(phase := Compiling), w)
    case Compiling =>
      (match i.render
       case Compiled(pdf) => r.(phase := Counting(pdf))
       case TypstError => Report(r, RENDER_ERROR, RenderFailed)
       case RenderBreaks => Finish(r, Nak), w)
    case Counting(pdf) =>
      (if !i.readable then Finish(r, Nak)
       else if pdf.pages > PAGE_LIMIT then Report(r, PAGE_LIMIT_ERROR, PageLimit)
       else r.(phase := Putting(pdf)), w)
    case Putting(pdf) =>
      (if i.put.Stored? then r.(phase := Announcing(0)) else Finish(r, Nak),
       if i.put.NotStored? then w else w.(shelf := Some(pdf)))
    case Announcing(attempt) => StepAnnounce(jobId, r, w, attempt, i.publish)
    case Reporting(error) => StepReport(r, w, error, i.publish)
    case Done(_) => (r, w)
  }

  // ---- a run left alone ----

  datatype Oracle = Oracle(
    invalid: Option<string>,
    render: RenderResult,
    readable: bool,
    put: PutResult,
    publishes: nat -> Outcome)

  function Feed(o: Oracle, r: Run): Input {
    Input(o.invalid, o.render, o.readable, o.put, o.publishes(r.courier.used))
  }

  function Remaining(p: Phase): nat {
    match p
    case Converting => 9
    case Compiling => 8
    case Counting(_) => 7
    case Putting(_) => 6
    case Announcing(a) => 3 + (if a <= |PUBLISH_RETRY_DELAYS| then |PUBLISH_RETRY_DELAYS| - a else 0)
    case Reporting(_) => 1
    case Done(_) => 0
  }

  lemma StepsRunOut(jobId: string, r: Run, w: World, i: Input)
    requires !r.phase.Done?
    ensures Remaining(Step(jobId, r, w, i).0.phase) < Remaining(r.phase)
  {
  }

  function Drive(jobId: string, r: Run, w: World, o: Oracle): (Run, World)
    decreases Remaining(r.phase)
  {
    if r.phase.Done? then (r, w)
    else
      StepsRunOut(jobId, r, w, Feed(o, r));
      var (r', w') := Step(jobId, r, w, Feed(o, r));
      Drive(jobId, r', w', o)
  }

  lemma LastStep(jobId: string, r: Run, w: World, o: Oracle)
    requires !r.phase.Done? && Step(jobId, r, w, Feed(o, r)).0.phase.Done?
    ensures Drive(jobId, r, w, o) == Step(jobId, r, w, Feed(o, r))
  {
    var (r', w') := Step(jobId, r, w, Feed(o, r));
    assert Drive(jobId, r', w', o) == (r', w');
  }

  lemma {:induction false} AnnouncingIsRetry(jobId: string, r: Run, w: World, o: Oracle)
    requires r.phase.Announcing? && r.phase.attempt <= |PUBLISH_RETRY_DELAYS|
    ensures var (courier, log, reply) :=
              Retry(r.courier, w.log, JobRendered(Some(ObjectKey(jobId))), o.publishes,
                    PUBLISH_RETRY_DELAYS, r.phase.attempt);
            Drive(jobId, r, w, o)
            == (Finish(r.(courier := courier), if reply.Accepted? then Ack else Nak), w.(log := log))
    decreases |PUBLISH_RETRY_DELAYS| - r.phase.attempt
  {
    var (r', w') := Step(jobId, r, w, Feed(o, r));
    assert Drive(jobId, r, w, o) == Drive(jobId, r', w', o);
    if r'.phase.Announcing? {
      AnnouncingIsRetry(jobId, r', w', o);
    }
  }

  // ---- the handler ----

  class JobHandler {
    const jobId: string
    const o: Oracle
    const js: JetStreamContext
    var shelf: Option<Pdf>
    var reasons: seq<Reason>

    constructor (jobId: string, js: JetStreamContext, shelf: Option<Pdf>, o: Oracle)
      requires js.outcomes == o.publishes
      ensures Valid() && this.js == js && this.o == o && this.jobId == jobId
      ensures At(Converting) == (START.(courier := js.courier), World(shelf, js.log))
    {
      this.jobId, this.js, this.shelf, this.o, reasons := jobId, js, shelf, o, [];
    }

    ghost predicate Valid() {
      js.outcomes == o.publishes
    }

    ghost function At(phase: Phase): (Run, World)
      reads this, js
    {
      (Run(phase, reasons, js.courier), World(shelf, js.log))
    }

    ghost function End(phase: Phase): (Run, World)
      reads this, js
    {
      Drive(jobId, At(phase).0, At(phase).1, o)
    }

    ghost function EndReporting(error: string, reason: Reason): (Run, World)
      reads this, js
    {
      Drive(jobId, Report(At(Converting).0, error, reason), At(Converting).1, o)
    }

    /** Publishes the failure; a publish that raises is left to redelivery. */
    method Fail(error: string, reason: Reason) returns (d: Disposition)
      requires Valid()
      modifies this`reasons, js
      ensures At(Done(d)) == old(EndReporting(error, reason))
    {
      LastStep(jobId, Report(At(Converting).0, error, reason), At(Converting).1, o);
      reasons := reasons + [reason];
      var reply := js.PublishEvent(RenderingFailure(error));
      d := if reply.Accepted? then Term else Nak;
    }

    method PutPdf(pdf: Pdf) returns (ok: bool)
      modifies this`shelf
      ensures shelf == if o.put.NotStored? then old(shelf) else Some(pdf)
      ensures ok <==> o.put.Stored?
    {
      if o.put != NotStored { shelf := Some(pdf); }
      ok := o.put.Stored?;
    }

    method Call() returns (d: Disposition)
      requires Valid()
      modifies this, js
      ensures At(Done(d)) == old(End(Converting))
    {
      if o.invalid.Some? {
        d := Fail(INVALID_INPUT_ERROR + " (" + o.invalid.value + ")", InvalidInput);
        return;
      }
      assert End(Converting) == End(Compiling);
      match o.render {
        case TypstError =>
          d := Fail(RENDER_ERROR, RenderFailed);
        case RenderBreaks =>
          LastStep(jobId, At(Compiling).0, At(Compiling).1, o);
          d := Nak;
        case Compiled(pdf) =>
          assert End(Compiling) == End(Counting(pdf));
          d := Deliver(pdf);
      }
    }

    /** From the rendered bytes on: page limit, upload, publish. */
    method Deliver(pdf: Pdf) returns (d: Disposition)
      requires Valid()
      modifies this, js
      ensures At(Done(d)) == old(End(Counting(pdf)))
    {
      if !o.readable {
        LastStep(jobId, At(Counting(pdf)).0, At(Counting(pdf)).1, o);
        return Nak;
      }
      var pageCount := pdf.pages;
      if pageCount > PAGE_LIMIT {
        d := Fail(PAGE_LIMIT_ERROR, PageLimit);
        return;
      }
      assert End(Counting(pdf)) == End(Putting(pdf));
      ghost var before := At(Putting(pdf));
      var stored := PutPdf(pdf);
      if !stored {
        LastStep(jobId, before.0, before.1, o);
        return Nak;
      }
      assert End(Announcing(0)) == old(End(Putting(pdf)));
      AnnouncingIsRetry(jobId, At(Announcing(0)).0, At(Announcing(0)).1, o);
      var reply := js.PublishWithRetry(JobRendered(Some(ObjectKey(jobId))), PUBLISH_RETRY_DELAYS);
      d := if reply.Accepted? then Ack else Nak;
    }
  }
}
