/** A job of a model that bills is structured at most once: only the run that took
    its key can announce a CV, and a run announces one CV. That cuts the deliveries
    it can cause. */
module BilledLaws {
  import opened Wrappers
  import opened Subjects
  import opened Events
  import opened Stream
  import opened JobStore
  import opened Projection
  import opened ProjectionLaws
  import opened Pipeline
  import opened WorkerLaws
  import opened JobLaws
  import opened DeliveryBound
  import opened PipelineLaws
  import opened JobFates
  import opened KeyLaws
  import Ai = AiProcessor
  import Cv = CvGenerator

  // ---- counting `structured` ----

  lemma {:induction false} SameEventsCount(log: Log, after: Log)
    requires |after| == |log| && forall i :: 0 <= i < |log| ==> after[i].event == log[i].event
    ensures Structureds(after) == Structureds(log)
  {
    if log != [] {
      SameEventsCount(log[..|log| - 1], after[..|log| - 1]);
    }
  }

  lemma AppendsCount(log: Log, after: Log)
    requires Appends(log, after)
    ensures Structureds(after)
            == Structureds(log) + (if after != log && after[|log|].event.JobStructured? then 1 else 0)
  {
    if after != log {
      assert after[..|after| - 1] == log;
    }
  }

  // ---- runs of a model that bills ----

  /** Past the claim, such a run holds the key. */
  predicate BilledRun(r: Ai.Run) {
    match r.phase
    case Claiming(provider) => !provider.Fake?
    case Building(provider) => r.holdsKey && !provider.Fake?
    case Calling(_) => r.holdsKey
    case Converting(_) => r.holdsKey
    case Announcing(_, _) => r.holdsKey
    case _ => true
  }

  lemma BilledRunGoesOn(delays: seq<nat>, r: Ai.Run, w: Ai.World, i: Ai.Input)
    requires BilledRun(r) && (i.lookup.Found? ==> !i.lookup.provider.Fake?)
    ensures BilledRun(Ai.Step(delays, r, w, i).0)
    ensures r.holdsKey ==> Ai.Step(delays, r, w, i).0.holdsKey
  {
  }

  lemma OnlyHoldersAnnounce(delays: seq<nat>, r: Ai.Run, w: Ai.World, i: Ai.Input)
    requires BilledRun(r) && AiCourierOk(r, w.log)
    ensures var (r', w') := Ai.Step(delays, r, w, i);
            Appends(w.log, w'.log)
            && (w'.log != w.log && w'.log[|w.log|].event.JobStructured? ==>
                  r.holdsKey && r'.holdsKey && !r.courier.stored && r'.courier.stored)
            && (r.courier.stored ==> r'.courier.stored)
  {
    AiPublishes(delays, r, w, i);
  }

  /** At most one `structured`, and if there is one, the run that holds the key stored its message. */
  ghost predicate OnceStructured(j: Job) {
    && (forall w :: 0 <= w < |j.ai| ==> BilledRun(j.ai[w].run))
    && Structureds(j.log) <= 1
    && (Structureds(j.log) == 1 ==> exists w :: 0 <= w < |j.ai| && HasStored(j.ai[w].run))
  }

  predicate HasStored(r: Ai.Run) {
    r.holdsKey && r.courier.stored
  }

  lemma BooksKeepOnce(j: Job, after: Job)
    requires OnceStructured(j) && Bookkeeping(j, after)
    ensures OnceStructured(after)
  {
    forall i | 0 <= i < |j.log| ensures after.log[i].event == j.log[i].event {
      assert MsgMoves(j.log[i], after.log[i]);
    }
    SameEventsCount(j.log, after.log);
    if Structureds(j.log) == 1 {
      var w :| 0 <= w < |j.ai| && HasStored(j.ai[w].run);
      assert HasStored(after.ai[w].run);
    }
  }

  lemma AiActKeepsOnce(delays: seq<nat>, j: Job, work: nat, input: Ai.Input)
    requires OnceStructured(j) && Couriers(j) && OneClaim(|delays|, j)
    requires input.lookup.Found? ==> !input.lookup.provider.Fake?
    ensures OnceStructured(DoAiAct(delays, j, work, input))
  {
    if work < |j.ai| && j.ai[work].live {
      var run, w := j.ai[work].run, Ai.World(j.key, j.log);
      var after := DoAiAct(delays, j, work, input);
      BilledRunGoesOn(delays, run, w, input);
      OnlyHoldersAnnounce(delays, run, w, input);
      AppendsCount(j.log, after.log);
      if Structureds(j.log) == 1 {
        var v :| 0 <= v < |j.ai| && HasStored(j.ai[v].run);
        assert v != work ==> after.ai[v] == j.ai[v];
        assert HasStored(after.ai[v].run);
      } else if Structureds(after.log) == 1 {
        assert HasStored(after.ai[work].run);
      }
    }
  }

  lemma CvActKeepsOnce(id: string, j: Job, work: nat, input: Cv.Input)
    requires OnceStructured(j) && Couriers(j) && Provenance(j)
    ensures OnceStructured(DoCvAct(id, j, work, input))
  {
    if work < |j.cv| && j.cv[work].live {
      CvPublishes(id, j.cv[work].run, Cv.World(j.shelf, j.log), input);
      AppendsCount(j.log, DoCvAct(id, j, work, input).log);
    }
  }

  lemma PublishKeepsOnce(j: Job, o: Outcome)
    requires OnceStructured(j)
    ensures OnceStructured(DoPublish(j, o))
  {
    if j.submission.Publishing? {
      PublishAppends(NEW_COURIER, j.log, JobRequested, o);
      AppendsCount(j.log, DoPublish(j, o).log);
    }
  }

  lemma AiBooksKeepOnce(delays: seq<nat>, id: string, j: Job, a: JobAction, now: int)
    requires OnceStructured(j) && Shaped(id, j) && (a.AiDeliver? || a.AiSettle? || a.AiCrash?)
    ensures OnceStructured(JobNext(delays, id, j, a, now))
  {
    if a.AiDeliver? {
      AiDeliverBooks(id, j, a.msg);
    } else if a.AiSettle? {
      AiSettleBooks(j, a.work, a.lost);
    } else {
      AiCrashBooks(j, a.work);
    }
    BooksKeepOnce(j, JobNext(delays, id, j, a, now));
  }

  lemma CvBooksKeepOnce(delays: seq<nat>, id: string, j: Job, a: JobAction, now: int)
    requires OnceStructured(j) && Shaped(id, j) && (a.CvDeliver? || a.CvSettle? || a.CvCrash?)
    ensures OnceStructured(JobNext(delays, id, j, a, now))
  {
    if a.CvDeliver? {
      CvDeliverBooks(id, j, a.msg);
    } else if a.CvSettle? {
      CvSettleBooks(j, a.work, a.lost);
    } else {
      CvCrashBooks(j, a.work);
    }
    BooksKeepOnce(j, JobNext(delays, id, j, a, now));
  }

  lemma SameStreamKeepsOnce(j: Job, after: Job)
    requires OnceStructured(j) && after.log == j.log && after.ai == j.ai
    ensures OnceStructured(after)
  {
  }

  lemma JobNextKeepsOnce(delays: seq<nat>, id: string, j: Job, a: JobAction, now: int)
    requires OnceStructured(j) && JobOk(|delays|, id, j, now)
    requires a.AiAct? && a.input.lookup.Found? ==> !a.input.lookup.provider.Fake?
    ensures OnceStructured(JobNext(delays, id, j, a, now))
  {
    if a.AiAct? {
      AiActKeepsOnce(delays, j, a.work, a.input);
    } else if a.CvAct? {
      CvActKeepsOnce(id, j, a.work, a.cvInput);
    } else if a.PublishRequested? {
      PublishKeepsOnce(j, a.publish);
    } else if a.AiDeliver? || a.AiSettle? || a.AiCrash? {
      AiBooksKeepOnce(delays, id, j, a, now);
    } else if a.CvDeliver? || a.CvSettle? || a.CvCrash? {
      CvBooksKeepOnce(delays, id, j, a, now);
    } else {
      SameStreamKeepsOnce(j, JobNext(delays, id, j, a, now));
    }
  }

  lemma OnceStructuredNext(delays: seq<nat>, s: System, a: Action, id: string)
    requires id in s.jobs && OnceStructured(s.jobs[id])
    requires JobOk(|delays|, id, s.jobs[id], s.gw.now)
    requires a.Act? && a.id == id && a.action.AiAct? && a.action.input.lookup.Found? ==>
               !a.action.input.lookup.provider.Fake?
    ensures id in JobsNext(delays, s, a) && OnceStructured(JobsNext(delays, s, a)[id])
  {
    var j, after := s.jobs[id], JobsNext(delays, s, a)[id];
    if a.Act? && a.id == id {
      assert after == JobNext(delays, id, j, a.action, s.gw.now);
      JobNextKeepsOnce(delays, id, j, a.action, s.gw.now);
    } else if a.GwDeliver? && a.id == id && CanDeliver(s, id, a.msg) {
      var e := j.log[a.msg].event;
      var d := OnMessage(s.gw, Subject(id, Suffix(e)), Encode(e), a.db).1;
      assert after == GwDelivered(j, a.msg, d, a.lost);
      GwDeliverBooks(j, a.msg, d, a.lost);
      BooksKeepOnce(j, after);
    } else {
      SameStreamKeepsOnce(j, after);
    }
  }

  lemma {:induction false} RunIsOnceStructured(delays: seq<nat>, fake: map<string, bool>, actions: seq<Action>,
                                               id: string)
    requires LawfulRun(delays, fake, actions)
    requires id in Run(delays, actions).jobs && id in Run(delays, actions).gw.rows
    requires var model := Run(delays, actions).gw.rows[id].spec.modelKey; model in fake && !fake[model]
    ensures OnceStructured(Run(delays, actions).jobs[id])
  {
    var n := |actions| - 1;
    var s := Run(delays, actions[..n]);
    if id in s.jobs {
      RunStands(delays, actions[..n]);
      JobIsOk(|delays|, s, id);
      RowsFollow(delays, actions, id);
      RunIsOnceStructured(delays, fake, actions[..n], id);
      OnceStructuredNext(delays, s, actions[n], id);
    }
  }

  /** Over every run whose submissions passed the gateway's checks and whose bucket
      agrees with its catalog, a job of a model that bills has at most one
      `structured` in its stream and causes at most 41 deliveries. */
  lemma BilledDeliveriesAreBounded(delays: seq<nat>, fake: map<string, bool>, actions: seq<Action>, id: string)
    requires LawfulRun(delays, fake, actions)
    requires id in Run(delays, actions).jobs && id in Run(delays, actions).gw.rows
    requires var model := Run(delays, actions).gw.rows[id].spec.modelKey; model in fake && !fake[model]
    ensures var j := Run(delays, actions).jobs[id];
            Structureds(j.log) <= 1 && j.deliveries <= 41
  {
    RunIsOnceStructured(delays, fake, actions, id);
    DeliveriesAreBounded(delays, actions, id);
  }
}
