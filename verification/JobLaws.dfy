/** What every action of the pipeline keeps of one job, however its runs interleave:
    the shape of its stream, runs that stand by the message they stored, the
    provenance of every announced PDF, at most one run that ever claimed the key,
    settlements that have their event in the stream, and a key that is still there
    or accounted for. `JobOk` in full is kept by PipelineLaws; here each part is, first by
    the bookkeeping of deliveries, then by the effects of either worker's runs where
    they touch it. */
module JobLaws {
  import opened Wrappers
  import opened Subjects
  import opened Events
  import opened Stream
  import opened Projection
  import opened Pipeline
  import opened WorkerLaws
  import Submission
  import Ai = AiProcessor
  import Cv = CvGenerator

  // ---- what the stream holds ----

  predicate KnownEvent(id: string, e: Event) {
    e.JobRequested? || AiEvent(e) || CvEvent(id, e)
  }

  predicate MsgOk(id: string, m: Stored, first: bool) {
    && KnownEvent(id, m.event)
    && (m.event.JobRequested? <==> first)
    && (m.ai.Sub? <==> m.event.JobRequested?)
    && (m.cv.Sub? <==> m.event.JobStructured?)
    && m.gw.Sub?
  }

  /** `requested` is stored once and first; runs work on the events their consumer filters for. */
  ghost predicate Shaped(id: string, j: Job) {
    && (forall i :: 0 <= i < |j.log| ==> MsgOk(id, j.log[i], i == 0))
    && (j.submission.PuttingKey? || j.submission.Publishing? ==> j.log == [])
    && (forall w :: 0 <= w < |j.ai| ==> j.ai[w].msg < |j.log| && j.log[j.ai[w].msg].event.JobRequested?)
    && (forall w :: 0 <= w < |j.cv| ==> j.cv[w].msg < |j.log| && j.log[j.cv[w].msg].event.JobStructured?)
  }

  // ---- actions that only move deliveries along ----

  predicate MsgMoves(m: Stored, after: Stored) {
    && after.event == m.event
    && after.ai.Sub? == m.ai.Sub? && after.cv.Sub? == m.cv.Sub? && after.gw.Sub? == m.gw.Sub?
  }

  /** Deliveries, settlements and crashes: no run advances, no event is stored. */
  ghost predicate Bookkeeping(j: Job, after: Job) {
    && |after.log| == |j.log| && (forall i :: 0 <= i < |j.log| ==> MsgMoves(j.log[i], after.log[i]))
    && after.(log := j.log, ai := j.ai, cv := j.cv, deliveries := j.deliveries) == j
    && |j.ai| <= |after.ai|
    && (forall w :: 0 <= w < |j.ai| ==> after.ai[w].run == j.ai[w].run && after.ai[w].msg == j.ai[w].msg)
    && (forall w :: |j.ai| <= w < |after.ai| ==>
          after.ai[w].run == Ai.START && after.ai[w].msg < |j.log| && j.log[after.ai[w].msg].event.JobRequested?)
    && |j.cv| <= |after.cv|
    && (forall w :: 0 <= w < |j.cv| ==> after.cv[w].run == j.cv[w].run && after.cv[w].msg == j.cv[w].msg)
    && (forall w :: |j.cv| <= w < |after.cv| ==>
          after.cv[w].run == Cv.START && after.cv[w].msg < |j.log| && j.log[after.cv[w].msg].event.JobStructured?)
  }

  lemma AiDeliverBooks(id: string, j: Job, msg: nat)
    requires Shaped(id, j)
    ensures Bookkeeping(j, DoAiDeliver(j, msg))
  {
    if msg < |j.log| { assert MsgOk(id, j.log[msg], msg == 0); }
  }

  lemma CvDeliverBooks(id: string, j: Job, msg: nat)
    requires Shaped(id, j)
    ensures Bookkeeping(j, DoCvDeliver(j, msg))
  {
    if msg < |j.log| { assert MsgOk(id, j.log[msg], msg == 0); }
  }

  lemma AiSettleBooks(j: Job, work: nat, lost: bool)
    ensures Bookkeeping(j, DoAiSettle(j, work, lost))
  {
  }

  lemma CvSettleBooks(j: Job, work: nat, lost: bool)
    ensures Bookkeeping(j, DoCvSettle(j, work, lost))
  {
  }

  lemma AiCrashBooks(j: Job, work: nat)
    ensures Bookkeeping(j, DoAiCrash(j, work))
  {
  }

  lemma CvCrashBooks(j: Job, work: nat)
    ensures Bookkeeping(j, DoCvCrash(j, work))
  {
  }

  lemma GwDeliverBooks(j: Job, msg: nat, d: Disposition, lost: bool)
    requires msg < |j.log| && Deliverable(j.log[msg].gw)
    ensures Bookkeeping(j, GwDelivered(j, msg, d, lost))
  {
  }

  // ---- shape ----

  lemma BooksKeepShape(id: string, j: Job, after: Job)
    requires Shaped(id, j) && Bookkeeping(j, after)
    ensures Shaped(id, after)
  {
    forall i | 0 <= i < |after.log| ensures MsgOk(id, after.log[i], i == 0) {
      assert MsgOk(id, j.log[i], i == 0) && MsgMoves(j.log[i], after.log[i]);
    }
    forall w | 0 <= w < |after.ai|
      ensures after.ai[w].msg < |after.log| && after.log[after.ai[w].msg].event.JobRequested?
    {
      assert MsgMoves(j.log[after.ai[w].msg], after.log[after.ai[w].msg]);
    }
    forall w | 0 <= w < |after.cv|
      ensures after.cv[w].msg < |after.log| && after.log[after.cv[w].msg].event.JobStructured?
    {
      assert MsgMoves(j.log[after.cv[w].msg], after.log[after.cv[w].msg]);
    }
  }

  lemma FreshIsOk(id: string, e: Event, first: bool)
    requires KnownEvent(id, e) && (e.JobRequested? <==> first)
    ensures MsgOk(id, Fresh(e), first)
  {
  }

  /** Every run that stored its message is still on that message or done. */
  ghost predicate Couriers(j: Job) {
    && (forall w :: 0 <= w < |j.ai| ==> AiCourierOk(j.ai[w].run, j.log))
    && (forall w :: 0 <= w < |j.cv| ==> CvCourierOk(j.cv[w].run, j.log))
  }

  lemma BooksHold(j: Job, after: Job)
    requires Bookkeeping(j, after)
    ensures forall s :: Holds(j.log, s) <==> Holds(after.log, s)
  {
    forall s ensures Holds(j.log, s) <==> Holds(after.log, s) {
      if Holds(j.log, s) {
        var i :| 0 <= i < |j.log| && Suffix(j.log[i].event) == s;
        assert MsgMoves(j.log[i], after.log[i]);
      }
      if Holds(after.log, s) {
        var i :| 0 <= i < |after.log| && Suffix(after.log[i].event) == s;
        assert MsgMoves(j.log[i], after.log[i]);
      }
    }
  }

  lemma AppendsHold(log: Log, after: Log)
    requires Appends(log, after)
    ensures forall s :: Holds(log, s) ==> Holds(after, s)
  {
    forall s | Holds(log, s) ensures Holds(after, s) {
      HoldsAfter(log, after, s);
    }
  }

  lemma BooksKeepCouriers(j: Job, after: Job)
    requires Couriers(j) && Bookkeeping(j, after)
    ensures Couriers(after)
  {
    BooksHold(j, after);
  }

  lemma AiActKeepsShape(delays: seq<nat>, id: string, j: Job, work: nat, input: Ai.Input)
    requires Shaped(id, j) && Couriers(j)
    ensures Shaped(id, DoAiAct(delays, j, work, input))
    ensures Appends(j.log, DoAiAct(delays, j, work, input).log)
  {
    if work < |j.ai| && j.ai[work].live {
      AiPublishes(delays, j.ai[work].run, Ai.World(j.key, j.log), input);
      var after := DoAiAct(delays, j, work, input);
      if after.log != j.log {
        FreshIsOk(id, after.log[|j.log|].event, false);
        assert j.ai[work].msg < |j.log|;
      }
    }
  }

  lemma AiActKeepsCouriers(delays: seq<nat>, j: Job, work: nat, input: Ai.Input)
    requires Couriers(j)
    ensures Couriers(DoAiAct(delays, j, work, input))
  {
    if work < |j.ai| && j.ai[work].live {
      AiPublishes(delays, j.ai[work].run, Ai.World(j.key, j.log), input);
      AppendsHold(j.log, DoAiAct(delays, j, work, input).log);
    }
  }

  // ---- provenance of the PDF ----

  ghost predicate Provenance(j: Job) {
    && (j.shelf.Some? ==> j.shelf.value.pages <= Cv.PAGE_LIMIT)
    && (forall w :: 0 <= w < |j.cv| ==> CvRunOk(j.cv[w].run, j.shelf))
    && (Holds(j.log, EVENT_RENDERED) ==> j.shelf.Some? && Holds(j.log, EVENT_STRUCTURED))
  }

  lemma CvActKeepsShape(id: string, j: Job, work: nat, input: Cv.Input)
    requires Shaped(id, j) && Couriers(j) && Provenance(j)
    ensures Shaped(id, DoCvAct(id, j, work, input))
    ensures Appends(j.log, DoCvAct(id, j, work, input).log)
  {
    if work < |j.cv| && j.cv[work].live {
      CvPublishes(id, j.cv[work].run, Cv.World(j.shelf, j.log), input);
      var after := DoCvAct(id, j, work, input);
      if after.log != j.log {
        FreshIsOk(id, after.log[|j.log|].event, false);
        assert j.cv[work].msg < |j.log|;
      }
    }
  }

  lemma CvActKeepsCouriers(id: string, j: Job, work: nat, input: Cv.Input)
    requires Couriers(j) && Provenance(j)
    ensures Couriers(DoCvAct(id, j, work, input))
  {
    if work < |j.cv| && j.cv[work].live {
      CvPublishes(id, j.cv[work].run, Cv.World(j.shelf, j.log), input);
      AppendsHold(j.log, DoCvAct(id, j, work, input).log);
    }
  }

  lemma BooksKeepProvenance(j: Job, after: Job)
    requires Provenance(j) && Bookkeeping(j, after)
    ensures Provenance(after)
  {
    BooksHold(j, after);
  }

  lemma LastEventHolds(log: Log, after: Log, suffix: string)
    requires Appends(log, after) && after != log
    ensures Holds(after, suffix) <==> Holds(log, suffix) || Suffix(after[|log|].event) == suffix
  {
    if Holds(log, suffix) { HoldsAfter(log, after, suffix); }
    if Holds(after, suffix) {
      var i :| 0 <= i < |after| && Suffix(after[i].event) == suffix;
      assert i < |log| ==> after[i] == log[i];
    }
  }

  lemma AiActKeepsProvenance(delays: seq<nat>, j: Job, work: nat, input: Ai.Input)
    requires Provenance(j) && Couriers(j)
    ensures Provenance(DoAiAct(delays, j, work, input))
  {
    if work < |j.ai| && j.ai[work].live {
      AiPublishes(delays, j.ai[work].run, Ai.World(j.key, j.log), input);
      var after := DoAiAct(delays, j, work, input);
      if after.log != j.log {
        LastEventHolds(j.log, after.log, EVENT_RENDERED);
        LastEventHolds(j.log, after.log, EVENT_STRUCTURED);
      }
    }
  }

  lemma CvActKeepsProvenance(id: string, j: Job, work: nat, input: Cv.Input)
    requires Provenance(j) && Couriers(j) && Shaped(id, j)
    ensures Provenance(DoCvAct(id, j, work, input))
  {
    if work < |j.cv| && j.cv[work].live {
      var w := Cv.World(j.shelf, j.log);
      CvPublishes(id, j.cv[work].run, w, input);
      CvStores(id, j.cv[work].run, w, input);
      var after := DoCvAct(id, j, work, input);
      forall v | 0 <= v < |after.cv| ensures CvRunOk(after.cv[v].run, after.shelf) {
        assert CvRunOk(j.cv[v].run, j.shelf);
      }
      assert Suffix(j.log[j.cv[work].msg].event) == EVENT_STRUCTURED;
      if after.log != j.log {
        LastEventHolds(j.log, after.log, EVENT_RENDERED);
        LastEventHolds(j.log, after.log, EVENT_STRUCTURED);
      }
    }
  }

  // ---- the one-shot key ----

  /** At most one run ever obtained the key, and the calls made with it are that run's own. */
  ghost predicate OneClaim(n: nat, j: Job) {
    && j.claims <= 1 && j.keyCalls <= n + 1
    && (j.key.Some? || j.submission.PuttingKey? ==> j.claims == 0)
    && (j.submission.PuttingKey? ==> j.key.None?)
    && (j.claims == 0 ==> j.keyCalls == 0)
    && (forall w :: 0 <= w < |j.ai| ==>
          AiRunOk(n, j.ai[w].run) && (j.ai[w].run.holdsKey ==> j.claims == 1 && j.keyCalls == j.ai[w].run.calls))
    && (forall v, w :: 0 <= v < w < |j.ai| ==> !(j.ai[v].run.holdsKey && j.ai[w].run.holdsKey))
  }

  lemma BooksKeepOneClaim(n: nat, j: Job, after: Job)
    requires OneClaim(n, j) && Bookkeeping(j, after)
    ensures OneClaim(n, after)
  {
  }

  lemma AiActKeepsOneClaim(delays: seq<nat>, j: Job, work: nat, input: Ai.Input)
    requires OneClaim(|delays|, j)
    ensures OneClaim(|delays|, DoAiAct(delays, j, work, input))
  {
    if work < |j.ai| && j.ai[work].live {
      var run, w := j.ai[work].run, Ai.World(j.key, j.log);
      AiRunStaysOk(delays, run, w, input);
      AiCallsCount(delays, run, w, input);
      AiKeyMoves(delays, run, w, input);
      var (run', world') := Ai.Step(delays, run, w, input);
      AiActClaims(delays, j, work, input, run', world');
    }
  }

  lemma AiActClaims(delays: seq<nat>, j: Job, work: nat, input: Ai.Input, run': Ai.Run, world': Ai.World)
    requires OneClaim(|delays|, j) && work < |j.ai| && j.ai[work].live
    requires (run', world') == Ai.Step(delays, j.ai[work].run, Ai.World(j.key, j.log), input)
    requires AiRunOk(|delays|, run') && j.ai[work].run.calls <= run'.calls
    requires world'.key == j.key || world'.key.None?
    requires j.ai[work].run.holdsKey ==> run'.holdsKey
    requires run'.holdsKey && !j.ai[work].run.holdsKey ==>
               j.ai[work].run.phase.Claiming? && j.key.Some? && world'.key.None?
    requires run'.calls > j.ai[work].run.calls ==> j.ai[work].run.phase.Calling?
    ensures OneClaim(|delays|, DoAiAct(delays, j, work, input))
  {
    assert AiRunOk(|delays|, j.ai[work].run);
  }

  // ---- nothing is lost silently ----

  predicate AiSubHonest(s: Sub, log: Log) {
    s.Sub? ==>
      && (s.settled.Acked? ==> Holds(log, EVENT_STRUCTURED))
      && (s.settled.Termed? ==> Holds(log, EVENT_FAILED))
  }

  predicate CvSubHonest(s: Sub, log: Log) {
    s.Sub? ==>
      && (s.settled.Acked? ==> Holds(log, EVENT_RENDERED))
      && (s.settled.Termed? ==> Holds(log, EVENT_FAILED))
  }

  predicate AiRunHonest(r: Ai.Run, log: Log) {
    && (r.phase == Ai.Done(Ack) ==> Holds(log, EVENT_STRUCTURED))
    && (r.phase == Ai.Done(Term) ==> Holds(log, EVENT_FAILED))
  }

  predicate CvRunHonest(r: Cv.Run, log: Log) {
    && (r.phase == Cv.Done(Ack) ==> Holds(log, EVENT_RENDERED))
    && (r.phase == Cv.Done(Term) ==> Holds(log, EVENT_FAILED))
  }

  ghost predicate NoSilentLoss(j: Job) {
    && (forall i :: 0 <= i < |j.log| ==> AiSubHonest(j.log[i].ai, j.log) && CvSubHonest(j.log[i].cv, j.log))
    && (forall w :: 0 <= w < |j.ai| ==> AiRunHonest(j.ai[w].run, j.log))
    && (forall w :: 0 <= w < |j.cv| ==> CvRunHonest(j.cv[w].run, j.log))
  }

  lemma AppendKeepsHonest(log: Log, after: Log)
    requires Appends(log, after)
    requires forall i :: 0 <= i < |log| ==> AiSubHonest(log[i].ai, log) && CvSubHonest(log[i].cv, log)
    ensures forall i :: 0 <= i < |after| ==> AiSubHonest(after[i].ai, after) && CvSubHonest(after[i].cv, after)
  {
    AppendsHold(log, after);
    forall i | 0 <= i < |after| ensures AiSubHonest(after[i].ai, after) && CvSubHonest(after[i].cv, after) {
      if i < |log| {
        assert after[i] == log[i];
        assert AiSubHonest(log[i].ai, log) && CvSubHonest(log[i].cv, log);
      }
    }
  }

  lemma AiActKeepsHonest(delays: seq<nat>, j: Job, work: nat, input: Ai.Input)
    requires NoSilentLoss(j) && Couriers(j)
    ensures NoSilentLoss(DoAiAct(delays, j, work, input))
  {
    if work < |j.ai| && j.ai[work].live {
      var run, w := j.ai[work].run, Ai.World(j.key, j.log);
      AiPublishes(delays, run, w, input);
      if !run.phase.Done? { AiSettlesHonestly(delays, run, w, input); }
      var (run', world') := Ai.Step(delays, run, w, input);
      AppendKeepsHonest(j.log, world'.log);
      AppendsHold(j.log, world'.log);
      assert AiRunHonest(run, j.log);
      assert AiRunHonest(run', world'.log);
    }
  }

  lemma CvActKeepsHonest(id: string, j: Job, work: nat, input: Cv.Input)
    requires NoSilentLoss(j) && Couriers(j) && Provenance(j)
    ensures NoSilentLoss(DoCvAct(id, j, work, input))
  {
    if work < |j.cv| && j.cv[work].live {
      var run, w := j.cv[work].run, Cv.World(j.shelf, j.log);
      CvPublishes(id, run, w, input);
      if !run.phase.Done? { CvSettlesHonestly(id, run, w, input); }
      var (run', world') := Cv.Step(id, run, w, input);
      AppendKeepsHonest(j.log, world'.log);
      AppendsHold(j.log, world'.log);
      assert CvRunHonest(run, j.log);
      assert CvRunHonest(run', world'.log);
    }
  }

  /** Bookkeeping under which every settlement is still vouched for. */
  lemma BooksKeepHonest(j: Job, after: Job)
    requires NoSilentLoss(j) && Bookkeeping(j, after)
    requires forall i :: 0 <= i < |j.log| ==>
               AiSubHonest(after.log[i].ai, j.log) && CvSubHonest(after.log[i].cv, j.log)
    ensures NoSilentLoss(after)
  {
    BooksHold(j, after);
  }

  lemma AiSettleKeepsHonest(j: Job, work: nat, lost: bool)
    requires NoSilentLoss(j)
    ensures NoSilentLoss(DoAiSettle(j, work, lost))
  {
    AiSettleBooks(j, work, lost);
    if work < |j.ai| { assert AiRunHonest(j.ai[work].run, j.log); }
    BooksKeepHonest(j, DoAiSettle(j, work, lost));
  }

  lemma CvSettleKeepsHonest(j: Job, work: nat, lost: bool)
    requires NoSilentLoss(j)
    ensures NoSilentLoss(DoCvSettle(j, work, lost))
  {
    CvSettleBooks(j, work, lost);
    if work < |j.cv| { assert CvRunHonest(j.cv[work].run, j.log); }
    BooksKeepHonest(j, DoCvSettle(j, work, lost));
  }

  lemma DeliverKeepsHonest(id: string, j: Job, msg: nat)
    requires NoSilentLoss(j) && Shaped(id, j)
    ensures NoSilentLoss(DoAiDeliver(j, msg))
    ensures NoSilentLoss(DoCvDeliver(j, msg))
  {
    AiDeliverBooks(id, j, msg);
    CvDeliverBooks(id, j, msg);
    BooksKeepHonest(j, DoAiDeliver(j, msg));
    BooksKeepHonest(j, DoCvDeliver(j, msg));
  }

  lemma CrashKeepsHonest(j: Job, work: nat)
    requires NoSilentLoss(j)
    ensures NoSilentLoss(DoAiCrash(j, work))
    ensures NoSilentLoss(DoCvCrash(j, work))
  {
  }

  lemma GwDeliverKeepsHonest(j: Job, msg: nat, d: Disposition, lost: bool)
    requires NoSilentLoss(j) && msg < |j.log| && Deliverable(j.log[msg].gw)
    ensures NoSilentLoss(GwDelivered(j, msg, d, lost))
  {
    GwDeliverBooks(j, msg, d, lost);
    BooksKeepHonest(j, GwDelivered(j, msg, d, lost));
  }

  // ---- who is to blame for a missing key ----

  ghost predicate KeyAccounted(j: Job, now: int) {
    && (j.submission.PuttingKey? ==> j.handed && j.log == [] && !j.taken && !j.expired)
    && ((j.submission.Publishing? || j.log != []) && j.handed && !j.taken && !j.expired ==> j.key.Some?)
    && (j.key.Some? ==> j.key.value.expiresAt >= j.submittedAt + Submission.KEY_TTL)
    && (j.expired ==> now >= j.submittedAt + Submission.KEY_TTL)
    && j.submittedAt <= now
    && (forall w :: 0 <= w < |j.ai| ==>
          Ai.ApiKeyMissing in j.ai[w].run.reasons ==> !j.handed || j.taken || j.expired)
  }

  lemma BooksKeepKeyAccounted(j: Job, after: Job, now: int)
    requires KeyAccounted(j, now) && Bookkeeping(j, after)
    ensures KeyAccounted(after, now)
  {
  }

  lemma AiActKeepsKeyAccounted(delays: seq<nat>, id: string, j: Job, work: nat, input: Ai.Input, now: int)
    requires KeyAccounted(j, now) && Shaped(id, j) && Couriers(j)
    ensures KeyAccounted(DoAiAct(delays, j, work, input), now)
  {
    if work < |j.ai| && j.ai[work].live {
      var run, w := j.ai[work].run, Ai.World(j.key, j.log);
      AiKeyMoves(delays, run, w, input);
      AiBlamesKey(delays, run, w, input);
      AiActKeepsShape(delays, id, j, work, input);
      assert j.ai[work].msg < |j.log|;
      AiActAccounts(delays, j, work, input, now);
    }
  }

  lemma AiActAccounts(delays: seq<nat>, j: Job, work: nat, input: Ai.Input, now: int)
    requires KeyAccounted(j, now) && work < |j.ai| && j.ai[work].live && j.log != []
    requires !j.submission.PuttingKey?
    requires var w' := Ai.Step(delays, j.ai[work].run, Ai.World(j.key, j.log), input).1;
             (w'.key == j.key || w'.key.None?) && |w'.log| >= |j.log|
    requires var r' := Ai.Step(delays, j.ai[work].run, Ai.World(j.key, j.log), input).0;
             Ai.ApiKeyMissing in r'.reasons ==> Ai.ApiKeyMissing in j.ai[work].run.reasons || j.key.None?
    ensures KeyAccounted(DoAiAct(delays, j, work, input), now)
  {
  }

  // ---- submission ----

  /** Everything that holds of a job at all times. */
  ghost predicate JobOk(n: nat, id: string, j: Job, now: int) {
    Shaped(id, j) && Couriers(j) && Provenance(j) && OneClaim(n, j) && NoSilentLoss(j) && KeyAccounted(j, now)
  }

  lemma SubmittedIsOk(n: nat, id: string, apiKey: string, now: int)
    ensures JobOk(n, id, Submitted(apiKey, now), now)
  {
  }

  lemma PutKeyKeeps(n: nat, id: string, j: Job, utf8: bool, put: Submission.KeyPut, now: int)
    requires JobOk(n, id, j, now)
    ensures JobOk(n, id, DoPutKey(j, utf8, put, now), now)
  {
    if j.submission.PuttingKey? {
      NoRunsYet(id, j);
    }
  }

  lemma NoRunsYet(id: string, j: Job)
    requires Shaped(id, j) && j.log == []
    ensures j.ai == [] && j.cv == []
  {
    var a := if |j.ai| > 0 then j.ai[0].msg else 0;
    var c := if |j.cv| > 0 then j.cv[0].msg else 0;
    assert |j.ai| > 0 ==> a < |j.log|;
    assert |j.cv| > 0 ==> c < |j.log|;
  }

  lemma PublishKeeps(n: nat, id: string, j: Job, o: Outcome, now: int)
    requires JobOk(n, id, j, now)
    ensures JobOk(n, id, DoPublish(j, o), now)
  {
    if j.submission.Publishing? {
      NoRunsYet(id, j);
      FreshIsOk(id, JobRequested, true);
      var after := DoPublish(j, o);
      var log := Publish(NEW_COURIER, j.log, JobRequested, o).1;
      assert log == [] || log == [Fresh(JobRequested)];
      assert after == j.(submission := after.submission, log := log);
      assert !after.submission.PuttingKey? && !after.submission.Publishing?;
      FirstEventIsOk(n, id, j, after, now);
    }
  }

  lemma FirstEventIsOk(n: nat, id: string, j: Job, after: Job, now: int)
    requires JobOk(n, id, j, now) && j.submission.Publishing?
    requires j.log == [] && j.ai == [] && j.cv == []
    requires after == j.(submission := after.submission, log := after.log)
    requires after.log == [] || after.log == [Fresh(JobRequested)]
    requires !after.submission.PuttingKey? && !after.submission.Publishing?
    ensures JobOk(n, id, after, now)
  {
    FreshIsOk(id, JobRequested, true);
  }

  lemma ExpireKeeps(n: nat, id: string, j: Job, now: int)
    requires JobOk(n, id, j, now)
    ensures JobOk(n, id, DoExpire(j, now), now)
  {
  }
}
