/** The key hand-off from the form to the claim, when the gateway's catalog and
    the bucket the workers read agree. */
module KeyLaws {
  import opened Wrappers
  import opened Text
  import opened Stream
  import opened JobStore
  import opened Projection
  import opened ProjectionLaws
  import opened Pipeline
  import opened WorkerLaws
  import opened JobLaws
  import opened PipelineLaws
  import opened JobFates
  import Submission
  import Ai = AiProcessor

  /** A form and a profile that pass every check of the gateway, and what goes on from them. */
  predicate Accepts(fake: map<string, bool>, form: Submission.Form, profile: Submission.ProfileLookup,
                    spec: JobSpec, apiKey: string) {
    && Submission.Refusal(form, fake, profile).None?
    && spec.modelKey == TrimSpace(form.modelKey) && apiKey == TrimSpace(form.apiKey)
  }

  /** Submissions passed the checks against this catalog, and the bucket tells the
      fake provider apart from the others as the catalog does. It may still lack
      the entry, hold bytes that do not parse, or fail. */
  ghost predicate Lawful(fake: map<string, bool>, s: System, a: Action) {
    match a
    case Submit(_, spec, apiKey, _) => exists form, profile :: Accepts(fake, form, profile, spec, apiKey)
    case Act(id, AiAct(_, input)) =>
      id in s.gw.rows && s.gw.rows[id].spec.modelKey in fake && input.lookup.Found? ==>
        (input.lookup.provider.Fake? <==> fake[s.gw.rows[id].spec.modelKey])
    case _ => true
  }

  ghost predicate LawfulRun(delays: seq<nat>, fake: map<string, bool>, actions: seq<Action>) {
    actions != [] ==>
      var n := |actions| - 1;
      Lawful(fake, Run(delays, actions[..n]), actions[n]) && LawfulRun(delays, fake, actions[..n])
  }

  /** The name of a job's key in Valkey, as the gateway writes and the worker reads it. */
  function KeyName(jobId: string): string {
    "cv:apikey:" + jobId
  }

  /** No two jobs share a key: what a run claims was stored for its own job. */
  lemma KeyNamesDiffer(a: string, b: string)
    requires a != b
    ensures KeyName(a) != KeyName(b)
  {
    assert KeyName(a)[10..] == a && KeyName(b)[10..] == b;
  }

  // ---- jobs of the fake model need no key ----

  predicate NeverClaims(r: Ai.Run) {
    !r.phase.Claiming? && Ai.ApiKeyMissing !in r.reasons
  }

  lemma FakeRunGoesOn(delays: seq<nat>, r: Ai.Run, w: Ai.World, i: Ai.Input)
    requires NeverClaims(r) && (i.lookup.Found? ==> i.lookup.provider.Fake?)
    ensures NeverClaims(Ai.Step(delays, r, w, i).0)
  {
    if !r.phase.Validating? && !r.phase.LookingUp? { RestStaysRest(delays, r, w, i); }
  }

  ghost predicate NoneClaims(j: Job) {
    forall w :: 0 <= w < |j.ai| ==> NeverClaims(j.ai[w].run)
  }

  lemma FakeJobGoesOn(delays: seq<nat>, id: string, j: Job, a: JobAction, now: int)
    requires NoneClaims(j)
    requires a.AiAct? && a.input.lookup.Found? ==> a.input.lookup.provider.Fake?
    ensures NoneClaims(JobNext(delays, id, j, a, now))
  {
    match a
    case AiAct(work, input) =>
      if work < |j.ai| { FakeRunGoesOn(delays, j.ai[work].run, Ai.World(j.key, j.log), input); }
    case _ =>
  }

  /** A job without a key is one of the fake model, and no run of the fake model claims one. */
  ghost predicate KeyFits(fake: map<string, bool>, spec: JobSpec, j: Job) {
    && spec.modelKey in fake
    && (fake[spec.modelKey] || j.handed)
    && (fake[spec.modelKey] ==> NoneClaims(j))
  }

  lemma KeyFitsNext(delays: seq<nat>, fake: map<string, bool>, s: System, a: Action, id: string)
    requires id in s.jobs && id in s.gw.rows && KeyFits(fake, s.gw.rows[id].spec, s.jobs[id])
    requires Lawful(fake, s, a)
    ensures id in JobsNext(delays, s, a) && KeyFits(fake, s.gw.rows[id].spec, JobsNext(delays, s, a)[id])
  {
    if a.Act? && a.id == id {
      assert JobNext(delays, id, s.jobs[id], a.action, s.gw.now).handed == s.jobs[id].handed;
      if fake[s.gw.rows[id].spec.modelKey] {
        FakeJobGoesOn(delays, id, s.jobs[id], a.action, s.gw.now);
      }
    }
  }

  lemma NewKeyFits(delays: seq<nat>, fake: map<string, bool>, s: System, a: Action, id: string)
    requires id !in s.jobs && id in JobsNext(delays, s, a) && Lawful(fake, s, a)
    ensures id in Advance(delays, s, a).gw.rows
    ensures KeyFits(fake, Advance(delays, s, a).gw.rows[id].spec, JobsNext(delays, s, a)[id])
  {
    var form, profile :| Accepts(fake, form, profile, a.spec, a.apiKey);
    Submission.AcceptedHasKey(form, fake, profile);
  }

  lemma {:induction false} RunKeyFits(delays: seq<nat>, fake: map<string, bool>, actions: seq<Action>, id: string)
    requires LawfulRun(delays, fake, actions) && id in Run(delays, actions).jobs
    ensures id in Run(delays, actions).gw.rows
    ensures KeyFits(fake, Run(delays, actions).gw.rows[id].spec, Run(delays, actions).jobs[id])
  {
    var n := |actions| - 1;
    var s := Run(delays, actions[..n]);
    if id in s.jobs {
      RunKeyFits(delays, fake, actions[..n], id);
      KeyFitsNext(delays, fake, s, actions[n], id);
      RowsFollow(delays, actions, id);
    } else {
      NewKeyFits(delays, fake, s, actions[n], id);
    }
  }

  /** A run blames a missing key only when an earlier GETDEL took it or its fifteen
      minutes were over: the gateway let no billed model through without one. */
  lemma MissingKeyWasTaken(delays: seq<nat>, fake: map<string, bool>, actions: seq<Action>, id: string, work: nat)
    requires LawfulRun(delays, fake, actions)
    requires id in Run(delays, actions).jobs && work < |Run(delays, actions).jobs[id].ai|
    requires Ai.ApiKeyMissing in Run(delays, actions).jobs[id].ai[work].run.reasons
    ensures var s := Run(delays, actions);
            && id in s.gw.rows
            && (s.jobs[id].taken || s.gw.now >= s.gw.rows[id].createdAt + 900)
  {
    RunKeyFits(delays, fake, actions, id);
    MissingKeyHasAReason(delays, actions, id, work);
    assert !NeverClaims(Run(delays, actions).jobs[id].ai[work].run);
  }
}
