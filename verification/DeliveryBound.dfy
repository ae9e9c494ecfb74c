/** Delivery activity runs out: two weights, one that pays for every delivery of
    every consumer and one that pays for every `structured`, that nothing raises. A
    job weighs what the deliveries left to its messages, its unfinished runs and its
    own submission may still bring; `Tariff` tells the two weights apart. For every
    action on the job a lemma says that the weight does not grow and that a delivery
    takes its price out of it, so that the budget of a fresh job bounds a whole run. */
module DeliveryBound {
  import opened Wrappers
  import opened Events
  import opened Stream
  import opened Projection
  import opened Pipeline
  import opened WorkerLaws
  import opened JobLaws
  import Submission
  import Ai = AiProcessor
  import Cv = CvGenerator

  function Sum(s: seq<int>): int {
    if s == [] then 0 else Sum(s[..|s| - 1]) + s[|s| - 1]
  }

  lemma SumAppend(s: seq<int>, v: int)
    ensures Sum(s + [v]) == Sum(s) + v
  {
    assert (s + [v])[..|s|] == s;
  }

  lemma {:induction false} SumUpdate(s: seq<int>, i: nat, v: int)
    requires i < |s|
    ensures Sum(s[i := v]) + s[i] == Sum(s) + v
  {
    var n := |s| - 1;
    if i < n {
      SumUpdate(s[..n], i, v);
      assert s[i := v][..n] == s[..n][i := v];
    } else {
      assert s[i := v][..n] == s[..n];
    }
  }

  function Left(s: Sub): nat {
    if s.Sub? then s.left else 0
  }

  /** What a weight pays for: every delivery, a stored `structured` bringing its own
      allowance along, or every stored `structured`. */
  datatype Tariff = PerDelivery | PerStructured

  /** Any event brings five gateway deliveries. A delivery to a worker may bring one event. */
  const EVENT_WEIGHT := GW_DELIVERIES
  const RUN_WEIGHT := 1 + EVENT_WEIGHT

  /** The allowance of a `structured`: three deliveries to the cv-generator and what they bring. */
  const ALLOWANCE := CV_DELIVERIES * RUN_WEIGHT

  /** What the deliveries of `requested` may cost beside. */
  const BASE := AI_DELIVERIES * RUN_WEIGHT + EVENT_WEIGHT

  function Structureds(log: Log): nat {
    if log == [] then 0
    else Structureds(log[..|log| - 1]) + (if log[|log| - 1].event.JobStructured? then 1 else 0)
  }

  function MsgWeight(t: Tariff, m: Stored): int {
    match t
    case PerDelivery =>
      RUN_WEIGHT * Left(m.ai) + RUN_WEIGHT * Left(m.cv) + Left(m.gw)
      - (if m.event.JobStructured? then ALLOWANCE else 0)
    case PerStructured => Left(m.ai) + (if m.event.JobStructured? then 1 else 0)
  }

  /** What a run may still bring into the stream. */
  function AiPotential(t: Tariff, w: AiWork): int {
    if w.run.courier.stored then 0 else if t.PerDelivery? then EVENT_WEIGHT else 1
  }

  function CvPotential(t: Tariff, w: CvWork): int {
    if w.run.courier.stored || t.PerStructured? then 0 else EVENT_WEIGHT
  }

  function MsgWeights(t: Tariff, log: Log): seq<int> {
    seq(|log|, i requires 0 <= i < |log| => MsgWeight(t, log[i]))
  }

  function AiWeights(t: Tariff, ai: seq<AiWork>): seq<int> {
    seq(|ai|, i requires 0 <= i < |ai| => AiPotential(t, ai[i]))
  }

  function CvWeights(t: Tariff, cv: seq<CvWork>): seq<int> {
    seq(|cv|, i requires 0 <= i < |cv| => CvPotential(t, cv[i]))
  }

  function Budget(t: Tariff): int {
    if t.PerDelivery? then BASE else AI_DELIVERIES
  }

  function Weight(t: Tariff, j: Job): int {
    Sum(MsgWeights(t, j.log)) + Sum(AiWeights(t, j.ai)) + Sum(CvWeights(t, j.cv))
    + (if j.submission.PuttingKey? || j.submission.Publishing? then Budget(t) else 0)
  }

  function Paid(t: Tariff, j: Job): int {
    if t.PerDelivery? then j.deliveries else 0
  }

  /** Whatever was paid for came out of the weight, and nothing else raises it. */
  predicate Pays(t: Tariff, j: Job, after: Job) {
    Weight(t, after) + Paid(t, after) <= Weight(t, j) + Paid(t, j)
  }

  predicate Within(t: Tariff, j: Job) {
    Weight(t, j) + Paid(t, j) <= Budget(t)
  }

  // ---- what the weights bound ----

  lemma {:induction false} SumIsNat(s: seq<int>)
    requires forall i :: 0 <= i < |s| ==> s[i] >= 0
    ensures Sum(s) >= 0
  {
    if s != [] { SumIsNat(s[..|s| - 1]); }
  }

  lemma {:induction false} LogWeighs(log: Log)
    ensures Sum(MsgWeights(PerDelivery, log)) >= -(ALLOWANCE * Structureds(log))
    ensures Sum(MsgWeights(PerStructured, log)) >= Structureds(log)
  {
    if log != [] {
      var n := |log| - 1;
      LogWeighs(log[..n]);
      assert MsgWeights(PerDelivery, log)[..n] == MsgWeights(PerDelivery, log[..n]);
      assert MsgWeights(PerStructured, log)[..n] == MsgWeights(PerStructured, log[..n]);
    }
  }

  /** Deliveries are bounded by the number of stored `structured`, and that by three. */
  lemma WithinBounds(j: Job)
    requires Within(PerDelivery, j) && Within(PerStructured, j)
    ensures j.deliveries <= 23 + 18 * Structureds(j.log) && Structureds(j.log) <= 3
  {
    LogWeighs(j.log);
    SumIsNat(AiWeights(PerDelivery, j.ai));
    SumIsNat(AiWeights(PerStructured, j.ai));
    SumIsNat(CvWeights(PerDelivery, j.cv));
    SumIsNat(CvWeights(PerStructured, j.cv));
  }

  // ---- every action pays ----

  lemma MsgUpdate(t: Tariff, log: Log, i: nat, m: Stored)
    requires i < |log|
    ensures Sum(MsgWeights(t, log[i := m])) + MsgWeight(t, log[i]) == Sum(MsgWeights(t, log)) + MsgWeight(t, m)
  {
    SumUpdate(MsgWeights(t, log), i, MsgWeight(t, m));
    assert MsgWeights(t, log[i := m]) == MsgWeights(t, log)[i := MsgWeight(t, m)];
  }

  lemma LogAppends(t: Tariff, log: Log, after: Log)
    requires Appends(log, after)
    ensures Sum(MsgWeights(t, after))
            == Sum(MsgWeights(t, log)) + (if after != log then MsgWeight(t, Fresh(after[|log|].event)) else 0)
  {
    if after != log {
      SumAppend(MsgWeights(t, log), MsgWeight(t, after[|log|]));
      assert MsgWeights(t, after) == MsgWeights(t, log) + [MsgWeight(t, after[|log|])];
    }
  }

  lemma AiUpdate(t: Tariff, ai: seq<AiWork>, i: nat, w: AiWork)
    requires i < |ai|
    ensures Sum(AiWeights(t, ai[i := w])) + AiPotential(t, ai[i]) == Sum(AiWeights(t, ai)) + AiPotential(t, w)
  {
    SumUpdate(AiWeights(t, ai), i, AiPotential(t, w));
    assert AiWeights(t, ai[i := w]) == AiWeights(t, ai)[i := AiPotential(t, w)];
  }

  lemma CvUpdate(t: Tariff, cv: seq<CvWork>, i: nat, w: CvWork)
    requires i < |cv|
    ensures Sum(CvWeights(t, cv[i := w])) + CvPotential(t, cv[i]) == Sum(CvWeights(t, cv)) + CvPotential(t, w)
  {
    SumUpdate(CvWeights(t, cv), i, CvPotential(t, w));
    assert CvWeights(t, cv[i := w]) == CvWeights(t, cv)[i := CvPotential(t, w)];
  }

  lemma AiAppends(t: Tariff, ai: seq<AiWork>, w: AiWork)
    ensures Sum(AiWeights(t, ai + [w])) == Sum(AiWeights(t, ai)) + AiPotential(t, w)
  {
    SumAppend(AiWeights(t, ai), AiPotential(t, w));
    assert AiWeights(t, ai + [w]) == AiWeights(t, ai) + [AiPotential(t, w)];
  }

  lemma CvAppends(t: Tariff, cv: seq<CvWork>, w: CvWork)
    ensures Sum(CvWeights(t, cv + [w])) == Sum(CvWeights(t, cv)) + CvPotential(t, w)
  {
    SumAppend(CvWeights(t, cv), CvPotential(t, w));
    assert CvWeights(t, cv + [w]) == CvWeights(t, cv) + [CvPotential(t, w)];
  }

  lemma AiDeliverPays(t: Tariff, j: Job, msg: nat)
    ensures Pays(t, j, DoAiDeliver(j, msg))
  {
    if msg < |j.log| && Deliverable(j.log[msg].ai) {
      var later := j.log[msg].(ai := Delivered(j.log[msg].ai));
      MsgUpdate(t, j.log, msg, later);
      AiAppends(t, j.ai, AiWork(Ai.START, msg, true));
      assert MsgWeight(t, later) == MsgWeight(t, j.log[msg]) - (if t.PerDelivery? then RUN_WEIGHT else 1);
    }
  }

  lemma CvDeliverPays(t: Tariff, j: Job, msg: nat)
    ensures Pays(t, j, DoCvDeliver(j, msg))
  {
    if msg < |j.log| && Deliverable(j.log[msg].cv) {
      var later := j.log[msg].(cv := Delivered(j.log[msg].cv));
      MsgUpdate(t, j.log, msg, later);
      CvAppends(t, j.cv, CvWork(Cv.START, msg, true));
      assert MsgWeight(t, later) == MsgWeight(t, j.log[msg]) - (if t.PerDelivery? then RUN_WEIGHT else 0);
    }
  }

  lemma GwDeliverPays(t: Tariff, j: Job, msg: nat, d: Disposition, lost: bool)
    requires msg < |j.log| && Deliverable(j.log[msg].gw)
    ensures Pays(t, j, GwDelivered(j, msg, d, lost))
  {
    MsgUpdate(t, j.log, msg, j.log[msg].(gw := Settled(Delivered(j.log[msg].gw), d, lost)));
  }

  lemma AiSettlePays(t: Tariff, j: Job, work: nat, lost: bool)
    ensures Pays(t, j, DoAiSettle(j, work, lost))
  {
    var after := DoAiSettle(j, work, lost);
    if after != j {
      var m := j.ai[work].msg;
      AiUpdate(t, j.ai, work, after.ai[work]);
      MsgUpdate(t, j.log, m, after.log[m]);
    }
  }

  lemma CvSettlePays(t: Tariff, j: Job, work: nat, lost: bool)
    ensures Pays(t, j, DoCvSettle(j, work, lost))
  {
    var after := DoCvSettle(j, work, lost);
    if after != j {
      var m := j.cv[work].msg;
      CvUpdate(t, j.cv, work, after.cv[work]);
      MsgUpdate(t, j.log, m, after.log[m]);
    }
  }

  lemma AiCrashPays(t: Tariff, j: Job, work: nat)
    ensures Pays(t, j, DoAiCrash(j, work))
  {
    if work < |j.ai| { AiUpdate(t, j.ai, work, j.ai[work].(live := false)); }
  }

  lemma CvCrashPays(t: Tariff, j: Job, work: nat)
    ensures Pays(t, j, DoCvCrash(j, work))
  {
    if work < |j.cv| { CvUpdate(t, j.cv, work, j.cv[work].(live := false)); }
  }

  /** A run that moved on and stored at most one event, having stored none before. */
  lemma ActPays(t: Tariff, j: Job, after: Job)
    requires Appends(j.log, after.log) && after.submission == j.submission && after.deliveries == j.deliveries
    requires Sum(AiWeights(t, after.ai)) + Sum(CvWeights(t, after.cv))
             + (if after.log != j.log then MsgWeight(t, Fresh(after.log[|j.log|].event)) else 0)
             <= Sum(AiWeights(t, j.ai)) + Sum(CvWeights(t, j.cv))
    ensures Pays(t, j, after)
  {
    LogAppends(t, j.log, after.log);
  }

  lemma AiActPays(t: Tariff, delays: seq<nat>, j: Job, work: nat, input: Ai.Input)
    requires Couriers(j)
    ensures Pays(t, j, DoAiAct(delays, j, work, input))
  {
    if work < |j.ai| && j.ai[work].live {
      AiPublishes(delays, j.ai[work].run, Ai.World(j.key, j.log), input);
      var after := DoAiAct(delays, j, work, input);
      var w := after.ai[work];
      AiUpdate(t, j.ai, work, w);
      if after.log != j.log {
        var e := after.log[|j.log|].event;
        assert AiEvent(e) && MsgWeight(t, Fresh(e)) <= AiPotential(t, j.ai[work]) && AiPotential(t, w) == 0;
      } else {
        assert AiPotential(t, w) == AiPotential(t, j.ai[work]);
      }
      ActPays(t, j, after);
    }
  }

  lemma CvActPays(t: Tariff, id: string, j: Job, work: nat, input: Cv.Input)
    requires Couriers(j) && Provenance(j)
    ensures Pays(t, j, DoCvAct(id, j, work, input))
  {
    if work < |j.cv| && j.cv[work].live {
      CvPublishes(id, j.cv[work].run, Cv.World(j.shelf, j.log), input);
      var after := DoCvAct(id, j, work, input);
      var w := after.cv[work];
      CvUpdate(t, j.cv, work, w);
      if after.log != j.log {
        var e := after.log[|j.log|].event;
        assert CvEvent(id, e) && MsgWeight(t, Fresh(e)) <= CvPotential(t, j.cv[work]) && CvPotential(t, w) == 0;
      } else {
        assert CvPotential(t, w) == CvPotential(t, j.cv[work]);
      }
      ActPays(t, j, after);
    }
  }

  lemma PutKeyPays(t: Tariff, j: Job, utf8: bool, put: Submission.KeyPut, now: int)
    ensures Pays(t, j, DoPutKey(j, utf8, put, now))
  {
  }

  lemma ExpirePays(t: Tariff, j: Job, now: int)
    ensures Pays(t, j, DoExpire(j, now))
  {
  }

  lemma PublishPays(t: Tariff, id: string, j: Job, o: Outcome)
    requires Shaped(id, j)
    ensures Pays(t, j, DoPublish(j, o))
  {
    if j.submission.Publishing? {
      PublishAppends(NEW_COURIER, j.log, JobRequested, o);
      LogAppends(t, j.log, DoPublish(j, o).log);
    }
  }

  lemma NewJobWeighs(t: Tariff, apiKey: string, now: int)
    ensures Within(t, Submitted(apiKey, now))
  {
  }
}
