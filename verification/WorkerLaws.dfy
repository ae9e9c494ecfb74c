/** What one effect of a worker run can and cannot do, and what whole runs leave
    behind when nothing else interferes. */
module WorkerLaws {
  import opened Wrappers
  import opened Subjects
  import opened Events
  import opened Stream
  import opened Projection
  import Natsx
  import Ai = AiProcessor
  import Cv = CvGenerator

  /** Is there an event of this kind in the stream? */
  predicate Holds(log: Log, suffix: string) {
    exists i :: 0 <= i < |log| && Suffix(log[i].event) == suffix
  }

  /** The stream after at most one publish. */
  ghost predicate Appends(log: Log, after: Log) {
    after == log || (|after| == |log| + 1 && after == log + [Fresh(after[|log|].event)])
  }

  lemma PublishAppends(c: Courier, log: Log, e: Event, o: Outcome)
    ensures var (c', after) := Publish(c, log, e, o);
            && Appends(log, after)
            && (after != log ==> after[|log|] == Fresh(e))
            && (after != log && c.stored ==> !HasLike(log, e))
            && (after != log || c.stored <==> c'.stored)
            && (o.reply.Accepted? || after != log ==> Holds(after, Suffix(e)))
  {
    AcceptedIsStored(c, log, e, o);
    var after := Publish(c, log, e, o).1;
    if after != log {
      assert Suffix(after[|log|].event) == Suffix(e);
    }
  }

  lemma HoldsAfter(log: Log, after: Log, suffix: string)
    requires Appends(log, after) && Holds(log, suffix)
    ensures Holds(after, suffix)
  {
    var i :| 0 <= i < |log| && Suffix(log[i].event) == suffix;
    assert after[i] == log[i];
  }

  // ---- ai-processor ----

  /** Calls never outrun the budget, and only a run past the claim holds a key. */
  predicate AiRunOk(n: nat, r: Ai.Run) {
    match r.phase
    case Validating => r.calls == 0 && !r.holdsKey
    case LookingUp => r.calls == 0 && !r.holdsKey
    case Claiming(_) => r.calls == 0 && !r.holdsKey
    case Building(_) => r.calls == 0
    case Calling(a) => r.calls == a && a <= n
    case _ => r.calls <= n + 1
  }

  lemma AiRunStaysOk(delays: seq<nat>, r: Ai.Run, w: Ai.World, i: Ai.Input)
    requires AiRunOk(|delays|, r)
    ensures AiRunOk(|delays|, Ai.Step(delays, r, w, i).0)
  {
    AiCallsCount(delays, r, w, i);
  }

  lemma AiCallsCount(delays: seq<nat>, r: Ai.Run, w: Ai.World, i: Ai.Input)
    ensures Ai.Step(delays, r, w, i).0.calls == if r.phase.Calling? then r.calls + 1 else r.calls
  {
  }

  /** Only the claim touches the key, and a run that obtains it is the one that removed it. */
  lemma AiKeyMoves(delays: seq<nat>, r: Ai.Run, w: Ai.World, i: Ai.Input)
    ensures var (r', w') := Ai.Step(delays, r, w, i);
            && (w'.key == w.key || w'.key.None?)
            && (r.holdsKey ==> r'.holdsKey)
            && (r'.holdsKey && !r.holdsKey ==> r.phase.Claiming? && w.key.Some? && w'.key.None?)
            && (w'.key != w.key ==> r.phase.Claiming?)
  {
  }

  predicate AiEvent(e: Event) {
    (e.JobStructured? && e.cv.Some?) || (e.JobFailed? && e.report.Some?)
  }

  /** A run that stored its message is still publishing that same message, or done. */
  predicate AiCourierOk(r: Ai.Run, log: Log) {
    r.courier.stored ==>
      match r.phase
      case Reporting(_, _) => Holds(log, EVENT_FAILED)
      case Announcing(_, _) => Holds(log, EVENT_STRUCTURED)
      case Done(_) => true
      case _ => false
  }

  lemma AiPublishes(delays: seq<nat>, r: Ai.Run, w: Ai.World, i: Ai.Input)
    requires AiCourierOk(r, w.log)
    ensures var (r', w') := Ai.Step(delays, r, w, i);
            && Appends(w.log, w'.log)
            && (w'.log != w.log ==> AiEvent(w'.log[|w.log|].event) && !r.courier.stored)
            && (w'.log != w.log || r.courier.stored <==> r'.courier.stored)
            && AiCourierOk(r', w'.log)
  {
    match r.phase
    case Reporting(error, _) =>
      PublishAppends(r.courier, w.log, Ai.ProcessingFailure(error), i.publish);
      StillHolds(r.courier, w.log, Ai.ProcessingFailure(error), i.publish);
    case Announcing(cv, _) =>
      PublishAppends(r.courier, w.log, JobStructured(Some(cv)), i.publish);
      StillHolds(r.courier, w.log, JobStructured(Some(cv)), i.publish);
    case _ =>
  }

  lemma StillHolds(c: Courier, log: Log, e: Event, o: Outcome)
    requires c.stored ==> Holds(log, Suffix(e))
    ensures var (c', after) := Publish(c, log, e, o);
            c'.stored ==> Holds(after, Suffix(e))
  {
    PublishAppends(c, log, e, o);
    var after := Publish(c, log, e, o).1;
    if Holds(log, Suffix(e)) { HoldsAfter(log, after, Suffix(e)); }
  }

  /** A run ends acknowledged only with `structured` in the stream, and
      terminated only with `failed` in it. */
  lemma AiSettlesHonestly(delays: seq<nat>, r: Ai.Run, w: Ai.World, i: Ai.Input)
    requires !r.phase.Done?
    ensures var (r', w') := Ai.Step(delays, r, w, i);
            && (r'.phase == Ai.Done(Ack) ==> Holds(w'.log, EVENT_STRUCTURED))
            && (r'.phase == Ai.Done(Term) ==> Holds(w'.log, EVENT_FAILED))
  {
    match r.phase
    case Reporting(error, _) => PublishAppends(r.courier, w.log, Ai.ProcessingFailure(error), i.publish);
    case Announcing(cv, _) => PublishAppends(r.courier, w.log, JobStructured(Some(cv)), i.publish);
    case _ =>
  }

  lemma AiBlamesKey(delays: seq<nat>, r: Ai.Run, w: Ai.World, i: Ai.Input)
    ensures var r' := Ai.Step(delays, r, w, i).0;
            Ai.ApiKeyMissing in r'.reasons ==> Ai.ApiKeyMissing in r.reasons || w.key.None?
  {
  }

  /** Whether a run comes to claim its key at all. */
  predicate Claims(o: Ai.Oracle) {
    o.invalid.None? && o.lookup.Found? && !o.lookup.provider.Fake?
  }

  lemma {:induction false} KeySurvivesRest(delays: seq<nat>, r: Ai.Run, w: Ai.World, o: Ai.Oracle)
    requires !r.phase.Validating? && !r.phase.LookingUp? && !r.phase.Claiming?
    ensures var (r', w') := Ai.Drive(delays, r, w, o);
            && w'.key == w.key && r'.holdsKey == r.holdsKey && r.reasons <= r'.reasons
            && (Ai.ApiKeyMissing in r'.reasons <==> Ai.ApiKeyMissing in r.reasons)
            && (r.phase.Reporting? || r.phase.Done? ==> r'.calls == r.calls)
    decreases Ai.Remaining(|delays|, r.phase)
  {
    if !r.phase.Done? {
      Ai.StepsRunOut(delays, r, w, Ai.Feed(o, r));
      var (r', w') := Ai.Step(delays, r, w, Ai.Feed(o, r));
      RestStaysRest(delays, r, w, Ai.Feed(o, r));
      KeySurvivesRest(delays, r', w', o);
    }
  }

  lemma RestStaysRest(delays: seq<nat>, r: Ai.Run, w: Ai.World, i: Ai.Input)
    requires !r.phase.Validating? && !r.phase.LookingUp? && !r.phase.Claiming?
    ensures var (r', w') := Ai.Step(delays, r, w, i);
            && !r'.phase.Validating? && !r'.phase.LookingUp? && !r'.phase.Claiming?
            && w'.key == w.key && r'.holdsKey == r.holdsKey && r.reasons <= r'.reasons
            && (Ai.ApiKeyMissing in r'.reasons <==> Ai.ApiKeyMissing in r.reasons)
            && (r.phase.Reporting? || r.phase.Done? ==>
                  r'.calls == r.calls && (r'.phase.Reporting? || r'.phase.Done?))
  {
  }

  /** A run left alone consumes the key exactly when the request is valid, its
      model is in the bucket and not the fake one, and GETDEL runs: bad payloads,
      contract violations and absent models never burn it. It blames a missing
      key exactly when it came to claim one and there was none. */
  lemma RunAndKey(delays: seq<nat>, w: Ai.World, o: Ai.Oracle)
    ensures var (r, w') := Ai.Drive(delays, Ai.START, w, o);
            && w'.key == (if Claims(o) && !o.getDel.NeverRan? then None else w.key)
            && (r.holdsKey <==> Claims(o) && o.getDel.Replied? && w.key.Some?)
            && (Ai.ApiKeyMissing in r.reasons <==> Claims(o) && o.getDel.Replied? && w.key.None?)
  {
    var (r1, w1) := Ai.Step(delays, Ai.START, w, Ai.Feed(o, Ai.START));
    assert Ai.Drive(delays, Ai.START, w, o) == Ai.Drive(delays, r1, w1, o);
    if o.invalid.Some? {
      KeySurvivesRest(delays, r1, w1, o);
    } else {
      var (r2, w2) := Ai.Step(delays, r1, w1, Ai.Feed(o, r1));
      assert Ai.Drive(delays, r1, w1, o) == Ai.Drive(delays, r2, w2, o);
      if !Claims(o) {
        KeySurvivesRest(delays, r2, w2, o);
      } else {
        var (r3, w3) := Ai.Step(delays, r2, w2, Ai.Feed(o, r2));
        assert Ai.Drive(delays, r2, w2, o) == Ai.Drive(delays, r3, w3, o);
        KeySurvivesRest(delays, r3, w3, o);
      }
    }
  }

  /** The one failure that looks like a bad request yet burns the key: bytes in
      Valkey that are not text. */
  lemma UndecodableKeyIsBurnt(delays: seq<nat>, log: Log, o: Ai.Oracle, expiresAt: int)
    requires Claims(o) && o.getDel.Replied?
    ensures var (r, w') := Ai.Drive(delays, Ai.START, Ai.World(Some(Ai.ApiKey(false, expiresAt)), log), o);
            w'.key.None? && r.calls == 0 && Ai.InvalidInput in r.reasons
  {
    var w := Ai.World(Some(Ai.ApiKey(false, expiresAt)), log);
    RunAndKey(delays, w, o);
    var (r1, w1) := Ai.Step(delays, Ai.START, w, Ai.Feed(o, Ai.START));
    var (r2, w2) := Ai.Step(delays, r1, w1, Ai.Feed(o, r1));
    var (r3, w3) := Ai.Step(delays, r2, w2, Ai.Feed(o, r2));
    assert Ai.Drive(delays, Ai.START, w, o) == Ai.Drive(delays, r1, w1, o);
    assert Ai.Drive(delays, r1, w1, o) == Ai.Drive(delays, r2, w2, o);
    assert Ai.Drive(delays, r2, w2, o) == Ai.Drive(delays, r3, w3, o);
    assert r3.reasons == [Ai.InvalidInput] && r3.phase.Reporting? && r3.calls == 0;
    KeySurvivesRest(delays, r3, w3, o);
  }

  /** What it takes for a run to come to call the model at all. */
  predicate Served(key: Option<Ai.ApiKey>, o: Ai.Oracle) {
    && o.invalid.None? && o.lookup.Found?
    && (o.lookup.provider.Fake?
        || (o.lookup.provider.Supported? && o.getDel.Replied? && key.Some? && key.value.utf8 && !o.sdkBreaks))
  }

  /** A run about to make its first call. */
  function FirstCall(o: Ai.Oracle): Ai.Run
    requires o.lookup.Found?
  {
    Ai.START.(phase := Ai.Calling(0), holdsKey := !o.lookup.provider.Fake?)
  }

  /** A failure to tell the user of. Told inside the guard, a value error raised
      by the telling is told in its place. */
  datatype Complaint = Complaint(reason: Ai.Reason, text: string, guarded: bool)

  function Invalid(detail: string): Complaint {
    Complaint(Ai.InvalidInput, Ai.TextFor(Ai.InvalidInput) + " (" + detail + ")", false)
  }

  /** What an unserved run has to tell the user; None when the outside failed it
      and a redelivery may fare better. */
  function ComplaintOf(key: Option<Ai.ApiKey>, o: Ai.Oracle): Option<Complaint> {
    if o.invalid.Some? then Some(Invalid(o.invalid.value))
    else if o.lookup.Unparsable? then Some(Invalid(o.lookup.detail))
    else if o.lookup.Absent? then Some(Complaint(Ai.UnknownModel, Ai.TextFor(Ai.UnknownModel), true))
    else if !Claims(o) || !o.getDel.Replied? then None
    else if key.None? then Some(Complaint(Ai.ApiKeyMissing, Ai.TextFor(Ai.ApiKeyMissing), true))
    else if !key.value.utf8 then Some(Invalid("UnicodeDecodeError"))
    else if o.lookup.provider.Unsupported? then Some(Complaint(Ai.UnknownModel, Ai.TextFor(Ai.UnknownModel), false))
    else None
  }

  /** Telling it: the stream afterwards, how the run is settled, and what it blamed. */
  function Tell(log: Log, c: Complaint, publishes: nat -> Outcome): (Log, Disposition, seq<Ai.Reason>) {
    var o := publishes(0);
    var (courier, told) := Publish(NEW_COURIER, log, JobFailed(Some((StageProcessing, c.text))), o);
    if o.reply.ValueLike? && c.guarded then
      var again := publishes(1);
      (Publish(courier, told, JobFailed(Some((StageProcessing, Invalid("ValueError").text))), again).1,
       if again.reply.Accepted? then Term else Nak,
       [c.reason, Ai.InvalidInput])
    else (told, if o.reply.Accepted? then Term else Nak, [c.reason])
  }

  /** How a structuring run left alone ends, in every world. The model is called
      exactly when the run is served, and as often as the attempt loop says; the
      run is acknowledged exactly when the last of those calls brought a CV that
      converts and `structured` was accepted. Any other run that has something to tell the user
      is terminated exactly when the telling was accepted, and else redelivered. */
  lemma AiRunEnds(delays: seq<nat>, w: Ai.World, o: Ai.Oracle)
    ensures var (r, w') := Ai.Drive(delays, Ai.START, w, o);
            && r.phase.Done?
            && (!Served(w.key, o) ==> r.calls == 0 && Blames(r, w', w, ComplaintOf(w.key, o), o))
            && (Served(w.key, o) ==> CallsEnd(delays, FirstCall(o), w, o, r, w'))
  {
    var c := ComplaintOf(w.key, o);
    var (r1, w1) := Ai.Step(delays, Ai.START, w, Ai.Feed(o, Ai.START));
    assert Ai.Drive(delays, Ai.START, w, o) == Ai.Drive(delays, r1, w1, o);
    if o.invalid.Some? {
      TellingEnds(delays, r1, w1, o, c.value);
    } else {
      LookingUpEnds(delays, r1, w1, o);
    }
  }

  lemma LookingUpEnds(delays: seq<nat>, r: Ai.Run, w: Ai.World, o: Ai.Oracle)
    requires r == Ai.START.(phase := Ai.LookingUp) && o.invalid.None?
    ensures var (r', w') := Ai.Drive(delays, r, w, o);
            && r'.phase.Done?
            && (!Served(w.key, o) ==> r'.calls == 0 && Blames(r', w', w, ComplaintOf(w.key, o), o))
            && (Served(w.key, o) ==> CallsEnd(delays, FirstCall(o), w, o, r', w'))
  {
    var c := ComplaintOf(w.key, o);
    var (r1, w1) := Ai.Step(delays, r, w, Ai.Feed(o, r));
    assert Ai.Drive(delays, r, w, o) == Ai.Drive(delays, r1, w1, o);
    if r1.phase.Building? {
      BuildingEnds(delays, r1, w1, o);
    } else if r1.phase.Reporting? {
      TellingEnds(delays, r1, w1, o, c.value);
    } else if r1.phase.Claiming? {
      var (r2, w2) := Ai.Step(delays, r1, w1, Ai.Feed(o, r1));
      assert Ai.Drive(delays, r1, w1, o) == Ai.Drive(delays, r2, w2, o);
      if r2.phase.Building? {
        BuildingEnds(delays, r2, w2, o);
      } else if r2.phase.Reporting? {
        TellingEnds(delays, r2, w2, o, c.value);
      }
    }
  }

  ghost predicate Blames(done: Ai.Run, after: Ai.World, w: Ai.World, c: Option<Complaint>, o: Ai.Oracle) {
    && done.phase.Done?
    && (after.log, done.phase.disposition, done.reasons)
       == if c.None? then (w.log, Nak, []) else Tell(w.log, c.value, o.publishes)
  }

  lemma BuildingEnds(delays: seq<nat>, r: Ai.Run, w: Ai.World, o: Ai.Oracle)
    requires o.lookup.Found?
    requires r == FirstCall(o).(phase := Ai.Building(o.lookup.provider))
    ensures var (r', w') := Ai.Drive(delays, r, w, o);
            var served := o.lookup.provider.Fake? || (o.lookup.provider.Supported? && !o.sdkBreaks);
            var unknown := Complaint(Ai.UnknownModel, Ai.UNKNOWN_MODEL_ERROR, false);
            && r'.phase.Done?
            && (!served ==> r'.calls == 0)
            && (!served ==> Blames(r', w', w, if o.lookup.provider.Unsupported? then Some(unknown) else None, o))
            && (served ==> CallsEnd(delays, FirstCall(o), w, o, r', w'))
  {
    var (r1, w1) := Ai.Step(delays, r, w, Ai.Feed(o, r));
    assert Ai.Drive(delays, r, w, o) == Ai.Drive(delays, r1, w1, o);
    if r1.phase.Calling? {
      CallingEnds(delays, r1, w1, o);
    } else if r1.phase.Reporting? {
      TellingEnds(delays, r1, w1, o, Complaint(Ai.UnknownModel, Ai.UNKNOWN_MODEL_ERROR, false));
    }
  }

  /** A run that made its calls from `r` on, with nothing published before, and is
      then done as `done`: it announced the CV of the last, gave up on one that does
      not convert, or told what was wrong with the call. */
  ghost predicate CallsEnd(delays: seq<nat>, r: Ai.Run, w: Ai.World, o: Ai.Oracle, done: Ai.Run, after: Ai.World)
    requires r.phase.Calling?
  {
    var left := Ai.CallLoop(delays, r, o.calls);
    && done.phase.Done? && done.calls == left.calls && done.slept == left.slept && done.reasons == left.reasons
    && match left.phase
       case Converting(cv) =>
         var (_, log, reply) := Natsx.Retry(NEW_COURIER, w.log, JobStructured(Some(cv)), o.publishes, delays, 0);
         && after.log == (if o.converts then log else w.log)
         && done.phase.disposition == (if o.converts && reply.Accepted? then Ack else Nak)
         && (o.converts ==>
               && Natsx.Tried(delays, o.publishes, 0, done.courier.used)
               && done.courier.slept == delays[..done.courier.used - 1])
       case Reporting(error, _) =>
         var (_, log) := Publish(NEW_COURIER, w.log, JobFailed(Some((StageProcessing, error))), o.publishes(0));
         after.log == log && done.phase.disposition == if o.publishes(0).reply.Accepted? then Term else Nak
       case _ => false
  }

  lemma CallingEnds(delays: seq<nat>, r: Ai.Run, w: Ai.World, o: Ai.Oracle)
    requires r.phase == Ai.Calling(0) && r.courier == NEW_COURIER
    ensures CallsEnd(delays, r, w, o, Ai.Drive(delays, r, w, o).0, Ai.Drive(delays, r, w, o).1)
  {
    Ai.CallingIsLoop(delays, r, w, o);
    Ai.CallLoopStops(delays, r, o.calls);
    var left := Ai.CallLoop(delays, r, o.calls);
    if left.phase.Converting? {
      ConvertingEnds(delays, left, w, o);
    } else {
      Ai.LastStep(delays, left, w, o);
    }
  }

  lemma ConvertingEnds(delays: seq<nat>, r: Ai.Run, w: Ai.World, o: Ai.Oracle)
    requires r.phase.Converting?
    ensures var (_, log, reply) :=
              Natsx.Retry(r.courier, w.log, JobStructured(Some(r.phase.cv)), o.publishes, delays, 0);
            var (done, after) := Ai.Drive(delays, r, w, o);
            && done == r.(phase := done.phase, courier := done.courier)
            && (o.converts && r.courier == NEW_COURIER ==>
                  && Natsx.Tried(delays, o.publishes, 0, done.courier.used)
                  && done.courier.slept == delays[..done.courier.used - 1])
            && after == w.(log := if o.converts then log else w.log)
            && done.phase == Ai.Done(if o.converts && reply.Accepted? then Ack else Nak)
  {
    if o.converts {
      var next := r.(phase := Ai.Announcing(r.phase.cv, 0));
      assert Ai.Drive(delays, r, w, o) == Ai.Drive(delays, next, w, o);
      Ai.AnnouncingIsRetry(delays, next, w, o);
      Natsx.RetryStops(r.courier, w.log, JobStructured(Some(r.phase.cv)), o.publishes, delays, 0);
      assert delays[0..] == delays;
    } else {
      Ai.LastStep(delays, r, w, o);
    }
  }

  /** A run that is about to report, and has published nothing, tells its complaint and is done. */
  lemma TellingEnds(delays: seq<nat>, r: Ai.Run, w: Ai.World, o: Ai.Oracle, c: Complaint)
    requires r.phase == Ai.Reporting(c.text, c.guarded) && r.courier == NEW_COURIER && r.reasons == [c.reason]
    ensures var (r', w') := Ai.Drive(delays, r, w, o);
            && r'.phase.Done? && r'.calls == r.calls && r'.slept == r.slept
            && (w'.log, r'.phase.disposition, r'.reasons) == Tell(w.log, c, o.publishes)
  {
    var (r1, w1) := Ai.Step(delays, r, w, Ai.Feed(o, r));
    assert Ai.Drive(delays, r, w, o) == Ai.Drive(delays, r1, w1, o);
    if r1.phase.Reporting? {
      assert r1 == Ai.Report(r.(courier := r1.courier), Invalid("ValueError").text, Ai.InvalidInput, false);
      assert r1.courier.used == 1 && [c.reason] + [Ai.InvalidInput] == [c.reason, Ai.InvalidInput];
      Ai.LastStep(delays, r1, w1, o);
    }
  }

  // ---- cv-generator ----

  /** What a run holds in its hands respects the page limit once it is past the check. */
  predicate CvRunOk(r: Cv.Run, shelf: Option<Cv.Pdf>) {
    && (r.phase.Putting? ==> r.phase.pdf.pages <= Cv.PAGE_LIMIT)
    && (r.phase.Announcing? ==> shelf.Some?)
  }

  lemma CvStores(id: string, r: Cv.Run, w: Cv.World, i: Cv.Input)
    requires CvRunOk(r, w.shelf) && (w.shelf.Some? ==> w.shelf.value.pages <= Cv.PAGE_LIMIT)
    ensures var (r', w') := Cv.Step(id, r, w, i);
            && CvRunOk(r', w'.shelf)
            && (w'.shelf.Some? ==> w'.shelf.value.pages <= Cv.PAGE_LIMIT)
            && (w.shelf.Some? ==> w'.shelf.Some?)
  {
  }

  predicate CvEvent(id: string, e: Event) {
    e == JobRendered(Some(Cv.ObjectKey(id))) || (e.JobFailed? && e.report.Some?)
  }

  predicate CvCourierOk(r: Cv.Run, log: Log) {
    r.courier.stored ==>
      match r.phase
      case Announcing(_) => Holds(log, EVENT_RENDERED)
      case Done(_) => true
      case _ => false
  }

  /** `rendered` is published only once the PDF is in storage. */
  lemma CvPublishes(id: string, r: Cv.Run, w: Cv.World, i: Cv.Input)
    requires CvRunOk(r, w.shelf) && CvCourierOk(r, w.log)
    ensures var (r', w') := Cv.Step(id, r, w, i);
            && Appends(w.log, w'.log)
            && (w'.log != w.log ==>
                  CvEvent(id, w'.log[|w.log|].event) && !r.courier.stored
                  && (w'.log[|w.log|].event.JobRendered? ==> w'.shelf.Some?))
            && (w'.log != w.log || r.courier.stored <==> r'.courier.stored)
            && CvCourierOk(r', w'.log)
  {
    match r.phase
    case Reporting(error) => PublishAppends(r.courier, w.log, Cv.RenderingFailure(error), i.publish);
    case Announcing(_) =>
      PublishAppends(r.courier, w.log, JobRendered(Some(Cv.ObjectKey(id))), i.publish);
      if Holds(w.log, EVENT_RENDERED) { HoldsAfter(w.log, Cv.Step(id, r, w, i).1.log, EVENT_RENDERED); }
    case _ =>
  }

  lemma CvSettlesHonestly(id: string, r: Cv.Run, w: Cv.World, i: Cv.Input)
    requires !r.phase.Done?
    ensures var (r', w') := Cv.Step(id, r, w, i);
            && (r'.phase == Cv.Done(Ack) ==> Holds(w'.log, EVENT_RENDERED))
            && (r'.phase == Cv.Done(Term) ==> Holds(w'.log, EVENT_FAILED))
  {
    match r.phase
    case Reporting(error) => PublishAppends(r.courier, w.log, Cv.RenderingFailure(error), i.publish);
    case Announcing(_) => PublishAppends(r.courier, w.log, JobRendered(Some(Cv.ObjectKey(id))), i.publish);
    case _ =>
  }

  /** What it takes for a PDF of the job to be fit to store. */
  predicate Fit(o: Cv.Oracle) {
    o.invalid.None? && o.render.Compiled? && o.readable && o.render.pdf.pages <= 2
  }

  /** What a run has to tell the user off for. */
  function Objection(o: Cv.Oracle): Option<Cv.Reason> {
    if o.invalid.Some? then Some(Cv.InvalidInput)
    else if o.render.TypstError? then Some(Cv.RenderFailed)
    else if o.render.Compiled? && o.readable && o.render.pdf.pages > 2 then Some(Cv.PageLimit)
    else None
  }

  function ObjectionText(o: Cv.Oracle): string
    requires Objection(o).Some?
  {
    match Objection(o).value
    case InvalidInput => "The submitted data could not be processed; please resubmit" + " (" + o.invalid.value + ")"
    case RenderFailed => "The CV could not be rendered to PDF; please resubmit"
    case PageLimit => "The generated CV exceeded 2 pages; please shorten your career history and resubmit"
  }

  /** How a rendering run may end: it stored the PDF exactly when that was fit;
      it is acknowledged exactly when the PDF is known stored and `rendered` was
      accepted; it is terminated exactly when there was something to tell the user
      and that was accepted; all else is redelivered. */
  ghost predicate RenderEnds(id: string, w: Cv.World, o: Cv.Oracle, done: Cv.Run, after: Cv.World) {
    var e := JobRendered(Some("cvs/" + id + ".pdf"));
    var (_, log, announced) := Natsx.Retry(NEW_COURIER, w.log, e, o.publishes, [1, 3], 0);
    && after.shelf == (if Fit(o) && !o.put.NotStored? then Some(o.render.pdf) else w.shelf)
    && done.phase.Done?
    && (done.phase.disposition.Ack? <==> Fit(o) && o.put.Stored? && announced.Accepted?)
    && (done.phase.disposition.Term? <==> Objection(o).Some? && o.publishes(0).reply.Accepted?)
    && done.reasons == (if Objection(o).Some? then [Objection(o).value] else [])
    && after.log == (if Objection(o).Some?
                     then Publish(NEW_COURIER, w.log, JobFailed(Some((StageRendering, ObjectionText(o)))),
                                  o.publishes(0)).1
                     else if Fit(o) && o.put.Stored? then log else w.log)
    && (Fit(o) && o.put.Stored? ==>
          && Natsx.Tried([1, 3], o.publishes, 0, done.courier.used)
          && done.courier.slept == [1, 3][..done.courier.used - 1])
  }

  /** So ends every rendering run that is left alone. */
  lemma CvRunEnds(id: string, w: Cv.World, o: Cv.Oracle)
    ensures RenderEnds(id, w, o, Cv.Drive(id, Cv.START, w, o).0, Cv.Drive(id, Cv.START, w, o).1)
  {
    var (r1, w1) := Cv.Step(id, Cv.START, w, Cv.Feed(o, Cv.START));
    assert Cv.Drive(id, Cv.START, w, o) == Cv.Drive(id, r1, w1, o);
    if o.invalid.Some? {
      Cv.LastStep(id, r1, w1, o);
    } else {
      CompilingEnds(id, r1, w1, o);
    }
  }

  lemma CompilingEnds(id: string, r: Cv.Run, w: Cv.World, o: Cv.Oracle)
    requires r == Cv.START.(phase := Cv.Compiling) && o.invalid.None?
    ensures RenderEnds(id, w, o, Cv.Drive(id, r, w, o).0, Cv.Drive(id, r, w, o).1)
  {
    var (r1, w1) := Cv.Step(id, r, w, Cv.Feed(o, r));
    assert Cv.Drive(id, r, w, o) == Cv.Drive(id, r1, w1, o);
    if !o.render.Compiled? {
      if o.render.TypstError? { Cv.LastStep(id, r1, w1, o); }
    } else {
      var (r2, w2) := Cv.Step(id, r1, w1, Cv.Feed(o, r1));
      assert Cv.Drive(id, r1, w1, o) == Cv.Drive(id, r2, w2, o);
      if Fit(o) {
        var (r3, w3) := Cv.Step(id, r2, w2, Cv.Feed(o, r2));
        assert Cv.Drive(id, r2, w2, o) == Cv.Drive(id, r3, w3, o);
        if o.put.Stored? {
          Cv.AnnouncingIsRetry(id, r3, w3, o);
          Natsx.RetryStops(NEW_COURIER, w3.log, JobRendered(Some(Cv.ObjectKey(id))), o.publishes, [1, 3], 0);
          assert [1, 3][0..] == [1, 3];
        }
      } else if o.readable {
        Cv.LastStep(id, r2, w2, o);
      }
    }
  }
}
