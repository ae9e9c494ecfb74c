/** The ai-processor's handler: claim the one-shot key, call the model, publish
    `structured` or `failed`. A run is a sequence of effects; `Step` is one of
    them, so that the whole-system model can interleave runs, and the handler
    class below is proved to perform exactly these steps in order. */
module AiProcessor {
  import opened Wrappers
  import opened Events
  import opened Stream
  import opened Natsx
  import opened Projection

  const API_KEY_MISSING_ERROR := "API key no longer available; please resubmit"
  const UNKNOWN_MODEL_ERROR := "Unknown model selection; please choose a model from the catalog and resubmit"
  const INTERNAL_ERROR := "CV structuring failed unexpectedly; please resubmit"
  const AUTH_ERROR := "The AI provider rejected the API key; please check it and resubmit"
  const BAD_REQUEST_ERROR := "The AI provider rejected the request; please try a different model"
  const BAD_OUTPUT_ERROR := "The AI model returned an unusable response; please resubmit"
  const UNAVAILABLE_ERROR := "The AI provider is temporarily unavailable; please resubmit later"
  const INVALID_INPUT_ERROR := "The submitted data could not be processed; please resubmit"
  const CREDITS_EXHAUSTED_ERROR := "The AI provider account is out of credits; please top up the account and resubmit"

  /** Why a run failed: the metric label, not the user's text. */
  datatype Reason =
    | ApiKeyMissing | UnknownModel | InvalidInput | Auth | BadRequest
    | BadOutput | Unavailable | CreditsExhausted | Internal

  /** A catalog entry's provider, as far as the handler distinguishes them. */
  datatype Provider = Fake | Supported | Unsupported

  /** The bucket lookup: an entry, bytes that do not parse, no entry, or another error. */
  datatype Lookup = Found(provider: Provider) | Unparsable(detail: string) | Absent | LookupBreaks

  /** A stored API key; `utf8` is whether its bytes decode. */
  datatype ApiKey = ApiKey(utf8: bool, expiresAt: int)

  /** How GETDEL comes back. Without a reply it may or may not have run. */
  datatype GetDel = Replied | ReplyLost | NeverRan

  /** What one `generate_cv` call does: a CV, unusable output, an HTTP status, a
      connection-level error, or any other exception. */
  datatype CallResult = Cv(cv: string) | Unusable | Http(status: int) | ConnectionLost | Unexpected

  predicate IsTransient(c: CallResult) {
    match c
    case Http(status) => status in {408, 429} || status >= 500
    case ConnectionLost => true
    case _ => false
  }

  /** The failure reported for the last call when it brought no CV: a transient
      error only ends a run that has used up its retries. */
  function Verdict(c: CallResult): (string, Reason) {
    if IsTransient(c) then (UNAVAILABLE_ERROR, Unavailable)
    else match c
    case Unusable => (BAD_OUTPUT_ERROR, BadOutput)
    case Http(status) =>
      if status in {401, 403} then (AUTH_ERROR, Auth)
      else if status == 402 then (CREDITS_EXHAUSTED_ERROR, CreditsExhausted)
      else (BAD_REQUEST_ERROR, BadRequest)
    case _ => (INTERNAL_ERROR, Internal)
  }

  lemma TextsDiffer()
    ensures |INTERNAL_ERROR| == 51 && |BAD_OUTPUT_ERROR| == 59 && |UNAVAILABLE_ERROR| == 65
    ensures |CREDITS_EXHAUSTED_ERROR| == 81
    ensures |AUTH_ERROR| == |BAD_REQUEST_ERROR| == 66 && AUTH_ERROR[29] != BAD_REQUEST_ERROR[29]
  {
  }

  /** A connection that broke, a timeout, a rate limit, or trouble at the provider's end. */
  predicate WorthAnotherCall(c: CallResult) {
    c.ConnectionLost? || (c.Http? && (c.status == 408 || c.status == 429 || c.status >= 500))
  }

  lemma TransientIsWorthAnotherCall(c: CallResult)
    ensures IsTransient(c) <==> WorthAnotherCall(c)
  {
  }

  /** What each label tells the user. */
  function TextFor(reason: Reason): string {
    match reason
    case ApiKeyMissing => "API key no longer available; please resubmit"
    case UnknownModel => "Unknown model selection; please choose a model from the catalog and resubmit"
    case InvalidInput => "The submitted data could not be processed; please resubmit"
    case Auth => "The AI provider rejected the API key; please check it and resubmit"
    case BadRequest => "The AI provider rejected the request; please try a different model"
    case BadOutput => "The AI model returned an unusable response; please resubmit"
    case Unavailable => "The AI provider is temporarily unavailable; please resubmit later"
    case CreditsExhausted => "The AI provider account is out of credits; please top up the account and resubmit"
    case Internal => "CV structuring failed unexpectedly; please resubmit"
  }

  /** The text a user reads and the label a dashboard counts always tell the same story. */
  lemma TextMatchesReason(c: CallResult, d: CallResult)
    ensures Verdict(c).0 == TextFor(Verdict(c).1)
    ensures Verdict(c).0 == Verdict(d).0 <==> Verdict(c).1 == Verdict(d).1
    ensures Verdict(c).1 == Unavailable <==> WorthAnotherCall(c)
    ensures Verdict(c).1 == Internal <==> c.Unexpected? || c.Cv?
    ensures Verdict(c).1 == BadOutput <==> c.Unusable?
    ensures Verdict(c).1 == Auth <==> c.Http? && c.status in {401, 403}
    ensures Verdict(c).1 == CreditsExhausted <==> c == Http(402)
    ensures Verdict(c).1 == BadRequest <==> c.Http? && c.status !in {401, 402, 403, 408, 429} && c.status < 500
  {
    TextsDiffer();
  }

  /** Where a run is. `guarded` marks a report made inside the `try` that turns
      value errors into an invalid-input failure. */
  datatype Phase =
    | Validating
    | LookingUp
    | Claiming(provider: Provider)
    | Building(provider: Provider)
    | Calling(attempt: nat)
    | Reporting(error: string, guarded: bool)
    | Converting(cv: string)
    | Announcing(cv: string, attempt: nat)
    | Done(disposition: Disposition)

  datatype Run = Run(
    phase: Phase,
    holdsKey: bool,
    calls: nat,
    slept: seq<nat>,
    reasons: seq<Reason>,
    courier: Courier)

  const START := Run(Validating, false, 0, [], [], NEW_COURIER)

  /** What runs of one job share: its API key in Valkey and its events. */
  datatype World = World(key: Option<ApiKey>, log: Log)

  /** Everything the outside decides during one step; a step reads the part it needs. */
  datatype Input = Input(
    invalid: Option<string>,
    lookup: Lookup,
    getDel: GetDel,
    sdkBreaks: bool,
    call: CallResult,
    converts: bool,
    publish: Outcome)

  function Report(r: Run, error: string, reason: Reason, guarded: bool): Run {
    r.(phase := Reporting(error, guarded), reasons := r.reasons + [reason])
  }

  function WithDetail(error: string, detail: string): string {
    error + " (" + detail + ")"
  }

  function ProcessingFailure(error: string): Event {
    JobFailed(Some((StageProcessing, error)))
  }

  function Finish(r: Run, d: Disposition): Run {
    r.(phase := Done(d))
  }

  function StepCall(delays: seq<nat>, r: Run, attempt: nat, c: CallResult): Run {
    var called := r.(calls := r.calls + 1);
    if c.Cv? then called.(phase := Converting(c.cv))
    else if !IsTransient(c) || attempt >= |delays| then
      var (error, reason) := Verdict(c);
      Report(called, error, reason, false)
    else called.(phase := Calling(attempt + 1), slept := r.slept + [delays[attempt]])
  }

  function StepClaim(r: Run, w: World, provider: Provider, g: GetDel): (Run, World) {
    match g
    case NeverRan => (Finish(r, Nak), w)
    case ReplyLost => (Finish(r, Nak), w.(key := None))
    case Replied =>
      if w.key.None? then (Report(r, API_KEY_MISSING_ERROR, ApiKeyMissing, true), w)
      else
        var holder := r.(holdsKey := true);
        (if w.key.value.utf8 then holder.(phase := Building(provider))
         else Report(holder, WithDetail(INVALID_INPUT_ERROR, "UnicodeDecodeError"), InvalidInput, false),
         w.(key := None))
  }

  function StepReport(r: Run, w: World, error: string, guarded: bool, o: Outcome): (Run, World) {
    var (courier, log) := Publish(r.courier, w.log, ProcessingFailure(error), o);
    var sent := r.(courier := courier);
    (match o.reply
     case Accepted => Finish(sent, Term)
     case ValueLike =>
       if guarded then Report(sent, WithDetail(INVALID_INPUT_ERROR, "ValueError"), InvalidInput, false)
       else Finish(sent, Nak)
     case _ => Finish(sent, Nak),
     w.(log := log))
  }

  function StepAnnounce(delays: seq<nat>, r: Run, w: World, cv: string, attempt: nat, o: Outcome): (Run, World) {
    var (courier, log) := Publish(r.courier, w.log, JobStructured(Some(cv)), o);
    var sent := r.(courier := courier);
    (if o.reply.Accepted? then Finish(sent, Ack)
     else if o.reply.TransportError? && attempt < |delays|
     then sent.(phase := Announcing(cv, attempt + 1), courier := courier.(slept := courier.slept + [delays[attempt]]))
     else Finish(sent, Nak),
     w.(log := log))
  }

  function Step(delays: seq<nat>, r: Run, w: World, i: Input): (Run, World) {
    match r.phase
    case Validating =>
      (if i.invalid.Some?
       then Report(r, WithDetail(INVALID_INPUT_ERROR, i.invalid.value), InvalidInput, false)
       else r.(phase := LookingUp), w)
    case LookingUp =>
      (match i.lookup
       case Found(provider) => r.(phase := if provider.Fake? then Building(provider) else Claiming(provider))
       case Unparsable(detail) => Report(r, WithDetail(INVALID_INPUT_ERROR, detail), InvalidInput, false)
       case Absent => Report(r, UNKNOWN_MODEL_ERROR, UnknownModel, true)
       case LookupBreaks => Finish(r, Nak), w)
    case Claiming(provider) => StepClaim(r, w, provider, i.getDel)
    case Building(provider) =>
      (if provider.Unsupported? then Report(r, UNKNOWN_MODEL_ERROR, UnknownModel, false)
       else if i.sdkBreaks && !provider.Fake? then Finish(r, Nak)
       else r.(phase := Calling(0)), w)
    case Calling(attempt) => (StepCall(delays, r, attempt, i.call), w)
    case Reporting(error, guarded) => StepReport(r, w, error, guarded, i.publish)
    case Converting(cv) => (if i.converts then r.(phase := Announcing(cv, 0)) else Finish(r, Nak), w)
    case Announcing(cv, attempt) => StepAnnounce(delays, r, w, cv, attempt, i.publish)
    case Done(_) => (r, w)
  }

  // ---- a run left alone ----

  /** One run's outside world, fixed in advance. */
  datatype Oracle = Oracle(
    invalid: Option<string>,
    lookup: Lookup,
    getDel: GetDel,
    sdkBreaks: bool,
    calls: nat -> CallResult,
    converts: bool,
    publishes: nat -> Outcome)

  function Feed(o: Oracle, r: Run): Input {
    Input(o.invalid, o.lookup, o.getDel, o.sdkBreaks, o.calls(r.calls), o.converts, o.publishes(r.courier.used))
  }

  /** Steps left before a run is done, at most. */
  function Remaining(n: nat, p: Phase): nat {
    match p
    case Validating => 2 * n + 10
    case LookingUp => 2 * n + 9
    case Claiming(_) => 2 * n + 8
    case Building(_) => 2 * n + 7
    case Calling(a) => n + 6 + (if a <= n then n - a else 0)
    case Converting(_) => n + 4
    case Announcing(_, a) => 3 + (if a <= n then n - a else 0)
    case Reporting(_, guarded) => if guarded then 2 else 1
    case Done(_) => 0
  }

  lemma StepsRunOut(delays: seq<nat>, r: Run, w: World, i: Input)
    requires !r.phase.Done?
    ensures Remaining(|delays|, Step(delays, r, w, i).0.phase) < Remaining(|delays|, r.phase)
  {
  }

  /** The run to its end, nothing else touching the world meanwhile. */
  function Drive(delays: seq<nat>, r: Run, w: World, o: Oracle): (Run, World)
    decreases Remaining(|delays|, r.phase)
  {
    if r.phase.Done? then (r, w)
    else
      StepsRunOut(delays, r, w, Feed(o, r));
      var (r', w') := Step(delays, r, w, Feed(o, r));
      Drive(delays, r', w', o)
  }

  /** A run whose next step is its last ends with that step. */
  lemma LastStep(delays: seq<nat>, r: Run, w: World, o: Oracle)
    requires !r.phase.Done? && Step(delays, r, w, Feed(o, r)).0.phase.Done?
    ensures Drive(delays, r, w, o) == Step(delays, r, w, Feed(o, r))
  {
    var (r', w') := Step(delays, r, w, Feed(o, r));
    assert Drive(delays, r', w', o) == (r', w');
  }

  /** The attempt loop: the run as it leaves it, to announce or to report. */
  function CallLoop(delays: seq<nat>, r: Run, calls: nat -> CallResult): Run
    requires r.phase.Calling?
    decreases Remaining(|delays|, r.phase)
  {
    var next := StepCall(delays, r, r.phase.attempt, calls(r.calls));
    if next.phase.Calling? then CallLoop(delays, next, calls) else next
  }

  /** The calls from the `first`-th to before the `next`-th are the loop's: every
      one but the last a transient error, and the last too only when no delay is left. */
  predicate Attempted(delays: seq<nat>, calls: nat -> CallResult, first: nat, next: nat) {
    && 1 <= next - first <= |delays| + 1
    && (forall i :: first <= i < next - 1 ==> WorthAnotherCall(calls(i)))
    && (WorthAnotherCall(calls(next - 1)) ==> next - first == |delays| + 1)
  }

  /** A run whose attempts ended with call `last`. */
  function Concluded(r: Run, last: CallResult): Run {
    if last.Cv? then r.(phase := Converting(last.cv))
    else Report(r, Verdict(last).0, Verdict(last).1, false)
  }

  /** The closed form of the loop from a run `r` with these delays to come. */
  predicate LeftAs(rest: seq<nat>, r: Run, calls: nat -> CallResult, left: Run) {
    && Attempted(rest, calls, r.calls, left.calls)
    && left == Concluded(r.(calls := left.calls, slept := r.slept + rest[..left.calls - r.calls - 1]),
                         calls(left.calls - 1))
  }

  lemma {:induction false} CallLoopStops(delays: seq<nat>, r: Run, calls: nat -> CallResult)
    requires r.phase.Calling? && r.phase.attempt <= |delays|
    ensures LeftAs(delays[r.phase.attempt..], r, calls, CallLoop(delays, r, calls))
    decreases |delays| - r.phase.attempt
  {
    var a := r.phase.attempt;
    var c := calls(r.calls);
    var rest := delays[a..];
    TransientIsWorthAnotherCall(c);
    if IsTransient(c) && a < |delays| {
      var next := r.(phase := Calling(a + 1), calls := r.calls + 1, slept := r.slept + [delays[a]]);
      GoesOn(delays, r, calls, next);
      CallLoopStops(delays, next, calls);
      assert delays[a + 1..] == rest[1..];
      LeftBefore(rest, r, calls, next, CallLoop(delays, next, calls));
    } else {
      StopsHere(delays, r, calls);
      assert rest[..0] == [];
    }
  }

  /** One more failed attempt, and the sleep after it, before a run that was left as `left`. */
  lemma LeftBefore(rest: seq<nat>, r: Run, calls: nat -> CallResult, next: Run, left: Run)
    requires rest != [] && WorthAnotherCall(calls(r.calls))
    requires next == r.(phase := next.phase, calls := r.calls + 1, slept := r.slept + [rest[0]])
    requires LeftAs(rest[1..], next, calls, left)
    ensures LeftAs(rest, r, calls, left)
  {
    AttemptedBefore(rest, calls, r.calls, left.calls);
    SleptBefore(r.slept, rest, left.calls - r.calls - 1);
  }

  lemma SleptBefore(slept: seq<nat>, rest: seq<nat>, k: nat)
    requires 1 <= k <= |rest|
    ensures slept + [rest[0]] + rest[1..][..k - 1] == slept + rest[..k]
  {
  }

  /** The loop as a whole stops at the first call that is not a transient error,
      gives up as unavailable exactly when the whole budget was transient, and
      sleeps exactly the delays before the attempts that followed. */
  lemma WholeLoop(delays: seq<nat>, r: Run, calls: nat -> CallResult)
    requires r.phase == Calling(0)
    ensures var left := CallLoop(delays, r, calls);
            && Attempted(delays, calls, r.calls, left.calls)
            && left.slept == r.slept + delays[..left.calls - r.calls - 1]
            && var last := calls(left.calls - 1);
               && (left.phase.Converting? <==> last.Cv?)
               && left.reasons == r.reasons + (if last.Cv? then [] else [Verdict(last).1])
  {
    CallLoopStops(delays, r, calls);
    assert delays[0..] == delays;
  }

  lemma GoesOn(delays: seq<nat>, r: Run, calls: nat -> CallResult, next: Run)
    requires r.phase.Calling? && r.phase.attempt < |delays| && IsTransient(calls(r.calls))
    requires next == r.(phase := Calling(r.phase.attempt + 1), calls := r.calls + 1,
                        slept := r.slept + [delays[r.phase.attempt]])
    ensures CallLoop(delays, r, calls) == CallLoop(delays, next, calls)
  {
  }

  lemma StopsHere(delays: seq<nat>, r: Run, calls: nat -> CallResult)
    requires r.phase.Calling? && r.phase.attempt <= |delays|
    requires !IsTransient(calls(r.calls)) || r.phase.attempt == |delays|
    ensures CallLoop(delays, r, calls) == Concluded(r.(calls := r.calls + 1, slept := r.slept + []), calls(r.calls))
  {
    assert r.slept + [] == r.slept;
  }

  lemma AttemptedBefore(rest: seq<nat>, calls: nat -> CallResult, first: nat, next: nat)
    requires rest != [] && WorthAnotherCall(calls(first))
    requires Attempted(rest[1..], calls, first + 1, next)
    ensures Attempted(rest, calls, first, next)
  {
  }

  lemma {:induction false} CallingIsLoop(delays: seq<nat>, r: Run, w: World, o: Oracle)
    requires r.phase.Calling?
    ensures Drive(delays, r, w, o) == Drive(delays, CallLoop(delays, r, o.calls), w, o)
    decreases Remaining(|delays|, r.phase)
  {
    var next := StepCall(delays, r, r.phase.attempt, o.calls(r.calls));
    assert Step(delays, r, w, Feed(o, r)) == (next, w);
    if next.phase.Calling? {
      CallingIsLoop(delays, next, w, o);
    }
  }

  /** The publish loop as steps of the run. */
  lemma {:induction false} AnnouncingIsRetry(delays: seq<nat>, r: Run, w: World, o: Oracle)
    requires r.phase.Announcing? && r.phase.attempt <= |delays|
    ensures var (courier, log, reply) :=
              Retry(r.courier, w.log, JobStructured(Some(r.phase.cv)), o.publishes, delays, r.phase.attempt);
            Drive(delays, r, w, o)
            == (Finish(r.(courier := courier), if reply.Accepted? then Ack else Nak), w.(log := log))
    decreases |delays| - r.phase.attempt
  {
    var (r', w') := Step(delays, r, w, Feed(o, r));
    assert Drive(delays, r, w, o) == Drive(delays, r', w', o);
    if r'.phase.Announcing? {
      AnnouncingIsRetry(delays, r', w', o);
    }
  }

  // ---- the handler ----

  /** The exceptions that leave the handler's methods. */
  datatype Exception = TerminalError | ValueError(detail: string) | OtherException

  function Raised(reply: Reply): Exception {
    match reply
    case Accepted => TerminalError
    case ValueLike => ValueError("ValueError")
    case _ => OtherException
  }

  class JobHandler {
    const retryDelays: seq<nat>
    const o: Oracle
    const js: JetStreamContext
    var key: Option<ApiKey>
    var holdsKey: bool
    var calls: nat
    var slept: seq<nat>
    var reasons: seq<Reason>

    constructor (js: JetStreamContext, key: Option<ApiKey>, o: Oracle, retryDelays: seq<nat>)
      requires js.outcomes == o.publishes
      ensures Valid() && this.js == js && this.o == o && this.retryDelays == retryDelays
      ensures At(Validating) == (START.(courier := js.courier), World(key, js.log))
    {
      this.js, this.key, this.o, this.retryDelays := js, key, o, retryDelays;
      holdsKey, calls, slept, reasons := false, 0, [], [];
    }

    ghost predicate Valid() {
      js.outcomes == o.publishes
    }

    /** The handler's state as a run that stands at `phase`. */
    ghost function At(phase: Phase): (Run, World)
      reads this, js
    {
      (Run(phase, holdsKey, calls, slept, reasons, js.courier), World(key, js.log))
    }

    /** How that run ends. */
    ghost function End(phase: Phase): (Run, World)
      reads this, js
    {
      Drive(retryDelays, At(phase).0, At(phase).1, o)
    }

    /** How the run ends once `e` leaves the guarded part of the handler. */
    ghost function EndAfter(e: Exception): (Run, World)
      reads this, js
    {
      match e
      case TerminalError => At(Done(Term))
      case OtherException => At(Done(Nak))
      case ValueError(detail) =>
        var r := Report(At(Validating).0, WithDetail(INVALID_INPUT_ERROR, detail), InvalidInput, false);
        Drive(retryDelays, r, At(Validating).1, o)
    }

    method Fail(error: string, reason: Reason) returns (e: Exception)
      requires Valid()
      modifies this`reasons, js
      ensures reasons == old(reasons) + [reason]
      ensures (js.courier, js.log)
              == Publish(old(js.courier), old(js.log), ProcessingFailure(error), o.publishes(old(js.courier.used)))
      ensures e == Raised(o.publishes(old(js.courier.used)).reply)
    {
      reasons := reasons + [reason];
      var reply := js.PublishEvent(ProcessingFailure(error));
      e := Raised(reply);
    }

    /** A report inside the guard: a value error it raises is itself reported. */
    method FailGuarded(error: string, reason: Reason) returns (e: Exception)
      requires Valid()
      modifies this`reasons, js
      ensures EndAfter(e) == old(EndReporting(error, reason, true))
    {
      ghost var (r, w) := (Report(At(Validating).0, error, reason, true), At(Validating).1);
      e := Fail(error, reason);
      if !e.ValueError? { LastStep(retryDelays, r, w, o); }
    }

    /** A report outside the guard ends the run. */
    method FailUnguarded(error: string, reason: Reason) returns (e: Exception)
      requires Valid()
      modifies this`reasons, js
      ensures At(Done(if e.TerminalError? then Term else Nak)) == old(EndReporting(error, reason, false))
      ensures reasons == old(reasons) + [reason]
    {
      ghost var (r, w) := (Report(At(Validating).0, error, reason, false), At(Validating).1);
      e := Fail(error, reason);
      LastStep(retryDelays, r, w, o);
    }

    ghost function EndReporting(error: string, reason: Reason, guarded: bool): (Run, World)
      reads this, js
    {
      Drive(retryDelays, Report(At(Validating).0, error, reason, guarded), At(Validating).1, o)
    }

    method ModelEntry() returns (entry: Result<Provider, Exception>)
      requires Valid()
      modifies this`reasons, js
      ensures entry.Success? ==>
                End(if entry.value.Fake? then Building(Fake) else Claiming(entry.value)) == old(End(LookingUp))
      ensures entry.Failure? ==> EndAfter(entry.error) == old(End(LookingUp))
    {
      match o.lookup {
        case Absent =>
          var e := FailGuarded(UNKNOWN_MODEL_ERROR, UnknownModel);
          entry := Failure(e);
        case Unparsable(detail) => entry := Failure(ValueError(detail));
        case LookupBreaks =>
          LastStep(retryDelays, At(LookingUp).0, At(LookingUp).1, o);
          entry := Failure(OtherException);
        case Found(provider) => entry := Success(provider);
      }
    }

    method ClaimApiKey(ghost provider: Provider) returns (claimed: Result<(), Exception>)
      requires Valid()
      modifies this`key, this`holdsKey, this`reasons, js
      ensures claimed.Success? ==> End(Building(provider)) == old(End(Claiming(provider)))
      ensures claimed.Failure? ==> EndAfter(claimed.error) == old(End(Claiming(provider)))
    {
      ghost var before := At(Claiming(provider));
      var raw := key;
      if o.getDel != NeverRan {
        key := None;
      }
      if o.getDel != Replied {
        LastStep(retryDelays, before.0, before.1, o);
        return Failure(OtherException);
      }
      if raw.None? {
        var e := FailGuarded(API_KEY_MISSING_ERROR, ApiKeyMissing);
        return Failure(e);
      }
      holdsKey := true;
      claimed := if raw.value.utf8 then Success(()) else Failure(ValueError("UnicodeDecodeError"));
    }

    /** One `generate_cv` call. */
    method GenerateCv() returns (c: CallResult)
      modifies this`calls
      ensures calls == old(calls) + 1 && c == o.calls(old(calls))
    {
      c := o.calls(calls);
      calls := calls + 1;
    }

    /** The attempt loop; `WholeLoop` says what its calls, sleeps and verdict come to. */
    method Structure() returns (cv: Result<string, Exception>)
      requires Valid()
      modifies this`calls, this`slept, this`reasons, js
      ensures var left := CallLoop(retryDelays, old(At(Calling(0)).0), o.calls);
              && calls == left.calls && slept == left.slept
              && (cv.Success? <==> left.phase.Converting?)
              && (cv.Success? ==> At(Converting(cv.value)) == (left, old(At(Calling(0)).1)))
              && (cv.Failure? ==> At(Done(if cv.error.TerminalError? then Term else Nak))
                                  == Drive(retryDelays, left, old(At(Calling(0)).1), o))
    {
      ghost var left := CallLoop(retryDelays, At(Calling(0)).0, o.calls);
      var attempts := |retryDelays| + 1;
      for attempt := 0 to attempts
        invariant attempt < attempts
        invariant reasons == old(reasons) && js.courier == old(js.courier) && js.log == old(js.log)
        invariant CallLoop(retryDelays, At(Calling(attempt)).0, o.calls) == left
      {
        ghost var before := At(Calling(attempt)).0;
        var c := GenerateCv();
        ghost var next := StepCall(retryDelays, before, attempt, c);
        if c.Cv? {
          assert left == next == At(Converting(c.cv)).0;
          return Success(c.cv);
        }
        if !IsTransient(c) || attempt + 1 == attempts {
          var (error, reason) := Verdict(c);
          assert left == next == Report(At(Validating).0, error, reason, false);
          var e := FailUnguarded(error, reason);
          return Failure(e);
        }
        slept := slept + [retryDelays[attempt]];
        assert next == At(Calling(attempt + 1)).0;
      }
      assert false;
    }

    /** The handler, with the pull loop's reading of how it left: returned, raised
        a terminal error, or raised anything else. */
    method Call() returns (d: Disposition)
      requires Valid()
      modifies this, js
      ensures At(Done(d)) == old(End(Validating))
    {
      var provider := Fake;
      var problem: Option<Exception> := None;
      if o.invalid.Some? {
        problem := Some(ValueError(o.invalid.value));
      } else {
        var entry := ModelEntry();
        if entry.Failure? {
          problem := Some(entry.error);
        } else {
          provider := entry.value;
          if provider != Fake {
            var claimed := ClaimApiKey(provider);
            if claimed.Failure? { problem := Some(claimed.error); }
          }
        }
      }
      if problem.Some? {
        match problem.value {
          case ValueError(detail) =>
            var e := FailUnguarded(WithDetail(INVALID_INPUT_ERROR, detail), InvalidInput);
            return if e.TerminalError? then Term else Nak;
          case TerminalError => return Term;
          case OtherException => return Nak;
        }
      }
      if provider == Unsupported {
        var e := FailUnguarded(UNKNOWN_MODEL_ERROR, UnknownModel);
        return if e.TerminalError? then Term else Nak;
      }
      if provider != Fake && o.sdkBreaks {
        LastStep(retryDelays, At(Building(provider)).0, At(Building(provider)).1, o);
        return Nak;
      }
      CallingIsLoop(retryDelays, At(Calling(0)).0, At(Calling(0)).1, o);
      var cv := Structure();
      if cv.Failure? {
        return if cv.error.TerminalError? then Term else Nak;
      }
      d := Announce(cv.value);
    }

    /** From the structured CV on: conversion to the event's form, then publish. */
    method Announce(cv: string) returns (d: Disposition)
      requires Valid()
      modifies js
      ensures At(Done(d)) == old(End(Converting(cv)))
    {
      if !o.converts {
        LastStep(retryDelays, At(Converting(cv)).0, At(Converting(cv)).1, o);
        return Nak;
      }
      assert End(Converting(cv)) == End(Announcing(cv, 0));
      AnnouncingIsRetry(retryDelays, At(Announcing(cv, 0)).0, At(Announcing(cv, 0)).1, o);
      var reply := js.PublishWithRetry(JobStructured(Some(cv)), retryDelays);
      d := if reply.Accepted? then Ack else Nak;
    }
  }
}
