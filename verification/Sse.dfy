/** The status stream a browser follows: the stored row first, then a replay of
    the job's whole event history, filtered so that it never moves backwards. */
module Sse {
  import opened Wrappers
  import opened Events
  import opened JobStore
  import opened Projection
  import opened ProjectionLaws
  import opened DeliveryLaws
  import opened FateLaws

  datatype StatusUpdate = StatusUpdate(status: Status, error: Option<string>, downloadUrl: Option<string>)

  function DownloadUrl(jobId: string): Option<string> {
    Some("/jobs/" + jobId + "/download")
  }

  function StatusFromJob(jobId: string, r: Row): StatusUpdate {
    StatusUpdate(r.status, r.error, if r.status.Completed? then DownloadUrl(jobId) else None)
  }

  /** None: the event is unknown or its body does not decode, and is skipped. */
  function MapEvent(jobId: string, e: Event): Option<StatusUpdate> {
    match e
    case JobRequested => Some(StatusUpdate(Pending, None, None))
    case JobStructured(_) => Some(StatusUpdate(Rendering, None, None))
    case JobRendered(_) => Some(StatusUpdate(Completed, None, DownloadUrl(jobId)))
    case JobFailed(Some((_, text))) => Some(StatusUpdate(Failed, Some(text), None))
    case _ => None
  }

  /** What the select loop wakes up for. `written` is false when the write to
      the client fails, which ends the stream. */
  datatype Signal =
    | Disconnected
    | Heartbeat(written: bool)
    | Received(event: Event, written: bool)

  /** The stream handler's own state: the rank guard, what the client has been
      sent, and whether the handler is still looping. */
  datatype Feed = Feed(lastRank: int, sent: seq<StatusUpdate>, open: bool)

  function Opened(jobId: string, r: Row): Feed {
    var current := StatusFromJob(jobId, r);
    Feed(Rank(current.status), [current], !Terminal(current.status))
  }

  function React(jobId: string, f: Feed, s: Signal): Feed {
    if !f.open then f
    else match s
      case Disconnected => f.(open := false)
      case Heartbeat(written) => f.(open := written)
      case Received(event, written) =>
        var update := MapEvent(jobId, event);
        if update.None? || Rank(update.value.status) <= f.lastRank then f
        else Feed(Rank(update.value.status),
                  if written then f.sent + [update.value] else f.sent,
                  written && !Terminal(update.value.status))
  }

  function Follow(jobId: string, f: Feed, signals: seq<Signal>): Feed {
    if signals == [] then f
    else React(jobId, Follow(jobId, f, signals[..|signals| - 1]), signals[|signals| - 1])
  }

  method HandleJobEvents(jobId: string, job: Row, firstWritten: bool, signals: seq<Signal>)
    returns (sent: seq<StatusUpdate>)
    ensures sent == if firstWritten then Follow(jobId, Opened(jobId, job), signals).sent else []
  {
    var current := StatusFromJob(jobId, job);
    if !firstWritten { return []; }
    sent := [current];
    if Terminal(current.status) {
      ClosedStaysClosed(jobId, Opened(jobId, job), signals);
      return;
    }
    var lastRank := Rank(current.status);
    var i := 0;
    while i < |signals|
      invariant 0 <= i <= |signals|
      invariant Follow(jobId, Opened(jobId, job), signals[..i]) == Feed(lastRank, sent, true)
    {
      assert signals[..i + 1][..i] == signals[..i];
      ghost var here := Follow(jobId, Opened(jobId, job), signals[..i + 1]);
      ghost var rest := signals[i + 1..];
      assert signals == signals[..i + 1] + rest;
      FollowConcat(jobId, Opened(jobId, job), signals[..i + 1], rest);
      ClosedStaysClosed(jobId, here, rest);
      match signals[i] {
        case Disconnected => return;
        case Heartbeat(written) =>
          if !written { return; }
        case Received(event, written) =>
          var update := MapEvent(jobId, event);
          if update.Some? && Rank(update.value.status) > lastRank {
            lastRank := Rank(update.value.status);
            if !written { return; }
            sent := sent + [update.value];
            if Terminal(update.value.status) { return; }
          }
      }
      i := i + 1;
    }
    assert signals[..i] == signals;
  }

  lemma {:induction false} ClosedStaysClosed(jobId: string, f: Feed, signals: seq<Signal>)
    ensures !f.open ==> Follow(jobId, f, signals) == f
  {
    if signals != [] {
      ClosedStaysClosed(jobId, f, signals[..|signals| - 1]);
    }
  }

  lemma {:induction false} FollowConcat(jobId: string, f: Feed, xs: seq<Signal>, ys: seq<Signal>)
    ensures Follow(jobId, f, xs + ys) == Follow(jobId, Follow(jobId, f, xs), ys)
  {
    if ys == [] {
      assert xs + ys == xs;
    } else {
      var n := |ys| - 1;
      FollowConcat(jobId, f, xs, ys[..n]);
      assert (xs + ys)[..|xs + ys| - 1] == xs + ys[..n];
    }
  }

  // ---- what the client sees ----

  predicate Rising(sent: seq<StatusUpdate>) {
    forall i, j :: 0 <= i < j < |sent| ==> Rank(sent[i].status) < Rank(sent[j].status)
  }

  /** No history, however long, garbled or repeated, moves a client backwards,
      repeats a state or follows a terminal one. */
  lemma {:induction false} RanksStrictlyRise(jobId: string, r: Row, signals: seq<Signal>)
    ensures var f := Follow(jobId, Opened(jobId, r), signals);
            && f.sent != [] && Rising(f.sent)
            && Rank(f.sent[|f.sent| - 1].status) <= f.lastRank
            && |f.sent| <= f.lastRank + 1 <= 3
  {
    if signals != [] {
      RanksStrictlyRise(jobId, r, signals[..|signals| - 1]);
    }
  }

  /** What an update says: the download link of its job iff completed, an error iff failed. */
  predicate Sound(jobId: string, u: StatusUpdate) {
    && u.downloadUrl == (if u.status == Completed then Some("/jobs/" + jobId + "/download") else None)
    && (u.error.Some? <==> u.status == Failed)
  }

  /** Everything a client is ever sent says its job's own link, and only when completed. */
  lemma {:induction false} LinksAreTheJobs(jobId: string, r: Row, signals: seq<Signal>)
    requires Consistent(r)
    ensures forall u :: u in Follow(jobId, Opened(jobId, r), signals).sent ==> Sound(jobId, u)
  {
    if signals != [] {
      LinksAreTheJobs(jobId, r, signals[..|signals| - 1]);
    }
  }

  /** The client is gone, or the write to it just failed. */
  predicate Breaks(jobId: string, f: Feed, s: Signal) {
    || s.Disconnected? || (s.Heartbeat? && !s.written)
    || (s.Received? && !s.written && MapEvent(jobId, s.event).Some?
        && Rank(MapEvent(jobId, s.event).value.status) > f.lastRank)
  }

  /** After a disconnect or a failed write nothing more is sent, whatever comes. */
  lemma NothingAfterABreak(jobId: string, f: Feed, s: Signal, later: seq<Signal>)
    requires Breaks(jobId, f, s)
    ensures Follow(jobId, f, [s] + later).sent == f.sent
  {
    FollowConcat(jobId, f, [s], later);
    assert [s][..0] == [];
    ClosedStaysClosed(jobId, React(jobId, f, s), later);
  }

  // ---- snapshot plus replay against the live row ----

  /** A connection that stays up: every wake-up is a heartbeat or an event, and every write succeeds. */
  predicate Healthy(signals: seq<Signal>) {
    forall s :: s in signals ==> !s.Disconnected? && s.written
  }

  function Replayed(signals: seq<Signal>): seq<Event> {
    if signals == [] then []
    else
      var last := signals[|signals| - 1];
      Replayed(signals[..|signals| - 1]) + (if last.Received? then [last.event] else [])
  }

  predicate Ends(e: Event) {
    e.JobRendered? || (e.JobFailed? && e.report.Some?)
  }

  predicate SawStructured(events: seq<Event>) {
    exists e :: e in events && e.JobStructured?
  }

  /** Where the history first ends for the client. */
  function FirstEnd(events: seq<Event>): (i: Option<nat>)
    ensures i.Some? ==> i.value < |events| && Ends(events[i.value])
  {
    if events == [] then None
    else
      var n := |events| - 1;
      var earlier := FirstEnd(events[..n]);
      if earlier.Some? then earlier else if Ends(events[n]) then Some(n) else None
  }

  lemma {:induction false} FirstEndIsFirst(events: seq<Event>)
    ensures FirstEnd(events).None? ==> forall i :: 0 <= i < |events| ==> !Ends(events[i])
    ensures FirstEnd(events).Some? ==> forall i :: 0 <= i < FirstEnd(events).value ==> !Ends(events[i])
  {
    if events != [] {
      FirstEndIsFirst(events[..|events| - 1]);
    }
  }

  function Shown(f: Feed): StatusUpdate
    requires f.sent != []
  {
    f.sent[|f.sent| - 1]
  }

  /** Where a client that started from a live snapshot of status `start` stands
      once it has replayed a history that did or did not structure and end. */
  ghost predicate Tracks(start: Status, f: Feed, saw: bool, end: Option<StatusUpdate>) {
    && f.sent != []
    && f.open == end.None?
    && (f.open ==> f.lastRank == Rank(Shown(f).status))
    && (end.Some? ==> Shown(f) == end.value)
    && (f.open ==> Shown(f) == StatusUpdate(if start.Rendering? || saw then Rendering else Pending, None, None))
  }

  lemma ReactTracks(jobId: string, start: Status, f: Feed, saw: bool, end: Option<StatusUpdate>, e: Event)
    requires !Terminal(start) && Tracks(start, f, saw, end)
    ensures Tracks(start, React(jobId, f, Received(e, true)), saw || e.JobStructured?,
                   if end.None? && Ends(e) then MapEvent(jobId, e) else end)
  {
  }

  function EndState(jobId: string, events: seq<Event>): Option<StatusUpdate> {
    var end := FirstEnd(events);
    if end.Some? then MapEvent(jobId, events[end.value]) else None
  }

  lemma EndStateExtends(jobId: string, events: seq<Event>, e: Event)
    ensures EndState(jobId, events + [e])
            == if EndState(jobId, events).None? && Ends(e) then MapEvent(jobId, e) else EndState(jobId, events)
  {
    assert (events + [e])[..|events|] == events;
  }

  /** The client of a live snapshot ends where the replayed history first ends. */
  lemma {:induction false} ReplayShows(jobId: string, r: Row, signals: seq<Signal>)
    requires !Terminal(r.status) && r.error.None? && Healthy(signals)
    ensures Tracks(r.status, Follow(jobId, Opened(jobId, r), signals),
                   SawStructured(Replayed(signals)), EndState(jobId, Replayed(signals)))
  {
    if signals != [] {
      var n := |signals| - 1;
      assert signals[n] in signals;
      ReplayShows(jobId, r, signals[..n]);
      var before := Replayed(signals[..n]);
      if signals[n].Received? {
        var e := signals[n].event;
        ReactTracks(jobId, r.status, Follow(jobId, Opened(jobId, r), signals[..n]),
                    SawStructured(before), EndState(jobId, before), e);
        SawExtend(before, e);
        EndStateExtends(jobId, before, e);
      } else {
        assert Replayed(signals) == before;
      }
    }
  }

  lemma SawExtend(events: seq<Event>, e: Event)
    ensures SawStructured(events + [e]) <==> SawStructured(events) || e.JobStructured?
  {
    if SawStructured(events) {
      var s :| s in events && s.JobStructured?;
      assert s in events + [e];
    }
    if e.JobStructured? {
      assert e in events + [e];
    }
  }

  // ---- the row ----

  function UpdateFor(jobId: string, f: Fate): StatusUpdate {
    match f
    case Live(structured) => StatusUpdate(if structured then Rendering else Pending, None, None)
    case Rendered(_) => StatusUpdate(Completed, None, DownloadUrl(jobId))
    case Broken(text) => StatusUpdate(Failed, Some(text), None)
  }

  lemma FateShows(jobId: string, r: Row, f: Fate)
    requires Meets(r, f)
    ensures StatusFromJob(jobId, r) == UpdateFor(jobId, f)
  {
  }

  /** The client and the row end alike: both with the PDF, or with the same text. */
  predicate SameEnd(e: Event, c: Cause) {
    if Renders(c) then e.JobRendered?
    else Fails(c) && e.JobFailed? && e.report.Some? && e.report.value.1 == TextOf(c)
  }

  /** When a replayed history and the writes that reached the row come to the
      same thing: both end, and alike, or neither does and both got as far. */
  predicate Agrees(events: seq<Event>, rendering: bool, steps: seq<Applied>) {
    var end, actual := FirstEnd(events), RowEnd(steps);
    if end.Some? && actual.Some? then SameEnd(events[end.value], steps[actual.value].cause)
    else end.None? && actual.None? && (rendering || SawStructured(events) <==> HasStructured(steps))
  }

  /** A client that connects at any moment and then replays any history ends on
      exactly the state of the live row, error and download link included, if and
      only if it connected after the job ended, or the first end of that history
      is also how the row ended. The row may owe its state to events in another
      order, to bodies that do not decode, to sweeps, advisories and a submission
      that gave up; nothing relates `events` to `steps`. */
  lemma SnapshotPlusReplay(jobId: string, r: Row, steps: seq<Applied>, k: nat, events: seq<Event>, signals: seq<Signal>)
    requires r.status.Pending? && Consistent(r) && k <= |steps|
    requires Healthy(signals) && Replayed(signals) == events
    ensures var snapshot := Project(r, steps[..k]);
            var f := Follow(jobId, Opened(jobId, snapshot), signals);
            && f.sent != []
            && (Shown(f) == StatusFromJob(jobId, Project(r, steps))
                <==> Terminal(snapshot.status) || Agrees(events, snapshot.status.Rendering?, steps))
  {
    if Terminal(Project(r, steps[..k]).status) {
      ProjectSuffix(r, steps, k);
      ClosedStaysClosed(jobId, Opened(jobId, Project(r, steps[..k])), signals);
    } else {
      RowMeetsItsFate(r, steps[..k]);
      LiveSnapshotReplays(jobId, Project(r, steps[..k]), r, steps, signals);
    }
  }

  lemma LiveSnapshotReplays(jobId: string, snapshot: Row, r: Row, steps: seq<Applied>, signals: seq<Signal>)
    requires r.status.Pending? && Consistent(r)
    requires !Terminal(snapshot.status) && snapshot.error.None? && Healthy(signals)
    ensures var f := Follow(jobId, Opened(jobId, snapshot), signals);
            && f.sent != []
            && (Shown(f) == StatusFromJob(jobId, Project(r, steps))
                <==> Agrees(Replayed(signals), snapshot.status.Rendering?, steps))
  {
    ReplayShows(jobId, snapshot, signals);
    RowMeetsItsFate(r, steps);
    FateShows(jobId, Project(r, steps), FateOf(steps));
  }

  /** Rows freeze and only move forward along the rest of their history. */
  lemma {:induction false} ProjectSuffix(r: Row, steps: seq<Applied>, k: nat)
    requires k <= |steps|
    ensures Rank(Project(r, steps[..k]).status) <= Rank(Project(r, steps).status)
    ensures Terminal(Project(r, steps[..k]).status) ==> Project(r, steps) == Project(r, steps[..k])
  {
    if k < |steps| {
      var n := |steps| - 1;
      ProjectSuffix(r, steps[..n], k);
      assert steps[..n][..k] == steps[..k];
    } else {
      assert steps[..k] == steps;
    }
  }

  // ---- the same history on both sides ----

  predicate OnlyEvents(steps: seq<Applied>) {
    forall i :: 0 <= i < |steps| ==> steps[i].cause.ByEvent?
  }

  function History(steps: seq<Applied>): (events: seq<Event>)
    requires OnlyEvents(steps)
    ensures |events| == |steps|
  {
    seq(|steps|, i requires 0 <= i < |steps| => steps[i].cause.event)
  }

  /** A processing failure that arrives after structuring succeeded: a redelivery
      that lost the key claim. The projection ignores it, the stream does not. */
  predicate Stale(steps: seq<Applied>, i: nat)
    requires i < |steps|
  {
    FailsPending(steps[i].cause) && HasStructured(steps[..i])
  }

  /** The history first ends in an event that does not end the row, a stale
      processing failure or a `rendered` that does not decode, and the row did not
      then end just the same; or it never ends and none of its `structured` decodes. */
  predicate Misleads(steps: seq<Applied>)
    requires OnlyEvents(steps)
  {
    var end, actual := FirstEnd(History(steps)), RowEnd(steps);
    if end.Some? then
      && !Ending(steps, end.value)
      && !(actual.Some? && SameEnd(History(steps)[end.value], steps[actual.value].cause))
    else SawStructured(History(steps)) && !HasStructured(steps)
  }

  lemma SawWhatLanded(steps: seq<Applied>)
    requires OnlyEvents(steps) && HasStructured(steps)
    ensures SawStructured(History(steps))
  {
    var i :| 0 <= i < |steps| && Structures(steps[i].cause);
    assert History(steps)[i] in History(steps);
  }

  lemma AgreesIfNotMisled(steps: seq<Applied>, rendering: bool)
    requires OnlyEvents(steps) && (rendering ==> HasStructured(steps))
    ensures Agrees(History(steps), rendering, steps) <==> !Misleads(steps)
  {
    FirstEndIsFirst(History(steps));
    RowEndIsFirst(steps);
    if HasStructured(steps) { SawWhatLanded(steps); }
    var end, actual := FirstEnd(History(steps)), RowEnd(steps);
    assert actual.Some? ==> Ends(History(steps)[actual.value]);
    if end.Some? && Ending(steps, end.value) {
      assert actual == end;
    }
  }

  lemma HasStructuredLater(steps: seq<Applied>, k: nat)
    requires k <= |steps| && HasStructured(steps[..k])
    ensures HasStructured(steps)
  {
    var i :| 0 <= i < k && Structures(steps[..k][i].cause);
    assert Structures(steps[i].cause);
  }

  /** Nothing but events reached the row, in the order of the stream: client and
      row then part exactly on a history that misleads. */
  lemma ReplayInOrder(jobId: string, r: Row, steps: seq<Applied>, k: nat, signals: seq<Signal>)
    requires r.status.Pending? && Consistent(r) && k <= |steps|
    requires OnlyEvents(steps) && Healthy(signals) && Replayed(signals) == History(steps)
    ensures var snapshot := Project(r, steps[..k]);
            var f := Follow(jobId, Opened(jobId, snapshot), signals);
            && f.sent != []
            && (Shown(f) == StatusFromJob(jobId, Project(r, steps))
                <==> Terminal(snapshot.status) || !Misleads(steps))
  {
    var snapshot := Project(r, steps[..k]);
    SnapshotPlusReplay(jobId, r, steps, k, History(steps), signals);
    RowMeetsItsFate(r, steps[..k]);
    if snapshot.status.Rendering? { HasStructuredLater(steps, k); }
    AgreesIfNotMisled(steps, snapshot.status.Rendering?);
  }

  /** The case the gateway's comments promise: bodies that decode and no processing
      failure after `structured`, and every client ends on the live row. */
  lemma CleanHistoryAgrees(jobId: string, r: Row, steps: seq<Applied>, k: nat, signals: seq<Signal>)
    requires r.status.Pending? && Consistent(r) && k <= |steps|
    requires OnlyEvents(steps) && Healthy(signals) && Replayed(signals) == History(steps)
    requires forall i :: 0 <= i < |steps| ==> WellFormed(steps[i].cause.event) && !Stale(steps, i)
    ensures var f := Follow(jobId, Opened(jobId, Project(r, steps[..k])), signals);
            f.sent != [] && Shown(f) == StatusFromJob(jobId, Project(r, steps))
  {
    ReplayInOrder(jobId, r, steps, k, signals);
    var end := FirstEnd(History(steps));
    if end.Some? {
      assert Ending(steps, end.value);
    } else if SawStructured(History(steps)) {
      var e :| e in History(steps) && e.JobStructured?;
      var i :| 0 <= i < |steps| && History(steps)[i] == e;
      assert Structures(steps[i].cause);
    }
  }

  // ---- how they part ----

  /** A client that connects before anything happened and is sent these events. */
  function Watching(events: seq<Event>): seq<Signal> {
    seq(|events|, i requires 0 <= i < |events| => Received(events[i], true))
  }

  lemma {:induction false} WatchingReplays(events: seq<Event>)
    ensures Healthy(Watching(events)) && Replayed(Watching(events)) == events
  {
    if events != [] {
      var n := |events| - 1;
      WatchingReplays(events[..n]);
      assert Watching(events)[..n] == Watching(events[..n]);
      assert events == events[..n] + [events[n]];
    }
  }

  /** What such a client is shown in the end. */
  lemma WatcherSees(jobId: string, r: Row, events: seq<Event>)
    requires r.status.Pending? && Consistent(r)
    ensures var f := Follow(jobId, Opened(jobId, r), Watching(events));
            && f.sent != []
            && (FirstEnd(events).Some? ==> Shown(f) == MapEvent(jobId, events[FirstEnd(events).value]).value)
            && (FirstEnd(events).None? && !SawStructured(events) ==> Shown(f) == StatusUpdate(Pending, None, None))
  {
    WatchingReplays(events);
    ReplayShows(jobId, r, Watching(events));
  }

  lemma EndsFirst(events: seq<Event>, i: nat)
    requires i < |events| && Ends(events[i]) && forall j :: 0 <= j < i ==> !Ends(events[j])
    ensures FirstEnd(events) == Some(i)
  {
    FirstEndIsFirst(events);
  }

  function ProcessingFailed(text: string): Event {
    JobFailed(Some((StageProcessing, text)))
  }

  function At(events: seq<Event>, at: int): seq<Applied> {
    seq(|events|, i requires 0 <= i < |events| => Applied(ByEvent(events[i]), at + i))
  }

  /** Structured, a late claim loser's failure, rendered: the row completes. */
  lemma RowIgnoresTheLoser(r: Row, text: string, cv: string, key: string)
    requires r.status.Pending? && Consistent(r)
    ensures var events := [JobRequested, JobStructured(Some(cv)), ProcessingFailed(text), JobRendered(Some(key))];
            Project(r, At(events, r.createdAt)).status.Completed?
  {
    var events := [JobRequested, JobStructured(Some(cv)), ProcessingFailed(text), JobRendered(Some(key))];
    var steps := At(events, r.createdAt);
    var a, b := steps[..3], steps[..2];
    assert a[..2] == b && b[..1] == steps[..1] && steps[..1][..0] == [];
    assert Project(r, steps[..1]) == r;
    assert Project(r, b).status.Rendering?;
    assert Project(r, a).status.Rendering?;
  }

  /** Stale: a late claim loser makes the stream report failure for a job that completes. */
  lemma StaleFailureMisleads(jobId: string, r: Row, text: string, cv: string, key: string)
    requires r.status.Pending? && Consistent(r)
    ensures var events := [JobRequested, JobStructured(Some(cv)), ProcessingFailed(text), JobRendered(Some(key))];
            var f := Follow(jobId, Opened(jobId, r), Watching(events));
            && Project(r, At(events, r.createdAt)).status.Completed?
            && f.sent != [] && Shown(f) == StatusUpdate(Failed, Some(text), None)
  {
    var events := [JobRequested, JobStructured(Some(cv)), ProcessingFailed(text), JobRendered(Some(key))];
    RowIgnoresTheLoser(r, text, cv, key);
    WatcherSees(jobId, r, events);
    EndsFirst(events, 2);
  }

  /** Out of order: a nak lets the row see `structured` before the failure that
      precedes it in the stream. Each order alone agrees with itself. */
  lemma ReorderedEventsDiverge(jobId: string, r: Row, text: string, cv: string, key: string)
    requires r.status.Pending? && Consistent(r)
    ensures var landed := [JobRequested, JobStructured(Some(cv)), ProcessingFailed(text), JobRendered(Some(key))];
            var stored := [JobRequested, ProcessingFailed(text), JobStructured(Some(cv)), JobRendered(Some(key))];
            var f := Follow(jobId, Opened(jobId, r), Watching(stored));
            && multiset(stored) == multiset(landed)
            && Project(r, At(landed, r.createdAt)).status.Completed?
            && f.sent != [] && Shown(f) == StatusUpdate(Failed, Some(text), None)
  {
    var stored := [JobRequested, ProcessingFailed(text), JobStructured(Some(cv)), JobRendered(Some(key))];
    RowIgnoresTheLoser(r, text, cv, key);
    WatcherSees(jobId, r, stored);
    EndsFirst(stored, 1);
  }

  /** Untold: sweeps, advisories and the submission's own failure publish nothing,
      so a client that replays everything is left waiting on a failed job. */
  lemma UntoldFailureDiverges(jobId: string, r: Row, c: Cause, at: int)
    requires r.status.Pending? && Consistent(r) && !c.ByEvent?
    ensures var f := Follow(jobId, Opened(jobId, r), Watching([JobRequested]));
            && Project(r, [Applied(ByEvent(JobRequested), r.createdAt), Applied(c, at)]).status.Failed?
            && f.sent != [] && f.open && Shown(f) == StatusUpdate(Pending, None, None)
  {
    var steps := [Applied(ByEvent(JobRequested), r.createdAt), Applied(c, at)];
    assert steps[..1][..0] == [];
    assert Project(r, steps[..1]) == r;
    WatchingReplays([JobRequested]);
    ReplayShows(jobId, r, Watching([JobRequested]));
    assert [JobRequested][..0] == [];
  }

  /** Garbled: the projection drops a body that does not decode, the stream
      announces it, download link and all. */
  lemma GarbledBodyDiverges(jobId: string, r: Row)
    requires r.status.Pending? && Consistent(r)
    ensures Project(r, [Applied(ByEvent(JobRendered(None)), r.createdAt)]) == r
    ensures Follow(jobId, Opened(jobId, r), [Received(JobRendered(None), true)]).sent
            == [StatusFromJob(jobId, r), StatusUpdate(Completed, None, DownloadUrl(jobId))]
  {
    assert [Applied(ByEvent(JobRendered(None)), r.createdAt)][..0] == [];
    assert [Received(JobRendered(None), true)][..0] == [];
  }
}
