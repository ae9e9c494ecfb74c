/** What the clients of the pipeline's status streams end on, over every run. */
module ReplayLaws {
  import opened Wrappers
  import opened Events
  import opened Stream
  import opened JobStore
  import opened Projection
  import opened ProjectionLaws
  import opened DeliveryLaws
  import opened FateLaws
  import opened Pipeline
  import opened PipelineLaws
  import opened JobFates
  import Sse

  // ---- the status stream of a job of the pipeline ----

  /** The events a replay of the job's stream delivers. */
  function StoredEvents(log: Log): (events: seq<Event>)
    ensures |events| == |log|
  {
    seq(|log|, i requires 0 <= i < |log| => log[i].event)
  }

  /** A row keeps its origin, and its writes are only added to. */
  lemma {:induction false} WrittenGrows(delays: seq<nat>, actions: seq<Action>, m: nat, id: string)
    requires m <= |actions| && id in Run(delays, actions[..m]).gw.rows
    ensures id in Run(delays, actions).gw.rows
    ensures var row, later := Run(delays, actions[..m]).gw.rows[id], Run(delays, actions).gw.rows[id];
            later.spec == row.spec && later.createdAt == row.createdAt
    ensures Written(delays, actions[..m], id) <= Written(delays, actions, id)
  {
    if m == |actions| {
      assert actions[..m] == actions;
    } else {
      var n := |actions| - 1;
      assert actions[..n][..m] == actions[..m];
      WrittenGrows(delays, actions[..n], m, id);
      WrittenNext(delays, actions, id);
      RowsFollow(delays, actions, id);
    }
  }

  /** What landed is stored. */
  lemma LandedIsStored(delays: seq<nat>, actions: seq<Action>, id: string)
    requires id in Run(delays, actions).jobs && HasStructured(Written(delays, actions, id))
    ensures Sse.SawStructured(StoredEvents(Run(delays, actions).jobs[id].log))
  {
    var steps, log := Written(delays, actions, id), Run(delays, actions).jobs[id].log;
    var i :| 0 <= i < |steps| && Structures(steps[i].cause);
    WrittenIsBacked(delays, actions, id, i);
    var k :| 0 <= k < |log| && log[k].event == steps[i].cause.event;
    assert StoredEvents(log)[k] in StoredEvents(log);
  }

  /** In every run, a client that connected at any earlier moment and then replays
      everything the stream of the job holds ends on exactly the state of its row,
      if and only if the row was terminal when it connected, or the first ending
      event of the stream and the first ending write of the row come to the same. */
  lemma ReplayOfTheStream(delays: seq<nat>, actions: seq<Action>, m: nat, id: string, signals: seq<Sse.Signal>)
    requires m <= |actions| && id in Run(delays, actions[..m]).gw.rows && id in Run(delays, actions).jobs
    requires Sse.Healthy(signals) && Sse.Replayed(signals) == StoredEvents(Run(delays, actions).jobs[id].log)
    ensures id in Run(delays, actions).gw.rows
    ensures var snapshot, s := Run(delays, actions[..m]).gw.rows[id], Run(delays, actions);
            var f := Sse.Follow(id, Sse.Opened(id, snapshot), signals);
            && f.sent != []
            && (Sse.Shown(f) == Sse.StatusFromJob(id, s.gw.rows[id])
                <==> Terminal(snapshot.status)
                     || Sse.Agrees(StoredEvents(s.jobs[id].log), false, Written(delays, actions, id)))
  {
    WrittenGrows(delays, actions, m, id);
    RunRowMeetsItsFate(delays, actions, id);
    SnapshotIsAPrefix(delays, actions, m, id);
    var snapshot, row := Run(delays, actions[..m]).gw.rows[id], Run(delays, actions).gw.rows[id];
    var steps, k := Written(delays, actions, id), |Written(delays, actions[..m], id)|;
    var events := StoredEvents(Run(delays, actions).jobs[id].log);
    Sse.SnapshotPlusReplay(id, NewRow(row.spec, row.createdAt), steps, k, events, signals);
    if HasStructured(steps) { LandedIsStored(delays, actions, id); }
    assert Sse.Agrees(events, snapshot.status.Rendering?, steps) == Sse.Agrees(events, false, steps);
  }

  lemma SnapshotIsAPrefix(delays: seq<nat>, actions: seq<Action>, m: nat, id: string)
    requires m <= |actions| && id in Run(delays, actions[..m]).gw.rows && id in Run(delays, actions).gw.rows
    ensures var snapshot, row := Run(delays, actions[..m]).gw.rows[id], Run(delays, actions).gw.rows[id];
            var steps, k := Written(delays, actions, id), |Written(delays, actions[..m], id)|;
            && k <= |steps| && snapshot == Project(NewRow(row.spec, row.createdAt), steps[..k])
            && (snapshot.status.Rendering? ==> HasStructured(steps))
  {
    WrittenGrows(delays, actions, m, id);
    RunRowMeetsItsFate(delays, actions[..m], id);
    var steps, k := Written(delays, actions, id), |Written(delays, actions[..m], id)|;
    assert steps[..k] == Written(delays, actions[..m], id);
    if HasStructured(steps[..k]) { Sse.HasStructuredLater(steps, k); }
  }
}
