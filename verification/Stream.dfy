/** The CV_EVENTS stream of one job: stored messages with each durable
    consumer's delivery state, and what a publish does to it. */
module Stream {
  import opened Wrappers
  import opened Subjects
  import opened Events

  // MaxDeliver of the three durable consumers.
  const AI_DELIVERIES := 3
  const CV_DELIVERIES := 3
  const GW_DELIVERIES := 5

  datatype Settlement = Open | Acked | Termed

  /** One consumer's view of one message; NotFiltered when its filter skips the subject. */
  datatype Sub = NotFiltered | Sub(left: nat, settled: Settlement)

  datatype Stored = Stored(event: Event, ai: Sub, cv: Sub, gw: Sub)

  type Log = seq<Stored>

  function Fresh(e: Event): Stored {
    Stored(e,
           if e.JobRequested? then Sub(AI_DELIVERIES, Open) else NotFiltered,
           if e.JobStructured? then Sub(CV_DELIVERIES, Open) else NotFiltered,
           Sub(GW_DELIVERIES, Open))
  }

  /** Does the stream hold an event with this one's message id? */
  predicate HasLike(log: Log, e: Event) {
    exists i :: 0 <= i < |log| && Suffix(log[i].event) == Suffix(e)
  }

  /** How `js.publish` comes back: a server acknowledgement, or an exception of
      one of the kinds the callers tell apart. */
  datatype Reply = Accepted | TransportError | ValueLike | OtherError

  /** One publish as the network and server decide it. An exception says nothing
      about whether the message `reached` the server; `windowPassed` says the
      de-duplication window of an equal message id is over. */
  datatype Outcome = Outcome(reply: Reply, reached: bool, windowPassed: bool)

  /** What one handler run keeps while it publishes. `stored`: its own message
      is in the stream, and the window that opened then outlasts the run's retries. */
  datatype Courier = Courier(used: nat, stored: bool, slept: seq<nat>)

  const NEW_COURIER := Courier(0, false, [])

  predicate Lands(c: Courier, log: Log, e: Event, o: Outcome) {
    (o.reply.Accepted? || o.reached) && (HasLike(log, e) ==> o.windowPassed && !c.stored)
  }

  function Publish(c: Courier, log: Log, e: Event, o: Outcome): (Courier, Log) {
    if Lands(c, log, e, o)
    then (c.(used := c.used + 1, stored := true), log + [Fresh(e)])
    else (c.(used := c.used + 1), log)
  }

  /** A publish stores its event iff it reached the server and no message of the job
      carries its id, or the window of the one that does is over and this run did not
      store it itself. */
  lemma PublishStores(jobId: string, c: Courier, log: Log, e: Event, o: Outcome)
    ensures var id := MsgId(jobId, Suffix(e));
            var known := exists i :: 0 <= i < |log| && MsgId(jobId, Suffix(log[i].event)) == id;
            var stores := (o.reply.Accepted? || o.reached) && (!known || (o.windowPassed && !c.stored));
            Publish(c, log, e, o).1 == if stores then log + [Fresh(e)] else log
  {
    SameIdSameKind(jobId, log, e);
  }

  lemma SameIdSameKind(jobId: string, log: Log, e: Event)
    ensures HasLike(log, e)
            <==> exists i :: 0 <= i < |log| && MsgId(jobId, Suffix(log[i].event)) == MsgId(jobId, Suffix(e))
  {
    forall i | 0 <= i < |log|
      ensures Suffix(log[i].event) == Suffix(e) <==> MsgId(jobId, Suffix(log[i].event)) == MsgId(jobId, Suffix(e))
    {
      assert MsgId(jobId, Suffix(log[i].event))[|jobId| + 1..] == Suffix(log[i].event);
      assert MsgId(jobId, Suffix(e))[|jobId| + 1..] == Suffix(e);
    }
  }

  /** An accepted publish leaves a message with that id in the stream, whether it
      was stored now or dropped as a duplicate. */
  lemma AcceptedIsStored(c: Courier, log: Log, e: Event, o: Outcome)
    ensures var after := Publish(c, log, e, o).1;
            && (o.reply.Accepted? ==> HasLike(after, e))
            && log <= after && |after| <= |log| + 1
  {
    var after := Publish(c, log, e, o).1;
    if Lands(c, log, e, o) {
      assert Suffix(after[|log|].event) == Suffix(e);
    }
  }
}
