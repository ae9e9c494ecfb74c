/** The Python services' publishing helpers. */
module Natsx {
  import opened Wrappers
  import opened Events
  import opened Stream

  /** The default in-delivery retry delays, in seconds. */
  const PUBLISH_RETRY_DELAYS := [1, 3]

  /** The retry loop from attempt `a` on. */
  function Retry(c: Courier, log: Log, e: Event, outcomes: nat -> Outcome, delays: seq<nat>, a: nat)
    : (Courier, Log, Reply)
    requires a <= |delays|
    decreases |delays| - a
  {
    var o := outcomes(c.used);
    var (sent, after) := Publish(c, log, e, o);
    if !o.reply.TransportError? || a == |delays| then (sent, after, o.reply)
    else Retry(sent.(slept := sent.slept + [delays[a]]), after, e, outcomes, delays, a + 1)
  }

  class JetStreamContext {
    const outcomes: nat -> Outcome
    var log: Log
    var courier: Courier

    constructor (log: Log, outcomes: nat -> Outcome)
      ensures this.log == log && this.outcomes == outcomes && courier == NEW_COURIER
    {
      this.log, this.outcomes, courier := log, outcomes, NEW_COURIER;
    }

    method PublishEvent(e: Event) returns (reply: Reply)
      modifies this
      ensures (courier, log) == Publish(old(courier), old(log), e, outcomes(old(courier.used)))
      ensures reply == outcomes(old(courier.used)).reply
    {
      var o := outcomes(courier.used);
      reply := o.reply;
      var lands := Lands(courier, log, e, o);
      courier := courier.(used := courier.used + 1);
      if lands {
        courier := courier.(stored := true);
        log := log + [Fresh(e)];
      }
    }

    /** Retries transport errors only: the reply is that of the first attempt that
        is not one, or a transport error when the whole budget was, and the sleeps
        are exactly the delays before the attempts that followed. */
    method PublishWithRetry(e: Event, delays: seq<nat>) returns (reply: Reply)
      modifies this
      ensures (courier, log, reply) == Retry(old(courier), old(log), e, outcomes, delays, 0)
      ensures var k := courier.used - old(courier.used);
              && 1 <= k <= |delays| + 1
              && (forall i :: old(courier.used) <= i < courier.used - 1 ==> outcomes(i).reply.TransportError?)
              && reply == outcomes(courier.used - 1).reply
              && (reply.TransportError? ==> k == |delays| + 1)
              && courier.slept == old(courier.slept) + delays[..k - 1]
      ensures reply.Accepted? ==> HasLike(log, e)
      ensures old(log) <= log && |log| <= old(|log|) + 1
      ensures |log| == old(|log|) + 1 ==> log[old(|log|)] == Fresh(e)
    {
      var attempts := |delays| + 1;
      for attempt := 0 to attempts
        invariant courier.used == old(courier.used) + attempt
        invariant forall i :: old(courier.used) <= i < courier.used ==> outcomes(i).reply.TransportError?
        invariant courier.slept == old(courier.slept) + delays[..if attempt <= |delays| then attempt else |delays|]
        invariant attempt <= |delays| ==>
                    Retry(courier, log, e, outcomes, delays, attempt)
                    == Retry(old(courier), old(log), e, outcomes, delays, 0)
        invariant attempt < attempts
        invariant log == old(log) || (log == old(log) + [Fresh(e)] && courier.stored)
      {
        AcceptedIsStored(courier, log, e, outcomes(courier.used));
        HasFresh(old(log), e);
        reply := PublishEvent(e);
        if reply != TransportError || attempt + 1 == attempts {
          return;
        }
        courier := courier.(slept := courier.slept + [delays[attempt]]);
        assert delays[..attempt + 1] == delays[..attempt] + [delays[attempt]];
      }
      assert false;
    }
  }

  /** The attempts from the `first`-th to before the `next`-th publish are the loop's:
      every one but the last a transport error, and the last too only when no delay is left. */
  predicate Tried(delays: seq<nat>, outcomes: nat -> Outcome, first: nat, next: nat) {
    && 1 <= next - first <= |delays| + 1
    && (forall i :: first <= i < next - 1 ==> outcomes(i).reply.TransportError?)
    && (outcomes(next - 1).reply.TransportError? ==> next - first == |delays| + 1)
  }

  /** The recursive loop in closed form: how often it publishes, how long it sleeps
      in between and how it comes back. */
  lemma {:induction false} RetryStops(c: Courier, log: Log, e: Event, outcomes: nat -> Outcome,
                                      delays: seq<nat>, a: nat)
    requires a <= |delays|
    ensures var (sent, after, reply) := Retry(c, log, e, outcomes, delays, a);
            && Tried(delays[a..], outcomes, c.used, sent.used)
            && reply == outcomes(sent.used - 1).reply
            && sent.slept == c.slept + delays[a..][..sent.used - c.used - 1]
    decreases |delays| - a
  {
    var o := outcomes(c.used);
    var (sent, after) := Publish(c, log, e, o);
    if o.reply.TransportError? && a < |delays| {
      var next := sent.(slept := sent.slept + [delays[a]]);
      RetryStops(next, after, e, outcomes, delays, a + 1);
      var k := Retry(next, after, e, outcomes, delays, a + 1).0.used - c.used - 1;
      assert delays[a..][1..] == delays[a + 1..];
      assert [delays[a]] + delays[a..][1..][..k - 1] == delays[a..][..k];
    } else {
      assert delays[a..][..0] == [];
    }
  }

  lemma HasFresh(log: Log, e: Event)
    ensures HasLike(log + [Fresh(e)], e)
  {
    assert Suffix((log + [Fresh(e)])[|log|].event) == Suffix(e);
  }
}
