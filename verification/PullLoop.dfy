/** The workers' pull loop: fetch one message, run the handler, and settle the
    message by how the handler left. */
module PullLoop {
  import opened Wrappers
  import opened Projection

  /** How a handler leaves; a cancellation is not an `Exception` and passes through the loop. */
  datatype Handled = Returned | RaisedTerminal | RaisedOther | Cancelled

  datatype Fetched = TimedOut | Quiet | Got(msg: nat) | FetchBreaks

  /** One pass of the loop: whether the stop event is set at its top, what the
      fetch brings, how the handler leaves, and whether the ack, term or nak
      itself goes through. */
  datatype Round = Round(stop: bool, fetched: Fetched, handled: Handled, settles: bool)

  datatype Exit = Running | Drained | Crashed

  function DispositionOf(h: Handled): Disposition {
    match h
    case Returned => Ack
    case RaisedTerminal => Term
    case _ => Nak
  }

  /** `settled` holds one action for each of the passes `from`, the passes that got a
      message whose handler was not cancelled: acknowledged if the handler returned,
      terminated if it raised a terminal error, and given back after any other exception. */
  ghost predicate SettledBy(rounds: seq<Round>, passes: nat, settled: seq<(nat, Disposition)>, from: seq<nat>) {
    && passes <= |rounds| && |from| == |settled|
    && (forall i, j :: 0 <= i < j < |from| ==> from[i] < from[j])
    && (forall i :: 0 <= i < |from| ==> from[i] < passes)
    && (forall k :: 0 <= k < passes ==>
          (rounds[k].fetched.Got? && !rounds[k].handled.Cancelled? <==> k in from))
    && (forall i :: 0 <= i < |from| && from[i] < passes ==>
          var r := rounds[from[i]];
          && r.fetched.Got? && settled[i].0 == r.fetched.msg
          && (settled[i].1.Ack? <==> r.handled.Returned?)
          && (settled[i].1.Term? <==> r.handled.RaisedTerminal?)
          && (settled[i].1.Nak? <==> r.handled.RaisedOther?))
  }

  lemma PassSettles(rounds: seq<Round>, k: nat, settled: seq<(nat, Disposition)>, from: seq<nat>)
    requires k < |rounds| && SettledBy(rounds, k, settled, from)
    ensures var r := rounds[k];
            if r.fetched.Got? && !r.handled.Cancelled?
            then SettledBy(rounds, k + 1, settled + [(r.fetched.msg, DispositionOf(r.handled))], from + [k])
            else SettledBy(rounds, k + 1, settled, from)
  {
  }

  /** Over the passes seen so far. Every fetched message is settled exactly once
      and in order, unless its handler was cancelled; only settlements that went
      through are counted; once the stop event is set nothing more is fetched. */
  method RunPullLoop(rounds: seq<Round>)
    returns (settled: seq<(nat, Disposition)>, counted: seq<Disposition>, exit: Exit,
             ghost passes: nat, ghost from: seq<nat>)
    ensures SettledBy(rounds, passes, settled, from)
    ensures forall i :: 0 <= i < passes ==> !rounds[i].stop
    ensures forall i :: 0 <= i < passes - 1 ==>
              && !rounds[i].fetched.FetchBreaks?
              && (rounds[i].fetched.Got? ==> !rounds[i].handled.Cancelled? && rounds[i].settles)
    ensures exit.Drained? ==> passes < |rounds| && rounds[passes].stop
    ensures exit.Crashed? <==>
              passes > 0 && var last := rounds[passes - 1];
              last.fetched.FetchBreaks? || (last.fetched.Got? && (last.handled.Cancelled? || !last.settles))
    ensures exit.Running? ==> passes == |rounds|
    ensures |settled| - 1 <= |counted| <= |settled|
    ensures !exit.Crashed? ==> |counted| == |settled|
    ensures forall i :: 0 <= i < |counted| ==> counted[i] == settled[i].1
  {
    settled, counted, from := [], [], [];
    for i := 0 to |rounds|
      invariant SettledBy(rounds, i, settled, from)
      invariant |counted| == |settled|
      invariant forall j :: 0 <= j < |counted| ==> counted[j] == settled[j].1
      invariant forall j :: 0 <= j < i ==>
                  && !rounds[j].stop && !rounds[j].fetched.FetchBreaks?
                  && (rounds[j].fetched.Got? ==> !rounds[j].handled.Cancelled? && rounds[j].settles)
    {
      var r := rounds[i];
      PassSettles(rounds, i, settled, from);
      if r.stop { return settled, counted, Drained, i, from; }
      match r.fetched {
        case TimedOut => continue;
        case Quiet => continue;
        case FetchBreaks => return settled, counted, Crashed, i + 1, from;
        case Got(msg) =>
          if r.handled == Cancelled { return settled, counted, Crashed, i + 1, from; }
          var outcome := DispositionOf(r.handled);
          settled, from := settled + [(msg, outcome)], from + [i];
          if !r.settles { return settled, counted, Crashed, i + 1, from; }
          counted := counted + [outcome];
      }
    }
    exit, passes := Running, |rounds|;
  }
}
