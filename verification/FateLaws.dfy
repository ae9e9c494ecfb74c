/** How a row ends: which of the writes that reach it decides its fate, for any
    events, bodies, order, sweeps, advisories and failed submissions. */
module FateLaws {
  import opened Wrappers
  import opened Events
  import opened JobStore
  import opened Projection
  import opened ProjectionLaws
  import opened DeliveryLaws

  /** A cause that sets a row to failed, when it may. */
  predicate Fails(c: Cause) {
    var change := ChangeBy(c);
    change.Some? && (change.value.ToFailed? || change.value.ToFailedProcessing?)
  }

  /** A processing failure; the only kind of failure that a structured row ignores. */
  predicate FailsPending(c: Cause) {
    var change := ChangeBy(c);
    change.Some? && change.value.ToFailedProcessing?
  }

  function TextOf(c: Cause): string
    requires Fails(c)
  {
    ChangeBy(c).value.text
  }

  /** Write `i` ends a row that is still live: it sets the key, or it fails the
      row and is no processing failure that came after `structured`. */
  predicate Ending(steps: seq<Applied>, i: nat)
    requires i < |steps|
  {
    || Renders(steps[i].cause)
    || (Fails(steps[i].cause) && (FailsPending(steps[i].cause) ==> !HasStructured(steps[..i])))
  }

  /** The first write that ends the row. */
  function RowEnd(steps: seq<Applied>): (i: Option<nat>)
    ensures i.Some? ==> i.value < |steps| && Ending(steps, i.value)
  {
    if steps == [] then None
    else
      var n := |steps| - 1;
      var earlier := RowEnd(steps[..n]);
      if earlier.Some? then
        assert steps[..n][..earlier.value] == steps[..earlier.value];
        earlier
      else if Ending(steps, n) then Some(n) else None
  }

  lemma {:induction false} RowEndIsFirst(steps: seq<Applied>)
    ensures RowEnd(steps).None? ==> forall i :: 0 <= i < |steps| ==> !Ending(steps, i)
    ensures RowEnd(steps).Some? ==> forall i :: 0 <= i < RowEnd(steps).value ==> !Ending(steps, i)
  {
    if steps != [] {
      var n := |steps| - 1;
      RowEndIsFirst(steps[..n]);
      forall i | 0 <= i < n ensures Ending(steps, i) <==> Ending(steps[..n], i) {
        assert steps[..n][..i] == steps[..i];
      }
    }
  }

  /** What the writes made of the row: how it ended, or how far it got. */
  datatype Fate = Live(structured: bool) | Rendered(key: string) | Broken(text: string)

  function FateOf(steps: seq<Applied>): Fate {
    var end := RowEnd(steps);
    if end.None? then Live(HasStructured(steps))
    else
      var c := steps[end.value].cause;
      if Renders(c) then Rendered(c.event.pdfKey.value) else Broken(TextOf(c))
  }

  /** A row whose status, key and error are those of a fate. */
  predicate Meets(r: Row, f: Fate) {
    match f
    case Live(structured) =>
      r.status == (if structured then Rendering else Pending) && r.error.None? && r.pdfObjectKey.None?
    case Rendered(key) => r.status.Completed? && r.error.None? && r.pdfObjectKey == Some(key)
    case Broken(text) => r.status.Failed? && r.error == Some(text) && r.pdfObjectKey.None?
  }

  lemma HasStructuredExtends(steps: seq<Applied>, a: Applied)
    ensures HasStructured(steps + [a]) <==> HasStructured(steps) || Structures(a.cause)
  {
    var all := steps + [a];
    if HasStructured(steps) {
      var i :| 0 <= i < |steps| && Structures(steps[i].cause);
      assert Structures(all[i].cause);
    }
    if Structures(a.cause) {
      assert Structures(all[|steps|].cause);
    }
  }

  /** The fate after one more write. */
  function FateNext(f: Fate, c: Cause): Fate {
    if !f.Live? then f
    else if Renders(c) then Rendered(c.event.pdfKey.value)
    else if Fails(c) && (FailsPending(c) ==> !f.structured) then Broken(TextOf(c))
    else Live(f.structured || Structures(c))
  }

  lemma FateExtends(steps: seq<Applied>, a: Applied)
    ensures FateOf(steps + [a]) == FateNext(FateOf(steps), a.cause)
  {
    assert (steps + [a])[..|steps|] == steps;
    HasStructuredExtends(steps, a);
  }

  lemma AffectMeets(r: Row, f: Fate, c: Cause, now: int)
    requires Meets(r, f)
    ensures Meets(Affect(r, c, now), FateNext(f, c))
  {
  }

  /** The fate decides status, key and error of a row, and the fate is that of the
      first write that ends it, whatever came before and after. */
  lemma {:induction false} RowMeetsItsFate(r: Row, steps: seq<Applied>)
    requires r.status.Pending? && Consistent(r)
    ensures Meets(Project(r, steps), FateOf(steps))
  {
    if steps != [] {
      var n := |steps| - 1;
      RowMeetsItsFate(r, steps[..n]);
      AffectMeets(Project(r, steps[..n]), FateOf(steps[..n]), steps[n].cause, steps[n].at);
      FateExtends(steps[..n], steps[n]);
      assert steps == steps[..n] + [steps[n]];
    }
  }

  // ---- when a row fails, when it completes ----

  /** Write `i` is a failure that comes before every `rendered` and, if a
      processing failure, before every `structured`. */
  predicate Strikes(steps: seq<Applied>, i: nat)
    requires i < |steps|
  {
    && Fails(steps[i].cause) && !HasRendered(steps[..i])
    && (FailsPending(steps[i].cause) ==> !HasStructured(steps[..i]))
  }

  predicate Struck(steps: seq<Applied>) {
    exists i :: 0 <= i < |steps| && Strikes(steps, i)
  }

  lemma RenderedEnds(steps: seq<Applied>, i: nat)
    requires i <= |steps| && HasRendered(steps[..i])
    ensures RowEnd(steps).Some? && RowEnd(steps).value < i
  {
    var k :| 0 <= k < i && Renders(steps[..i][k].cause);
    assert Ending(steps, k);
    RowEndIsFirst(steps);
  }

  /** A row fails exactly when some failure strikes it, with the text of the first
      that does, and completes exactly when `rendered` lands and none strikes. */
  lemma FailedIffStruck(r: Row, steps: seq<Applied>)
    requires r.status.Pending? && Consistent(r)
    ensures var out := Project(r, steps);
            && (out.status.Failed? <==> Struck(steps))
            && (out.status.Completed? <==> HasRendered(steps) && !Struck(steps))
            && (out.status.Failed? ==> exists i ::
                  0 <= i < |steps| && Strikes(steps, i) && out.error == Some(TextOf(steps[i].cause)))
  {
    RowMeetsItsFate(r, steps);
    RowEndIsFirst(steps);
    assert steps[..|steps|] == steps;
    if HasRendered(steps) { RenderedEnds(steps, |steps|); }
    var end := RowEnd(steps);
    if end.Some? && !Renders(steps[end.value].cause) {
      if HasRendered(steps[..end.value]) { RenderedEnds(steps, end.value); }
      assert Strikes(steps, end.value);
    }
    if Struck(steps) {
      var i :| 0 <= i < |steps| && Strikes(steps, i);
      assert Ending(steps, i) && end.value <= i;
    }
  }

  /** Write `i` finds the row live and brings its CV. */
  predicate BringsCv(steps: seq<Applied>, i: nat)
    requires i < |steps|
  {
    Structures(steps[i].cause) && RowEnd(steps[..i]).None?
  }

  predicate CvBrought(steps: seq<Applied>) {
    exists i :: 0 <= i < |steps| && BringsCv(steps, i)
  }

  lemma CvBroughtExtends(steps: seq<Applied>, a: Applied)
    ensures CvBrought(steps + [a]) <==> CvBrought(steps) || (Structures(a.cause) && RowEnd(steps).None?)
  {
    var all := steps + [a];
    forall i | 0 <= i < |steps| ensures BringsCv(all, i) <==> BringsCv(steps, i) {
      assert all[..i] == steps[..i];
    }
    assert all[..|steps|] == steps;
    if CvBrought(steps) {
      var i :| 0 <= i < |steps| && BringsCv(steps, i);
      assert BringsCv(all, i);
    }
    if Structures(a.cause) && RowEnd(steps).None? {
      assert BringsCv(all, |steps|);
    }
  }

  lemma {:induction false} LiveStructuredWasBrought(steps: seq<Applied>)
    requires RowEnd(steps).None? && HasStructured(steps)
    ensures CvBrought(steps)
  {
    var n := |steps| - 1;
    assert steps == steps[..n] + [steps[n]];
    HasStructuredExtends(steps[..n], steps[n]);
    CvBroughtExtends(steps[..n], steps[n]);
    if HasStructured(steps[..n]) { LiveStructuredWasBrought(steps[..n]); }
  }

  /** The order of events is irrelevant to the status of a job that nothing fails,
      but not to its structured CV: for any writes at all, the row has one exactly
      when some `structured` that decodes landed before the row ended. */
  lemma {:induction false} CvNeedsOrder(r: Row, steps: seq<Applied>)
    requires r.status.Pending? && Consistent(r)
    ensures Project(r, steps).cv.Some? <==> CvBrought(steps)
  {
    if steps != [] {
      var n := |steps| - 1;
      var before, a := steps[..n], steps[n];
      CvNeedsOrder(r, before);
      RowMeetsItsFate(r, before);
      assert steps == before + [a];
      CvBroughtExtends(before, a);
      if RowEnd(before).None? && HasStructured(before) { LiveStructuredWasBrought(before); }
    }
  }

  // ---- from creation on ----

  lemma {:induction false} NoRowNoWrites(ops: seq<Op>, id: string)
    requires id !in Exec(EMPTY, ops).rows
    ensures Writes(EMPTY, ops, id) == []
  {
    if ops != [] {
      var before := ops[..|ops| - 1];
      RowsOnlyMoveForward(EMPTY, before);
      NextKeepsRows(Exec(EMPTY, before), ops[|ops| - 1]);
      NoRowNoWrites(before, id);
    }
  }

  lemma AffectKeepsOrigin(r: Row, c: Cause, now: int)
    ensures Affect(r, c, now).spec == r.spec && Affect(r, c, now).createdAt == r.createdAt
  {
  }

  /** Every row of every run is a new row with the writes that reached it. */
  lemma {:induction false} RowFromCreation(ops: seq<Op>, id: string)
    requires id in Exec(EMPTY, ops).rows
    ensures var row := Exec(EMPTY, ops).rows[id];
            row == Project(NewRow(row.spec, row.createdAt), Writes(EMPTY, ops, id))
  {
    var before, op := ops[..|ops| - 1], ops[|ops| - 1];
    var g := Exec(EMPTY, before);
    if id in g.rows {
      RowFromCreation(before, id);
      OpOnRow(g, op, id);
      var cause := CauseOf(g, op, id);
      if cause.Some? {
        AffectKeepsOrigin(g.rows[id], cause.value, g.now);
        var steps := Writes(EMPTY, ops, id);
        assert steps[..|steps| - 1] == Writes(EMPTY, before, id);
      } else {
        assert Writes(EMPTY, ops, id) == Writes(EMPTY, before, id);
      }
    } else {
      NoRowNoWrites(before, id);
      OnlyCreateAdds(g, op, id);
    }
  }

  /** Over every run of the gateway: each row has the fate of its writes. */
  lemma EveryRowMeetsItsFate(ops: seq<Op>, id: string)
    requires id in Exec(EMPTY, ops).rows
    ensures Meets(Exec(EMPTY, ops).rows[id], FateOf(Writes(EMPTY, ops, id)))
  {
    RowFromCreation(ops, id);
    var row := Exec(EMPTY, ops).rows[id];
    RowMeetsItsFate(NewRow(row.spec, row.createdAt), Writes(EMPTY, ops, id));
  }

  /** Processing failures never fail a row that has its CV. */
  lemma {:induction false} ProcessingFailuresSpareTheStructured(r: Row, steps: seq<Applied>)
    requires r.status.Pending? && Consistent(r)
    requires forall i :: 0 <= i < |steps| && Fails(steps[i].cause) ==> FailsPending(steps[i].cause)
    ensures Project(r, steps).status.Failed? ==> Project(r, steps).cv.None?
    ensures Project(r, steps).status.Pending? ==> Project(r, steps).cv.None?
  {
    if steps != [] {
      ProcessingFailuresSpareTheStructured(r, steps[..|steps| - 1]);
    }
  }
}
