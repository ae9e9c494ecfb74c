/** The one object store that all jobs share: who stored what is served for a job. */
module StorageLaws {
  import opened Wrappers
  import opened JobStore
  import opened Projection
  import opened Pipeline
  import opened PipelineLaws
  import Cv = CvGenerator

  /** An object and the job whose run uploaded it. */
  datatype Object = Object(owner: string, pdf: Cv.Pdf)

  /** What an action uploads, and under which key: an upload whose reply is lost counts. */
  function Upload(s: System, a: Action): Option<(string, Object)> {
    if !a.Act? || !a.action.CvAct? || a.id !in s.jobs then None
    else
      var j, work := s.jobs[a.id], a.action.work;
      if work < |j.cv| && j.cv[work].live && j.cv[work].run.phase.Putting? && !a.action.cvInput.put.NotStored?
      then Some((Cv.ObjectKey(a.id), Object(a.id, j.cv[work].run.phase.pdf))) else None
  }

  /** The store after a run: later uploads under a key replace earlier ones, whoever's they are. */
  function Stored(delays: seq<nat>, actions: seq<Action>): map<string, Object> {
    if actions == [] then map[]
    else
      var n := |actions| - 1;
      var upload := Upload(Run(delays, actions[..n]), actions[n]);
      var before := Stored(delays, actions[..n]);
      if upload.None? then before else before[upload.value.0 := upload.value.1]
  }

  function PdfKey(id: string): string {
    "cvs/" + id + ".pdf"
  }

  lemma PdfKeysDiffer(a: string, b: string)
    requires PdfKey(a) == PdfKey(b)
    ensures a == b
  {
    assert a == PdfKey(a)[4..|PdfKey(a)| - 4];
    assert b == PdfKey(b)[4..|PdfKey(b)| - 4];
  }

  lemma ActShelves(delays: seq<nat>, s: System, a: Action)
    requires a.Act? && a.id in s.jobs
    ensures JobNext(delays, a.id, s.jobs[a.id], a.action, s.gw.now).shelf
            == if Upload(s, a).Some? then Some(Upload(s, a).value.1.pdf) else s.jobs[a.id].shelf
  {
  }

  lemma UploadIsShelved(delays: seq<nat>, s: System, a: Action, id: string)
    requires id in s.jobs
    ensures id in JobsNext(delays, s, a)
    ensures JobsNext(delays, s, a)[id].shelf
            == if Upload(s, a).Some? && a.id == id then Some(Upload(s, a).value.1.pdf) else s.jobs[id].shelf
  {
    if a.Act? && a.id == id { ActShelves(delays, s, a); }
  }

  lemma NewShelfIsEmpty(delays: seq<nat>, s: System, a: Action, id: string)
    requires id !in s.jobs && id in JobsNext(delays, s, a)
    ensures JobsNext(delays, s, a)[id].shelf.None?
  {
  }

  /** Under a job's key lies what its own runs last uploaded, and nothing lies elsewhere. */
  ghost predicate Shelved(jobs: map<string, Job>, store: map<string, Object>) {
    && (forall id :: id in jobs ==>
          && (jobs[id].shelf.Some? <==> PdfKey(id) in store)
          && (jobs[id].shelf.Some? ==> store[PdfKey(id)] == Object(id, jobs[id].shelf.value)))
    && (forall key :: key in store ==> store[key].owner in jobs && key == PdfKey(store[key].owner))
  }

  lemma ShelvedNext(jobs: map<string, Job>, after: map<string, Job>, store: map<string, Object>,
                    upload: Option<(string, Object)>)
    requires Shelved(jobs, store) && jobs.Keys <= after.Keys
    requires upload.Some? ==> upload.value.1.owner in jobs && upload.value.0 == PdfKey(upload.value.1.owner)
    requires forall id :: id in jobs ==>
               after[id].shelf == if upload.Some? && upload.value.1.owner == id then Some(upload.value.1.pdf)
                                  else jobs[id].shelf
    requires forall id :: id in after && id !in jobs ==> after[id].shelf.None?
    ensures Shelved(after, if upload.None? then store else store[upload.value.0 := upload.value.1])
  {
    forall id | id in after
      ensures upload.Some? && PdfKey(id) == PdfKey(upload.value.1.owner) ==> id == upload.value.1.owner
      ensures id !in jobs ==> PdfKey(id) !in store
    {
      if upload.Some? && PdfKey(id) == PdfKey(upload.value.1.owner) { PdfKeysDiffer(id, upload.value.1.owner); }
      if id !in jobs && PdfKey(id) in store { PdfKeysDiffer(id, store[PdfKey(id)].owner); }
    }
  }

  lemma UploadKeepsShelved(delays: seq<nat>, s: System, a: Action, store: map<string, Object>)
    requires Shelved(s.jobs, store)
    ensures var upload := Upload(s, a);
            Shelved(JobsNext(delays, s, a), if upload.None? then store else store[upload.value.0 := upload.value.1])
  {
    forall id | id in s.jobs
      ensures id in JobsNext(delays, s, a)
      ensures JobsNext(delays, s, a)[id].shelf
              == if Upload(s, a).Some? && a.id == id then Some(Upload(s, a).value.1.pdf) else s.jobs[id].shelf
    {
      UploadIsShelved(delays, s, a, id);
    }
    forall id | id in JobsNext(delays, s, a) && id !in s.jobs ensures JobsNext(delays, s, a)[id].shelf.None? {
      NewShelfIsEmpty(delays, s, a, id);
    }
    ShelvedNext(s.jobs, JobsNext(delays, s, a), store, Upload(s, a));
  }

  lemma {:induction false} RunIsShelved(delays: seq<nat>, actions: seq<Action>)
    ensures Shelved(Run(delays, actions).jobs, Stored(delays, actions))
  {
    if actions != [] {
      var n := |actions| - 1;
      RunIsShelved(delays, actions[..n]);
      UploadKeepsShelved(delays, Run(delays, actions[..n]), actions[n], Stored(delays, actions[..n]));
    }
  }

  /** In every reachable state, what is stored under a completed row's key was
      uploaded by a run of that very job, and has at most two pages. */
  lemma CompletedRowsServeTheirOwn(delays: seq<nat>, actions: seq<Action>, id: string)
    requires id in Run(delays, actions).gw.rows && Run(delays, actions).gw.rows[id].status.Completed?
    ensures var key, store := "cvs/" + id + ".pdf", Stored(delays, actions);
            && Run(delays, actions).gw.rows[id].pdfObjectKey == Some(key)
            && key in store && store[key].owner == id && store[key].pdf.pages <= 2
  {
    RunIsShelved(delays, actions);
    CompletedMeansDelivered(delays, actions, id);
  }

  /** Two completed rows never carry the same key. */
  lemma CompletedRowsShareNoKey(delays: seq<nat>, actions: seq<Action>, a: string, b: string)
    requires a != b && a in Run(delays, actions).gw.rows && b in Run(delays, actions).gw.rows
    requires Run(delays, actions).gw.rows[a].status.Completed? && Run(delays, actions).gw.rows[b].status.Completed?
    ensures Run(delays, actions).gw.rows[a].pdfObjectKey != Run(delays, actions).gw.rows[b].pdfObjectKey
  {
    CompletedMeansDelivered(delays, actions, a);
    CompletedMeansDelivered(delays, actions, b);
    if PdfKey(a) == PdfKey(b) { PdfKeysDiffer(a, b); }
  }
}
