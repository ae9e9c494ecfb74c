/** Per-job NATS subjects and message ids: the addressing contract that the Go
    gateway and the Python workers each implement on their own side. */
module Subjects {
  import opened Wrappers
  import opened Text

  const EVENT_REQUESTED := "requested"
  const EVENT_STRUCTURED := "structured"
  const EVENT_RENDERED := "rendered"
  const EVENT_FAILED := "failed"

  const EVENTS := {EVENT_REQUESTED, EVENT_STRUCTURED, EVENT_RENDERED, EVENT_FAILED}

  /** `cv.{job_id}.{event}` */
  function Subject(jobId: string, event: string): string {
    "cv" + "." + jobId + "." + event
  }

  /** `{job_id}:{event}`, the de-duplication id. */
  function MsgId(jobId: string, event: string): string {
    jobId + ":" + event
  }

  function ParseSubject(subject: string): Option<(string, string)> {
    var parts := Split(subject, '.');
    if |parts| != 3 || parts[0] != "cv" then None else Some((parts[1], parts[2]))
  }

  /** The Python side's `subject.split(".")[1]`; None stands for the IndexError. */
  function JobIdFromSubject(subject: string): Option<string> {
    var parts := Split(subject, '.');
    if |parts| < 2 then None else Some(parts[1])
  }

  /** The Python side's `subject.rsplit(".", 1)[-1]`. */
  function EventFromSubject(subject: string): string {
    var parts := Split(subject, '.');
    parts[|parts| - 1]
  }

  lemma SubjectSplits(jobId: string, event: string)
    ensures Split(Subject(jobId, event), '.') == ["cv"] + Split(jobId + "." + event, '.')
    ensures '.' !in jobId ==> Split(jobId + "." + event, '.') == [jobId] + Split(event, '.')
  {
    assert Subject(jobId, event) == "cv" + ['.'] + (jobId + "." + event);
    SplitHead("cv", jobId + "." + event, '.');
    if '.' !in jobId {
      SplitHead(jobId, event, '.');
    }
  }

  /** The number of parts is one more than the number of separators, so a dot in
      either half of the tail always adds a part. */
  lemma {:induction false} SplitCount(a: string, b: string, sep: char)
    ensures |Split(a + [sep] + b, sep)| == |Split(a, sep)| + |Split(b, sep)|
  {
    if a == [] {
      assert (a + [sep] + b)[0] == sep && (a + [sep] + b)[1..] == b;
    } else {
      assert (a + [sep] + b)[0] == a[0] && (a + [sep] + b)[1..] == a[1..] + [sep] + b;
      SplitCount(a[1..], b, sep);
    }
  }

  lemma {:induction false} SplitLonger(s: string, sep: char)
    ensures |Split(s, sep)| == 1 <==> sep !in s
  {
    if s != [] {
      SplitLonger(s[1..], sep);
      assert s == [s[0]] + s[1..];
    }
  }

  /** Parsing undoes printing exactly when neither half contains a dot. */
  lemma ParseOfSubject(jobId: string, event: string)
    ensures ParseSubject(Subject(jobId, event)) == Some((jobId, event))
            <==> '.' !in jobId && '.' !in event
    ensures '.' in jobId || '.' in event ==> ParseSubject(Subject(jobId, event)) == None
  {
    SubjectSplits(jobId, event);
    SplitCount(jobId, event, '.');
    SplitLonger(jobId, '.');
    SplitLonger(event, '.');
    if '.' !in event {
      SplitWhole(event, '.');
    }
  }

  /** Printing undoes parsing on every accepted subject. */
  lemma SubjectOfParse(subject: string)
    requires ParseSubject(subject).Some?
    ensures var (jobId, event) := ParseSubject(subject).value;
            Subject(jobId, event) == subject && '.' !in jobId && '.' !in event
  {
    var parts := Split(subject, '.');
    JoinOfSplit(subject, '.');
    var tail := parts[1..];
    assert Join(tail, '.') == tail[0] + ['.'] + Join(tail[1..], '.');
    assert Join(parts, '.') == parts[0] + ['.'] + (parts[1] + ['.'] + parts[2]);
  }

  /** The two languages read the same job id and event off every subject the gateway accepts. */
  lemma PythonAgreesWithGo(subject: string)
    requires ParseSubject(subject).Some?
    ensures JobIdFromSubject(subject) == Some(ParseSubject(subject).value.0)
    ensures EventFromSubject(subject) == ParseSubject(subject).value.1
  {
  }

  /** When two strings agree and one has the longer tail, its separator falls inside that tail. */
  lemma SeparatorInLongerTail(a: string, x: string, b: string, y: string, sep: char)
    requires a + [sep] + x == b + [sep] + y
    requires |x| < |y|
    ensures sep in y
  {
    var whole := a + [sep] + x;
    assert whole[|whole| - 1 - |x|] == sep;
    assert y[|y| - 1 - |x|] == (b + [sep] + y)[|whole| - 1 - |x|];
  }

  /** No two (job, event) pairs share a message id, whatever the job ids look like. */
  lemma MsgIdInjective(jobA: string, eventA: string, jobB: string, eventB: string)
    requires eventA in EVENTS && eventB in EVENTS
    requires MsgId(jobA, eventA) == MsgId(jobB, eventB)
    ensures jobA == jobB && eventA == eventB
  {
    if |eventA| < |eventB| {
      SeparatorInLongerTail(jobA, eventA, jobB, eventB, ':');
    }
    if |eventB| < |eventA| {
      SeparatorInLongerTail(jobB, eventB, jobA, eventA, ':');
    }
    assert jobA == MsgId(jobA, eventA)[..|jobA|];
    assert jobB == MsgId(jobB, eventB)[..|jobB|];
    assert eventA == MsgId(jobA, eventA)[|jobA| + 1..];
    assert eventB == MsgId(jobB, eventB)[|jobB| + 1..];
  }
}
