/** The four job events and what the gateway reads out of a raw message body. */
module Events {
  import opened Wrappers
  import opened Subjects

  datatype Stage = StageUnspecified | StageProcessing | StageRendering

  /** A message body as bytes-that-decode-or-not: what unmarshalling the same
      bytes as each protobuf message type yields. `structured` is also None when
      the CV decodes but cannot be re-encoded as JSON. */
  datatype Payload = Payload(
    structured: Option<string>,
    rendered: Option<string>,
    failed: Option<(Stage, string)>)

  /** One stream event: the subject suffix with the body read as that suffix asks.
      None is a body that does not decode. */
  datatype Event =
    | JobRequested
    | JobStructured(cv: Option<string>)
    | JobRendered(pdfKey: Option<string>)
    | JobFailed(report: Option<(Stage, string)>)
    | Unknown

  function Decode(suffix: string, payload: Payload): Event {
    if suffix == EVENT_REQUESTED then JobRequested
    else if suffix == EVENT_STRUCTURED then JobStructured(payload.structured)
    else if suffix == EVENT_RENDERED then JobRendered(payload.rendered)
    else if suffix == EVENT_FAILED then JobFailed(payload.failed)
    else Unknown
  }

  /** The payload a publisher of `e` puts on the wire. */
  function Encode(e: Event): Payload {
    match e
    case JobStructured(cv) => Payload(cv, None, None)
    case JobRendered(key) => Payload(None, key, None)
    case JobFailed(report) => Payload(None, None, report)
    case _ => Payload(None, None, None)
  }

  function Suffix(e: Event): string {
    match e
    case JobRequested => EVENT_REQUESTED
    case JobStructured(_) => EVENT_STRUCTURED
    case JobRendered(_) => EVENT_RENDERED
    case JobFailed(_) => EVENT_FAILED
    case Unknown => "unknown"
  }

  predicate WellFormed(e: Event) {
    match e
    case JobRequested => true
    case JobStructured(cv) => cv.Some?
    case JobRendered(key) => key.Some?
    case JobFailed(report) => report.Some?
    case Unknown => false
  }

  lemma SuffixHasNoDot(e: Event)
    ensures '.' !in Suffix(e)
  {
  }

  /** The subject an event is published on leads back to its job and kind. */
  lemma SubjectOfEvent(id: string, e: Event)
    requires '.' !in id
    ensures ParseSubject(Subject(id, Suffix(e))) == Some((id, Suffix(e)))
  {
    SuffixHasNoDot(e);
    ParseOfSubject(id, Suffix(e));
  }

  /** What a publisher sends is what a subscriber decodes. */
  lemma DecodeOfEncode(e: Event)
    ensures Decode(Suffix(e), Encode(e)) == e
  {
  }
}
