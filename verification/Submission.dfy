/** The gateway's job submission: validate, create the row, hand off the API key,
    publish `requested`, in that order. */
module Submission {
  import opened Wrappers
  import opened Text
  import opened Events
  import opened Stream
  import opened JobStore
  import AiProcessor

  const KEY_TTL := 900
  const HAND_OFF_ERROR := "could not hand off API key"
  const ENQUEUE_ERROR := "could not enqueue job"

  const MAX_CAREER_TEXT := 100_000
  const MAX_JOB_DESCRIPTION := 20_000

  /** Go's `len` of a string: bytes, not characters. */
  function ByteLength(s: string): nat {
    if s == [] then 0
    else
      var c := s[0] as int;
      (if c < 0x80 then 1 else if c < 0x800 then 2 else if c < 0x10000 then 3 else 4) + ByteLength(s[1..])
  }

  datatype Form = Form(jobDescription: string, modelKey: string, apiKey: string)

  /** A stored profile; `info` is None when no personal details are saved, and
      otherwise whether they decode. */
  datatype ProfileLookup = NoProfile | ProfileBreaks | Profile(id: string, careerText: string, info: Option<bool>)

  datatype Reason =
    | EmptyDescription | UnknownModel | MissingApiKey | NoProfileYet
    | JobTooLong | CareerTooLong | IncompleteProfile

  datatype Response = Rejected(reason: Reason) | InternalError | JobPage(id: string)

  /** How the key write comes back. */
  datatype KeyPut = KeyStored | KeyReplyLost | KeyNotStored

  // ---- the hand-off, one effect a step ----

  datatype Phase = PuttingKey | Publishing | FailingRow(text: string) | Finished

  /** What the hand-off touches beside the jobs table. */
  datatype HandOff = HandOff(phase: Phase, key: Option<AiProcessor.ApiKey>, log: Log)

  function Begin(apiKey: string): Phase {
    if apiKey != "" then PuttingKey else Publishing
  }

  function PutKey(h: HandOff, utf8: bool, put: KeyPut, now: int): HandOff {
    HandOff(if put.KeyStored? then Publishing else FailingRow(HAND_OFF_ERROR),
            if put.KeyNotStored? then h.key else Some(AiProcessor.ApiKey(utf8, now + KEY_TTL)),
            h.log)
  }

  function PublishRequested(h: HandOff, o: Outcome): HandOff {
    HandOff(if o.reply.Accepted? then Finished else FailingRow(ENQUEUE_ERROR),
            h.key,
            Publish(NEW_COURIER, h.log, JobRequested, o).1)
  }

  /** The whole hand-off, nothing else touching it meanwhile. */
  function Complete(h: HandOff, utf8: bool, put: KeyPut, o: Outcome, now: int): HandOff {
    var keyed := if h.phase.PuttingKey? then PutKey(h, utf8, put, now) else h;
    if keyed.phase.Publishing? then PublishRequested(keyed, o) else keyed
  }

  /** The checks that turn a submission away, in the order they are made. */
  function Refusal(form: Form, fake: map<string, bool>, profile: ProfileLookup): Option<Response> {
    var description := TrimSpace(form.jobDescription);
    var modelKey := TrimSpace(form.modelKey);
    if description == "" then Some(Rejected(EmptyDescription))
    else if modelKey !in fake then Some(Rejected(UnknownModel))
    else if !fake[modelKey] && TrimSpace(form.apiKey) == "" then Some(Rejected(MissingApiKey))
    else match profile
      case NoProfile => Some(Rejected(NoProfileYet))
      case ProfileBreaks => Some(InternalError)
      case Profile(_, careerText, info) =>
        if ByteLength(description) > MAX_JOB_DESCRIPTION then Some(Rejected(JobTooLong))
        else if ByteLength(careerText) > MAX_CAREER_TEXT then Some(Rejected(CareerTooLong))
        else if TrimSpace(careerText) == "" || info.None? then Some(Rejected(IncompleteProfile))
        else if !info.value then Some(InternalError)
        else None
  }

  /** Who a refusal blames: only a form and profile that pass every check are let
      through, and then a model that bills has its key. */
  lemma AcceptedHasKey(form: Form, fake: map<string, bool>, profile: ProfileLookup)
    requires Refusal(form, fake, profile).None?
    ensures TrimSpace(form.modelKey) in fake
    ensures fake[TrimSpace(form.modelKey)] || TrimSpace(form.apiKey) != ""
    ensures profile.Profile? && profile.info == Some(true)
  {
  }

  function SpecOf(visitor: string, form: Form, profile: ProfileLookup): JobSpec
    requires profile.Profile?
  {
    JobSpec(visitor, profile.id, TrimSpace(form.jobDescription), TrimSpace(form.modelKey))
  }

  // ---- who is turned away, and why ----

  /** What the form asks of the catalog: a model it has, with a key unless that model is the fake one. */
  predicate Served(form: Form, fake: map<string, bool>) {
    var model := TrimSpace(form.modelKey);
    model in fake && (fake[model] || TrimSpace(form.apiKey) != "")
  }

  /** A description, a model that is served, and a saved profile with career text and
      details that decode, both texts within their limits of 20,000 and 100,000 bytes. */
  predicate InOrder(form: Form, fake: map<string, bool>, profile: ProfileLookup) {
    && TrimSpace(form.jobDescription) != "" && Served(form, fake)
    && profile.Profile? && TrimSpace(profile.careerText) != "" && profile.info == Some(true)
    && ByteLength(TrimSpace(form.jobDescription)) <= 20_000 && ByteLength(profile.careerText) <= 100_000
  }

  /** A submission goes on exactly if it is in order. */
  lemma GoesOnIffInOrder(form: Form, fake: map<string, bool>, profile: ProfileLookup)
    ensures Refusal(form, fake, profile).None? <==> InOrder(form, fake, profile)
  {
  }

  /** Each reason is given exactly when its own cause holds and none that is asked about before it. */
  lemma ReasonsHaveCauses(form: Form, fake: map<string, bool>, profile: ProfileLookup)
    ensures var r := Refusal(form, fake, profile);
            var description, model := TrimSpace(form.jobDescription), TrimSpace(form.modelKey);
            && (r == Some(Rejected(EmptyDescription)) <==> description == "")
            && (r == Some(Rejected(UnknownModel)) <==> description != "" && model !in fake)
            && (r == Some(Rejected(MissingApiKey)) <==>
                  description != "" && model in fake && !fake[model] && TrimSpace(form.apiKey) == "")
            && (r == Some(Rejected(NoProfileYet)) <==> description != "" && Served(form, fake) && profile.NoProfile?)
            && (r == Some(Rejected(JobTooLong)) <==>
                  description != "" && Served(form, fake) && profile.Profile? && ByteLength(description) > 20_000)
  {
  }

  lemma ProfileReasonsHaveCauses(form: Form, fake: map<string, bool>, profile: ProfileLookup)
    requires TrimSpace(form.jobDescription) != "" && Served(form, fake)
    requires profile.Profile? ==> ByteLength(TrimSpace(form.jobDescription)) <= 20_000
    ensures var r := Refusal(form, fake, profile);
            && (r == Some(Rejected(CareerTooLong)) <==> profile.Profile? && ByteLength(profile.careerText) > 100_000)
            && (r == Some(Rejected(IncompleteProfile)) <==>
                  && profile.Profile? && ByteLength(profile.careerText) <= 100_000
                  && (TrimSpace(profile.careerText) == "" || profile.info.None?))
            && (r == Some(InternalError) <==>
                  profile.ProfileBreaks?
                  || (profile.Profile? && ByteLength(profile.careerText) <= 100_000
                      && TrimSpace(profile.careerText) != "" && profile.info == Some(false)))
  {
  }

  // ---- characters and bytes ----

  /** The bytes of one character, and of two strings together. */
  lemma BytesOfCharacter(c: char, a: string, b: string)
    ensures 1 <= ByteLength([c]) <= 4
    ensures ByteLength([c]) <= 1 <==> c as int <= 0x7F
    ensures ByteLength([c]) <= 2 <==> c as int <= 0x7FF
    ensures ByteLength([c]) <= 3 <==> c as int <= 0xFFFF
    ensures ByteLength(a + b) == ByteLength(a) + ByteLength(b)
  {
    assert [c][1..] == [];
    BytesAddUp(a, b);
  }

  lemma {:induction false} BytesAddUp(a: string, b: string)
    ensures ByteLength(a + b) == ByteLength(a) + ByteLength(b)
  {
    if a == [] {
      assert a + b == b;
    } else {
      assert (a + b)[0] == a[0] && (a + b)[1..] == a[1..] + b;
      BytesAddUp(a[1..], b);
    }
  }

  predicate IsAscii(c: char) {
    c as int < 0x80
  }

  predicate Ascii(s: string) {
    forall i :: 0 <= i < |s| ==> IsAscii(s[i])
  }

  predicate NoneAscii(s: string) {
    forall i :: 0 <= i < |s| ==> !IsAscii(s[i])
  }

  /** Bytes are between one and four times the characters, and as many exactly when
      every character is ASCII. */
  lemma {:induction false} BytesAndCharacters(s: string)
    ensures |s| <= ByteLength(s) <= 4 * |s|
    ensures ByteLength(s) == |s| <==> Ascii(s)
  {
    if s != [] {
      BytesAndCharacters(s[1..]);
      assert Ascii(s) ==> Ascii(s[1..]);
      if IsAscii(s[0]) && Ascii(s[1..]) {
        forall i | 0 <= i < |s| ensures IsAscii(s[i]) {
          assert i > 0 ==> IsAscii(s[1..][i - 1]);
        }
      }
    }
  }

  lemma {:induction false} WideCharactersCountTwice(s: string)
    requires NoneAscii(s)
    ensures ByteLength(s) >= 2 * |s|
  {
    if s != [] {
      assert !IsAscii(s[0]) && NoneAscii(s[1..]);
      WideCharactersCountTwice(s[1..]);
    }
  }

  /** The limits tell the user of characters: a description within the stated limit
      is turned away as too long exactly when its bytes exceed it, which an ASCII
      one's never do. */
  lemma TooLongMeansBytes(form: Form, fake: map<string, bool>, id: string, careerText: string, info: Option<bool>)
    requires TrimSpace(form.jobDescription) != "" && TrimSpace(form.modelKey) in fake
    requires fake[TrimSpace(form.modelKey)] || TrimSpace(form.apiKey) != ""
    ensures var description := TrimSpace(form.jobDescription);
            && (Refusal(form, fake, Profile(id, careerText, info)) == Some(Rejected(JobTooLong))
                <==> ByteLength(description) > MAX_JOB_DESCRIPTION)
            && (|description| <= MAX_JOB_DESCRIPTION && Ascii(description) ==>
                  Refusal(form, fake, Profile(id, careerText, info)) != Some(Rejected(JobTooLong)))
  {
    BytesAndCharacters(TrimSpace(form.jobDescription));
  }

  function Accents(n: nat): string {
    seq(n, _ => '\U{E9}')
  }

  lemma AccentsAreTrimmed(n: nat)
    ensures TrimSpace(Accents(n)) == Accents(n)
  {
    var s := Accents(n);
    if n > 0 {
      TrimPadded("", s, "");
      assert "" + s + "" == s;
    }
  }

  /** Ten thousand and one accented letters are within the stated limit of twenty
      thousand characters, and too long. */
  lemma AccentedDescriptionIsTooLong(fake: map<string, bool>, modelKey: string, apiKey: string, profile: ProfileLookup)
    requires TrimSpace(modelKey) in fake && (fake[TrimSpace(modelKey)] || TrimSpace(apiKey) != "") && profile.Profile?
    ensures |Accents(10_001)| <= MAX_JOB_DESCRIPTION
    ensures Refusal(Form(Accents(10_001), modelKey, apiKey), fake, profile) == Some(Rejected(JobTooLong))
  {
    AccentsAreTrimmed(10_001);
    WideCharactersCountTwice(Accents(10_001));
  }

  class Server {
    const st: Store
    const fake: map<string, bool>  // catalog key -> is its provider the fake one
    var key: Option<AiProcessor.ApiKey>
    var log: Log

    constructor (st: Store, fake: map<string, bool>)
      ensures this.st == st && this.fake == fake && key == None && log == []
    {
      this.st, this.fake, key, log := st, fake, None, [];
    }

    /** `id` is the row id the database generates; `utf8`, `put`, `publish`,
        `create` and `fail` are how the outside answers. */
    method HandleJobCreate(visitor: string, form: Form, profile: ProfileLookup, id: string,
                           create: Db, utf8: bool, put: KeyPut, publish: Outcome, fail: Db)
      returns (response: Response)
      requires id !in st.rows
      modifies this`key, this`log, st`rows
      ensures response.JobPage? <==> InOrder(form, fake, profile) && create.Commits?
      ensures response == Rejected(EmptyDescription) <==> TrimSpace(form.jobDescription) == ""
      ensures response.JobPage? ==> response.id == id && id in st.rows
      ensures response.JobPage? ==>
                st.rows[id].spec
                == JobSpec(visitor, profile.id, TrimSpace(form.jobDescription), TrimSpace(form.modelKey))
      ensures Refusal(form, fake, profile).Some? ==>
                response == Refusal(form, fake, profile).value
                && st.rows == old(st.rows) && key == old(key) && log == old(log)
      ensures Refusal(form, fake, profile).None? && !create.Commits? ==>
                && response == InternalError && key == old(key) && log == old(log)
                && st.rows == if create.Aborts? then old(st.rows)
                              else old(st.rows)[id := NewRow(SpecOf(visitor, form, profile), st.now)]
      ensures Refusal(form, fake, profile).None? && create.Commits? ==>
                var created := old(st.rows)[id := NewRow(SpecOf(visitor, form, profile), st.now)];
                var start := HandOff(Begin(TrimSpace(form.apiKey)), old(key), old(log));
                var end := Complete(start, utf8, put, publish, st.now);
                && response == JobPage(id)
                && key == end.key && log == end.log
                && st.rows == if end.phase.FailingRow? && !fail.Aborts?
                              then Update(created, id, ToFailed(end.phase.text), st.now) else created
    {
      GoesOnIffInOrder(form, fake, profile);
      ReasonsHaveCauses(form, fake, profile);
      var jobDescription := TrimSpace(form.jobDescription);
      var modelKey := TrimSpace(form.modelKey);
      var apiKey := TrimSpace(form.apiKey);
      if jobDescription == "" { return Rejected(EmptyDescription); }
      if modelKey !in fake { return Rejected(UnknownModel); }
      if !fake[modelKey] && apiKey == "" { return Rejected(MissingApiKey); }
      if profile == NoProfile { return Rejected(NoProfileYet); }
      if profile == ProfileBreaks { return InternalError; }
      if ByteLength(jobDescription) > MAX_JOB_DESCRIPTION { return Rejected(JobTooLong); }
      if ByteLength(profile.careerText) > MAX_CAREER_TEXT { return Rejected(CareerTooLong); }
      if TrimSpace(profile.careerText) == "" || profile.info == None { return Rejected(IncompleteProfile); }
      if !profile.info.value { return InternalError; }

      var created := st.CreateJob(id, JobSpec(visitor, profile.id, jobDescription, modelKey), create);
      if created.Failure? { return InternalError; }

      HandOffJob(id, apiKey, utf8, put, publish, fail);
      response := JobPage(id);
    }

    /** The row exists; hand off the key, then publish. Either failing fails the row. */
    method HandOffJob(id: string, apiKey: string, utf8: bool, put: KeyPut, publish: Outcome, fail: Db)
      modifies this`key, this`log, st`rows
      ensures var end := Complete(HandOff(Begin(apiKey), old(key), old(log)), utf8, put, publish, st.now);
              && key == end.key && log == end.log
              && st.rows == if end.phase.FailingRow? && !fail.Aborts?
                            then Update(old(st.rows), id, ToFailed(end.phase.text), st.now) else old(st.rows)
      ensures key == if apiKey == "" || put.KeyNotStored? then old(key)
                     else Some(AiProcessor.ApiKey(utf8, st.now + 900))
      ensures log == if apiKey == "" || put.KeyStored? then Publish(NEW_COURIER, old(log), JobRequested, publish).1
                     else old(log)
      ensures var told := if apiKey != "" && !put.KeyStored? then Some("could not hand off API key")
                          else if !publish.reply.Accepted? then Some("could not enqueue job") else None;
              && (told.None? ==> st.rows == old(st.rows))
              && (told.Some? && !fail.Aborts? && id in st.rows && old(st.rows)[id].status.Pending? ==>
                    st.rows[id] == old(st.rows)[id].(status := Failed, error := told, updatedAt := st.now))
    {
      if apiKey != "" {
        if put != KeyNotStored {
          key := Some(AiProcessor.ApiKey(utf8, st.now + KEY_TTL));
        }
        if put != KeyStored {
          var ignored := st.MarkFailed(id, HAND_OFF_ERROR, fail);
          return;
        }
      }
      if Lands(NEW_COURIER, log, JobRequested, publish) {
        log := log + [Fresh(JobRequested)];
      }
      if publish.reply != Accepted {
        var ignored := st.MarkFailed(id, ENQUEUE_ERROR, fail);
      }
    }
  }
}
