/** `lambda_handler` (main.py:180-243) and the notification helpers it calls
    (main.py:250-299). Every I/O step is an input: the environment map, the
    value `fetch_data_with_retry` returned, and the per-attempt outcomes of
    `put_object`. The handler's observable behaviour is its response, the
    stages it ran and the notifications it sent, in order. */
module Handler {
  import opened Wrappers
  import opened Seqs
  import opened Environment
  import opened Processing
  import opened Uploader

  /** The pipeline's stages, in the order the handler runs them. */
  datatype Stage = EnvStage | FetchStage | ProcessStage | UploadStage

  const Pipeline: seq<Stage> := [EnvStage, FetchStage, ProcessStage, UploadStage]

  datatype NoticeKind = FailureNotice | SuccessNotice

  /** A step of one invocation: a stage ran, or `notify_failure` /
      `notify_success` was called. `topic` is the SNS topic the message was
      addressed to, or `None` when the helper skipped publishing because
      `SNS_TOPIC_ARN` was unset or empty. */
  datatype Event =
    | Ran(stage: Stage)
    | Notified(kind: NoticeKind, subject: string, message: string, topic: Option<string>)

  /** The dictionary the handler returns. */
  datatype Response = Response(statusCode: int, body: string)

  /** One invocation: the response (`None` when the handler falls off its
      end), the events in order, the batch handed to the upload, and what
      the upload did. */
  datatype Run = Run(response: Option<Response>, events: seq<Event>, payload: Option<seq<Record>>, upload: UploadTrace)

  const MsgEnv: string := "❌ Missing required environment variables."
  const MsgFetch: string := "❌ Data pipeline failed at the Fetch Data stage."
  const MsgProcess: string := "❌ Data pipeline failed at the Process Data stage."
  const MsgUpload: string := "❌ Data pipeline failed during S3 upload."
  const MsgSuccess: string := "🏁 ✅ All pipeline processes completed successfully!"

  const BodyEnv: string := "Missing required environment variables."
  const BodyFetch: string := "Data fetch failed."
  const BodyProcess: string := "Data processing failed."
  const BodyUpload: string := "S3 upload failed."
  const BodySuccess: string := "Pipeline completed successfully."

  /** The SNS subject line each helper uses. */
  function Subject(kind: NoticeKind): string {
    match kind
    case FailureNotice => "Data Pipeline Failure Notification"
    case SuccessNotice => "Data Pipeline Success Notification"
  }

  /** `notify_failure(message)` / `notify_success(message)`: the helper reads
      the topic from the environment and attempts a publish only when it is
      set and non-empty. A failing `publish` is caught and logged, so it changes
      nothing the handler reports. */
  function Notify(env: Env, kind: NoticeKind, message: string): (e: Event)
    ensures e.Notified? && e.kind == kind && e.message == message
    ensures e.topic.Some? <==> IsSet(env, TopicVar)
    ensures e.topic.Some? ==> e.topic.value == env[TopicVar]
  {
    Notified(kind, Subject(kind), message, if IsSet(env, TopicVar) then Some(env[TopicVar]) else None)
  }

  /** The stages that ran, in order. */
  function Stages(events: seq<Event>): seq<Stage> {
    if events == [] then []
    else (if events[0].Ran? then [events[0].stage] else []) + Stages(events[1..])
  }

  /** The notification calls, in order. */
  function Notices(events: seq<Event>): seq<Event> {
    Filter(events, (e: Event) => e.Notified?)
  }

  /** One `Ran` event per stage. */
  function RanAll(stages: seq<Stage>): seq<Event> {
    seq(|stages|, i requires 0 <= i < |stages| => Ran(stages[i]))
  }

  /** Running `stages` and then one notification gives exactly those stages
      and exactly that notification, last. */
  lemma {:induction false} FinishedTrace(stages: seq<Stage>, notice: Event)
    requires notice.Notified?
    ensures Stages(RanAll(stages) + [notice]) == stages
    ensures Notices(RanAll(stages) + [notice]) == [notice]
  {
    var events := RanAll(stages) + [notice];
    if stages == [] {
      assert events == [notice];
      assert events[1..] == [];
    } else {
      assert events[0] == Ran(stages[0]);
      assert events[1..] == RanAll(stages[1..]) + [notice];
      FinishedTrace(stages[1..], notice);
      assert stages == [stages[0]] + stages[1..];
    }
  }

  /** The stages ran without any notification. */
  lemma {:induction false} SilentTrace(stages: seq<Stage>)
    ensures Stages(RanAll(stages)) == stages
    ensures Notices(RanAll(stages)) == []
  {
    var events := RanAll(stages);
    if stages != [] {
      assert events[1..] == RanAll(stages[1..]);
      SilentTrace(stages[1..]);
      assert stages == [stages[0]] + stages[1..];
    }
  }

  /** The response carries 200 or 500, and exactly one notification was
      sent, as the last event, of the kind the status code names. */
  predicate NotifiedOnce(r: Run) {
    && r.response.Some?
    && (r.response.value.statusCode == 200 || r.response.value.statusCode == 500)
    && |r.events| > 0
    && r.events[|r.events| - 1].Notified?
    && Notices(r.events) == [r.events[|r.events| - 1]]
    && (r.response.value.statusCode == 500 <==> r.events[|r.events| - 1].kind == FailureNotice)
    && (r.response.value.statusCode == 200 <==> r.events[|r.events| - 1].kind == SuccessNotice)
  }

  /** The notification sent last was addressed to the configured topic, or
      skipped its publish when `SNS_TOPIC_ARN` is unset or empty. */
  predicate AddressedPerConfig(r: Run, env: Env) {
    && |r.events| > 0
    && r.events[|r.events| - 1].Notified?
    && r.events[|r.events| - 1].topic == (if IsSet(env, TopicVar) then Some(env[TopicVar]) else None)
  }

  /** The last event is a notification call of `kind`, with that kind's
      subject line, carrying `message`. */
  predicate Announced(r: Run, kind: NoticeKind, message: string) {
    && |r.events| > 0
    && r.events[|r.events| - 1].Notified?
    && r.events[|r.events| - 1].kind == kind
    && r.events[|r.events| - 1].subject == Subject(kind)
    && r.events[|r.events| - 1].message == message
  }

  /** A terminal branch of the handler: log the stages that ran, send one
      notification, and return the response. */
  function Finish(env: Env, stages: seq<Stage>, kind: NoticeKind, message: string, code: int, body: string,
                  payload: Option<seq<Record>>, upload: UploadTrace): (r: Run)
    requires code == (if kind == FailureNotice then 500 else 200)
    ensures r.response == Some(Response(code, body)) && r.payload == payload && r.upload == upload
    ensures Stages(r.events) == stages
    ensures NotifiedOnce(r)
    ensures AddressedPerConfig(r, env)
    ensures Announced(r, kind, message)
  {
    FinishedTrace(stages, Notify(env, kind, message));
    Run(Some(Response(code, body)), RanAll(stages) + [Notify(env, kind, message)], payload, upload)
  }

  /** The upload record of a run that stopped before `upload_to_s3` was
      called: no status, no attempt and no sleep. */
  const NoUpload: UploadTrace := UploadTrace(NoResult, 0, 0)

  /** The fetch stage failed: `not raw_data` holds for `None` and for an
      empty list. */
  predicate FetchFailed(fetched: Option<seq<Record>>) {
    fetched.None? || |fetched.value| == 0
  }

  /** Step 3 and the final report (main.py:225-243), once every earlier
      stage succeeded: upload the batch, then notify failure (500) or
      success (200). With `retries <= 0` the upload returns `None`, which
      neither comparison matches, so the handler returns `None` having
      sent nothing. */
  function UploadAndReport(env: Env, batch: seq<Record>, puts: seq<bool>, retries: int): (r: Run)
    requires retries <= |puts|
    ensures Stages(r.events) == Pipeline
    ensures r.payload == Some(batch) && r.upload == Upload(puts, retries)
    ensures r.response.None? <==> retries <= 0
    ensures r.response.None? ==> Notices(r.events) == []
    ensures r.response.Some? ==> NotifiedOnce(r)
    ensures r.response.Some? ==> AddressedPerConfig(r, env)
    ensures r.response.Some? ==>
      (r.response.value == Response(200, BodySuccess) <==> r.upload.status == UploadSuccessful)
    ensures r.response.Some? ==>
      (r.response.value == Response(500, BodyUpload) <==> r.upload.status == UploadFailed)
    ensures r.upload.status == UploadFailed ==> Announced(r, FailureNotice, MsgUpload)
    ensures r.upload.status == UploadSuccessful ==> Announced(r, SuccessNotice, MsgSuccess)
  {
    var u := Upload(puts, retries);
    if u.status == UploadFailed then
      Finish(env, Pipeline, FailureNotice, MsgUpload, 500, BodyUpload, Some(batch), u)
    else if u.status == UploadSuccessful then
      Finish(env, Pipeline, SuccessNotice, MsgSuccess, 200, BodySuccess, Some(batch), u)
    else
      SilentTrace(Pipeline);
      Run(None, RanAll(Pipeline), Some(batch), u)
  }

  /** What the handler promises once the environment check passed
      (main.py:203-243), stage by stage:
      - an empty or missing fetch result stops after the fetch with 500
        "Data fetch failed.";
      - a processing failure stops after processing with 500 "Data
        processing failed.";
      - otherwise the rows above the threshold are uploaded, and the
        response is 500 "S3 upload failed." after a failed upload, 200 after
        a successful one, and none at all (with no notification) when the
        upload returned `None`;
      - no upload is attempted before the upload stage;
      - every response comes with exactly one notification call, addressed
        as the configuration says. */
  predicate AfterEnvCheckSpec(r: Run, env: Env, fetched: Option<seq<Record>>, puts: seq<bool>, retries: int)
    requires retries <= |puts|
  {
    && (FetchFailed(fetched) ==>
          && Stages(r.events) == Pipeline[..2] && r.response == Some(Response(500, BodyFetch)) && r.payload.None?
          && Announced(r, FailureNotice, MsgFetch))
    && (!FetchFailed(fetched) && !HasPriceColumn(fetched.value) ==>
          && Stages(r.events) == Pipeline[..3] && r.response == Some(Response(500, BodyProcess)) && r.payload.None?
          && Announced(r, FailureNotice, MsgProcess))
    && (!FetchFailed(fetched) && HasPriceColumn(fetched.value) ==>
          Stages(r.events) == Pipeline && r.payload == Some(Expensive(fetched.value)) && r.upload == Upload(puts, retries))
    && (r.payload.None? ==> r.upload == NoUpload)
    && (r.payload.Some? && r.upload.status == UploadFailed ==>
          r.response == Some(Response(500, BodyUpload)) && Announced(r, FailureNotice, MsgUpload))
    && (r.payload.Some? && r.upload.status == UploadSuccessful ==>
          r.response == Some(Response(200, BodySuccess)) && Announced(r, SuccessNotice, MsgSuccess))
    && (r.payload.Some? && r.upload.status == NoResult ==> r.response.None? && Notices(r.events) == [])
    && (r.response.Some? ==> NotifiedOnce(r) && AddressedPerConfig(r, env))
  }

  /** The handler once the environment check passed (main.py:203-243):
      fetch, process, upload, report. */
  function AfterEnvCheck(env: Env, fetched: Option<seq<Record>>, puts: seq<bool>, retries: int): (r: Run)
    requires retries <= |puts|
    ensures 2 <= |Stages(r.events)| <= |Pipeline| && Stages(r.events) == Pipeline[..|Stages(r.events)|]
    ensures AfterEnvCheckSpec(r, env, fetched, puts, retries)
  {
    if FetchFailed(fetched) then
      Finish(env, Pipeline[..2], FailureNotice, MsgFetch, 500, BodyFetch, None, NoUpload)
    else
      match ProcessData(fetched.value)
      case Failure(_) =>
        Finish(env, Pipeline[..3], FailureNotice, MsgProcess, 500, BodyProcess, None, NoUpload)
      case Success(batch) =>
        assert Pipeline[..|Pipeline|] == Pipeline;
        UploadAndReport(env, batch, puts, retries)
  }

  /** The handler with the upload's `retries` argument exposed. Each failing
      stage stops the pipeline: later stages do not run, one failure
      notification call is made, and 500 is returned with that stage's
      body. A missing environment stops before the fetch; once the check
      passed, every notification goes to the configured topic. */
  function Handle(env: Env, fetched: Option<seq<Record>>, puts: seq<bool>, retries: int): (r: Run)
    requires retries <= |puts|
    ensures 1 <= |Stages(r.events)| <= |Pipeline| && Stages(r.events) == Pipeline[..|Stages(r.events)|]
    ensures Validate(env, RequiredVars).None? ==>
      && Stages(r.events) == Pipeline[..1]
      && r.response == Some(Response(500, BodyEnv))
      && r.payload.None? && r.upload == NoUpload
      && Announced(r, FailureNotice, MsgEnv)
    ensures Validate(env, RequiredVars).Some? ==>
      IsSet(env, TopicVar) && AfterEnvCheckSpec(r, env, fetched, puts, retries)
    ensures r.response.Some? ==> NotifiedOnce(r) && AddressedPerConfig(r, env)
  {
    if Validate(env, RequiredVars).None? then
      Finish(env, Pipeline[..1], FailureNotice, MsgEnv, 500, BodyEnv, None, NoUpload)
    else
      ValidatedHasTopic(env);
      AfterEnvCheck(env, fetched, puts, retries)
  }

  /** A batch with no row above the threshold is not a processing failure:
      the handler still uploads it (an empty selection) and reports on the
      upload. */
  lemma EmptySelectionStillUploaded(env: Env, data: seq<Record>, puts: seq<bool>)
    requires DefaultRetries <= |puts|
    requires Validate(env, RequiredVars).Some?
    requires HasPriceColumn(data)
    requires forall i :: 0 <= i < |data| ==> !AboveThreshold(data[i])
    ensures Handle(env, Some(data), puts, DefaultRetries).payload == Some([])
    ensures Stages(Handle(env, Some(data), puts, DefaultRetries).events) == Pipeline
  {
    NothingAboveThreshold(data);
  }

  /** Every stage succeeds: the environment is complete, the fetch returned
      a non-empty list with a price column, and one of the first
      `DefaultRetries` uploads went through. */
  predicate PipelineSucceeds(env: Env, fetched: Option<seq<Record>>, puts: seq<bool>) {
    && Validate(env, RequiredVars).Some?
    && !FetchFailed(fetched)
    && HasPriceColumn(fetched.value)
    && SomeAttemptSucceeds(puts, DefaultRetries)
  }

  /** With the default retry count the handler answers 200, with the success
      body, exactly when every stage succeeds. */
  lemma HandlerSucceedsIff(env: Env, fetched: Option<seq<Record>>, puts: seq<bool>)
    requires DefaultRetries <= |puts|
    ensures Handle(env, fetched, puts, DefaultRetries).response == Some(Response(200, BodySuccess))
      <==> PipelineSucceeds(env, fetched, puts)
  {
    UploadSucceedsIff(puts, DefaultRetries);
  }

  /** `lambda_handler(event, context)`; the event and context are unused.
      Every invocation returns a response and calls exactly one
      notification helper, as its last step: a failure notice exactly when the
      status is 500 and a success notice exactly when it is 200, and 200
      exactly when every stage succeeded. */
  function LambdaHandler(env: Env, fetched: Option<seq<Record>>, puts: seq<bool>): (r: Run)
    requires DefaultRetries <= |puts|
    ensures NotifiedOnce(r) && AddressedPerConfig(r, env)
    ensures Validate(env, RequiredVars).None? ==>
      && Stages(r.events) == Pipeline[..1]
      && r.response == Some(Response(500, BodyEnv))
      && r.payload.None? && r.upload == NoUpload
      && Announced(r, FailureNotice, MsgEnv)
    ensures Validate(env, RequiredVars).Some? ==>
      && IsSet(env, TopicVar) && r.events[|r.events| - 1].topic == Some(env[TopicVar])
      && AfterEnvCheckSpec(r, env, fetched, puts, DefaultRetries)
    ensures r.response.value.statusCode == 200 <==> PipelineSucceeds(env, fetched, puts)
    ensures r.upload.attempts <= DefaultRetries
  {
    HandlerSucceedsIff(env, fetched, puts);
    Handle(env, fetched, puts, DefaultRetries)
  }
}
