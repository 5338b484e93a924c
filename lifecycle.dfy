/**
 * The fine-tuning lifecycle as functions of the files and the service's
 * replies: what uploading the corpus, running the fine-tuning job, finding
 * the model id, answering a prompt and resetting do to the files, which
 * requests they send, and what they return. The backend's methods are
 * proved to do exactly this.
 */
module Lifecycle {
  import opened Basics
  import opened Dataset
  import opened FileStore
  import opened Remote
  import opened Prompt

  /** The base model every fine-tuning job starts from. */
  const BaseModel := "gpt-3.5-turbo"

  /** The status that ends the file poll loop. */
  const FileReady := "processed"

  /** The status that ends the job poll loop. */
  const JobDone := "succeeded"

  /** How a call ends: it returns, it raises, or it never returns (a poll loop that waits forever). */
  datatype Outcome<+T> = Returned(value: T) | Threw(message: string) | Hung

  /** What a call leaves: the files, the requests it sent in order, and how it ended. */
  datatype Run<+T> = Run(files: Files, sent: seq<Request>, result: T)

  /** The process state: the files, the cached model id (`fine_tuned_model_id`), and every request sent so far. */
  datatype State = State(files: Files, modelId: Option<string>, sent: seq<Request>)

  /** The body of a prompt request. */
  datatype Query = Query(itr: string, message: string, confidence: string)

  /** A prompt request's new state and response (`Hung` when it never responds). */
  datatype Step = Step(state: State, response: Outcome<string>)

  /** How the OS error names a path: Python's repr, with the quote chosen as repr does (escapes are not modelled). */
  function PyRepr(s: string): string {
    if '\'' in s && '"' !in s then "\"" + s + "\"" else "'" + s + "'"
  }

  /** `str()` of the error `open` raises for a path that does not exist. */
  function NoSuchFile(path: string): string {
    "[Errno 2] No such file or directory: " + PyRepr(path)
  }

  /** Only the record `{file_id}` is written: the whole identifier record is replaced. */
  function UploadedRecord(fileId: string): IdRecord {
    IdRecord(Some(fileId), None, None)
  }

  /**
   * Uploading the corpus (`create_remote_file`): format the log, open the
   * path the formatter returned, upload it, poll the file until it is
   * processed, then save `{file_id}` and return the id. Nothing catches
   * here: an error of the client library is raised to the caller.
   */
  function Upload(fs: Files, script: Script): (run: Run<Outcome<string>>)
    requires Valid(fs)
    ensures Valid(run.files)
    ensures run.result.Returned? ==> run.files == Saved(ReadCsv(fs).files, UploadedRecord(run.result.value))
    ensures !run.result.Returned? ==> run.files == ReadCsv(fs).files
    ensures run.sent != [] ==>
              ReadCsv(fs).returned in ReadCsv(fs).files && run.sent[0] == CreateFile(ReadCsv(fs).files[ReadCsv(fs).returned])
    ensures forall j :: 0 < j < |run.sent| ==>
              script.fileCreated.Ok? && run.sent[j] == RetrieveFile(script.fileCreated.value.id)
    ensures run.result.Returned? ==> script.fileCreated.Ok? && run.result.value == script.fileCreated.value.id
  {
    var read := ReadCsv(fs);
    var fs1 := read.files;
    var path := read.returned;
    if path !in fs1 then Run(fs1, [], Threw(NoSuchFile(path)))
    else
      var create := [CreateFile(fs1[path])];
      match script.fileCreated
      case Raise(m) => Run(fs1, create, Threw(m))
      case Ok(file) =>
        var waited := AwaitFile(fs1, file, script.fileStatuses);
        Run(waited.files, create + waited.sent, waited.result)
  }

  /**
   * The file poll loop of the uploader and the save after it: retrieve the
   * file until it reports "processed", then replace the record with
   * `{file_id}` and return the id; a failing retrieve raises.
   */
  function AwaitFile(fs: Files, file: Handle, replies: seq<Reply<string>>): (run: Run<Outcome<string>>)
    requires Valid(fs)
    ensures Valid(run.files)
    ensures run.result.Returned? ==> run.result.value == file.id && run.files == Saved(fs, UploadedRecord(file.id))
    ensures !run.result.Returned? ==> run.files == fs
    ensures forall j :: 0 <= j < |run.sent| ==> run.sent[j] == RetrieveFile(file.id)
  {
    match Settle(Observed(file, replies), FileReady)
    case Reached(k) => Run(Saved(fs, UploadedRecord(file.id)), Repeat(RetrieveFile(file.id), k), Returned(file.id))
    case Failed(k, m) => Run(fs, Repeat(RetrieveFile(file.id), k), Threw(m))
    case Blocked => Run(fs, Repeat(RetrieveFile(file.id), |replies|), Hung)
  }

  /** The three ways the file poll loop can end, each as `AwaitFile` gives it. */
  lemma AwaitFileEnds(fs: Files, file: Handle, replies: seq<Reply<string>>, p: Poll)
    requires Valid(fs) && Describes(Observed(file, replies), FileReady, p)
    ensures p.Reached? ==> AwaitFile(fs, file, replies) == Run(Saved(fs, UploadedRecord(file.id)), Repeat(RetrieveFile(file.id), p.at), Returned(file.id))
    ensures p.Failed? ==> AwaitFile(fs, file, replies) == Run(fs, Repeat(RetrieveFile(file.id), p.at), Threw(p.message))
    ensures p.Blocked? ==> AwaitFile(fs, file, replies) == Run(fs, Repeat(RetrieveFile(file.id), |replies|), Hung)
  {
    SettleUnique(Observed(file, replies), FileReady, p);
  }

  /**
   * The job part of `create_and_fine_tune_model`, once the training file's
   * id is known: create the job, poll it until it has succeeded, retrieve it
   * once more, save all three ids and return the model name. Every exception
   * becomes the returned text "Error: ...".
   */
  function Train(fs: Files, fileId: string, script: Script): (run: Run<Outcome<Option<string>>>)
    requires Valid(fs)
    ensures Valid(run.files)
    ensures !run.result.Threw?
    ensures run.sent != [] && run.sent[0] == CreateJob(fileId, BaseModel)
    ensures forall j :: 0 < j < |run.sent| ==>
              script.jobCreated.Ok? && run.sent[j] == RetrieveJob(script.jobCreated.value.id)
    ensures run.files == fs ||
              (script.jobCreated.Ok? && run.result.Returned? &&
               run.files == Saved(fs, IdRecord(Some(fileId), Some(script.jobCreated.value.id), run.result.value)))
  {
    var create := [CreateJob(fileId, BaseModel)];
    match script.jobCreated
    case Raise(m) => Run(fs, create, Returned(Some(ErrorText(m))))
    case Ok(job) =>
      var waited := AwaitJob(fs, fileId, job, script.jobStatuses, script.jobFinal);
      Run(waited.files, create + waited.sent, waited.result)
  }

  /**
   * The job poll loop and what follows it: retrieve the job until it reports
   * "succeeded", retrieve it once more, replace the record with all three ids
   * and return the model name; a failing retrieve is returned as its
   * "Error: ..." text.
   */
  function AwaitJob(fs: Files, fileId: string, job: Handle, replies: seq<Reply<string>>, final: Reply<Option<string>>)
    : (run: Run<Outcome<Option<string>>>)
    requires Valid(fs)
    ensures Valid(run.files)
    ensures !run.result.Threw?
    ensures run.files == fs || (run.result.Returned? && run.files == Saved(fs, IdRecord(Some(fileId), Some(job.id), run.result.value)))
    ensures forall j :: 0 <= j < |run.sent| ==> run.sent[j] == RetrieveJob(job.id)
  {
    match Settle(Observed(job, replies), JobDone)
    case Failed(k, m) => Run(fs, Repeat(RetrieveJob(job.id), k), Returned(Some(ErrorText(m))))
    case Blocked => Run(fs, Repeat(RetrieveJob(job.id), |replies|), Hung)
    case Reached(k) =>
      match final
      case Raise(m) => Run(fs, Repeat(RetrieveJob(job.id), k + 1), Returned(Some(ErrorText(m))))
      case Ok(name) => Run(Saved(fs, IdRecord(Some(fileId), Some(job.id), name)), Repeat(RetrieveJob(job.id), k + 1), Returned(name))
  }

  /** The ways the job poll loop and the final retrieve can end, each as `AwaitJob` gives it. */
  lemma AwaitJobEnds(fs: Files, fileId: string, job: Handle, replies: seq<Reply<string>>, final: Reply<Option<string>>, p: Poll)
    requires Valid(fs) && Describes(Observed(job, replies), JobDone, p)
    ensures p.Failed? ==> AwaitJob(fs, fileId, job, replies, final) == Run(fs, Repeat(RetrieveJob(job.id), p.at), Returned(Some(ErrorText(p.message))))
    ensures p.Blocked? ==> AwaitJob(fs, fileId, job, replies, final) == Run(fs, Repeat(RetrieveJob(job.id), |replies|), Hung)
    ensures p.Reached? && final.Raise? ==>
              AwaitJob(fs, fileId, job, replies, final) == Run(fs, Repeat(RetrieveJob(job.id), p.at + 1), Returned(Some(ErrorText(final.message))))
    ensures p.Reached? && final.Ok? ==>
              AwaitJob(fs, fileId, job, replies, final)
              == Run(Saved(fs, IdRecord(Some(fileId), Some(job.id), final.value)), Repeat(RetrieveJob(job.id), p.at + 1), Returned(final.value))
  {
    SettleUnique(Observed(job, replies), JobDone, p);
  }

  /**
   * `create_and_fine_tune_model(file_id)`: upload the corpus only when the
   * given file id is falsy, then train. It never raises: an upload error is
   * returned as its "Error: ..." text.
   */
  function FineTune(fs: Files, fileId: Option<string>, script: Script): (run: Run<Outcome<Option<string>>>)
    requires Valid(fs)
    ensures Valid(run.files)
    ensures !run.result.Threw?
  {
    var up := if Truthy(fileId) then Run(fs, [], Returned(fileId.value)) else Upload(fs, script);
    match up.result
    case Threw(m) => Run(up.files, up.sent, Returned(Some(ErrorText(m))))
    case Hung => Run(up.files, up.sent, Hung)
    case Returned(id) =>
      var trained := Train(up.files, id, script);
      Run(trained.files, up.sent + trained.sent, trained.result)
  }

  /**
   * The cases of fine-tuning: with a file id given it is training on that
   * file alone; otherwise an upload error is returned as text, an upload
   * that never returns never returns, and an uploaded file is trained on
   * after the upload's requests.
   */
  lemma FineTuneCases(fs: Files, fileId: Option<string>, script: Script)
    requires Valid(fs)
    ensures Truthy(fileId) ==> FineTune(fs, fileId, script) == Train(fs, fileId.value, script)
    ensures !Truthy(fileId) && Upload(fs, script).result.Threw? ==>
              FineTune(fs, fileId, script) == Run(Upload(fs, script).files, Upload(fs, script).sent, Returned(Some(ErrorText(Upload(fs, script).result.message))))
    ensures !Truthy(fileId) && Upload(fs, script).result.Hung? ==>
              FineTune(fs, fileId, script) == Run(Upload(fs, script).files, Upload(fs, script).sent, Hung)
    ensures !Truthy(fileId) && Upload(fs, script).result.Returned? ==>
              (var up := Upload(fs, script);
               var trained := Train(up.files, up.result.value, script);
               FineTune(fs, fileId, script) == Run(trained.files, up.sent + trained.sent, trained.result))
  {
    if Truthy(fileId) {
      assert [] + Train(fs, fileId.value, script).sent == Train(fs, fileId.value, script).sent;
    }
  }

  /** `get_fine_tune_model_id`: a persisted model name is returned as it is; otherwise fine-tune with the persisted file id. */
  function GetModelId(fs: Files, script: Script): (run: Run<Outcome<Option<string>>>)
    requires Valid(fs)
    ensures Valid(run.files)
    ensures !run.result.Threw?
  {
    var ids := Stored(fs);
    if Truthy(ids.modelName) then Run(fs, [], Returned(ids.modelName))
    else FineTune(fs, ids.fileId, script)
  }

  /** What `prompt_to_model` returns for the service's reply: the text, or the exception as "Error: ...". */
  function ChatText(reply: Reply<string>): string {
    match reply
    case Ok(text) => text
    case Raise(m) => ErrorText(m)
  }

  /**
   * The returned text cannot tell a failure from a reply that happens to
   * start with "Error: ": both give the same text.
   */
  lemma ErrorLooksLikeReply(m: string)
    ensures ChatText(Raise(m)) == ChatText(Ok(ErrorText(m)))
    ensures StartsWith(ChatText(Raise(m)), "Error: ")
  {
  }

  /** `prompt_to_model(model, ...)`: one chat request with the composed prompt. */
  function Ask(s: State, q: Query, reply: Reply<string>): Step {
    Step(State(s.files, s.modelId, s.sent + [Chat(s.modelId, ComposePrompt(q.itr, q.message, q.confidence))]),
         Returned(ChatText(reply)))
  }

  /**
   * `receive`: compute the model id only when none is cached, cache whatever
   * came back (an "Error: ..." text included), then forward the prompt.
   */
  function Receive(s: State, q: Query, script: Script): (step: Step)
    requires Valid(s.files)
    ensures Valid(step.state.files)
    ensures step.response.Hung? ==> step.state.modelId == s.modelId
    ensures s.modelId.Some? ==> step.state.modelId == s.modelId
  {
    if s.modelId.Some? then Ask(s, q, script.chat)
    else
      var run := GetModelId(s.files, script);
      if run.result.Hung? then Step(State(run.files, s.modelId, s.sent + run.sent), Hung)
      else Ask(State(run.files, run.result.value, s.sent + run.sent), q, script.chat)
  }

  /** The remote deletions `reset_model` attempts: only for ids that are present (truthy). */
  function Deletions(rec: IdRecord): (ds: seq<Request>)
    ensures |ds| <= 2
    ensures Truthy(rec.fileId) ==> DeleteFile(rec.fileId.value) in ds
    ensures Truthy(rec.modelName) ==> DeleteModel(rec.modelName.value) in ds
    ensures forall id :: DeleteFile(id) in ds ==> rec.fileId == Some(id) && id != ""
    ensures forall name :: DeleteModel(name) in ds ==> rec.modelName == Some(name) && name != ""
    ensures forall j :: 0 <= j < |ds| ==> ds[j].DeleteFile? || ds[j].DeleteModel?
  {
    (if Truthy(rec.fileId) then [DeleteFile(rec.fileId.value)] else [])
    + (if Truthy(rec.modelName) then [DeleteModel(rec.modelName.value)] else [])
  }

  /**
   * `reset_model`: when `ids.json` exists, attempt the deletions, remove it
   * and clear the cached id; otherwise change nothing.
   */
  function ResetModel(s: State): (s': State)
    requires Valid(s.files)
    ensures Valid(s'.files) && IdsJson !in s'.files
    ensures IdsJson in s.files ==> s'.modelId == None && Stored(s'.files) == NoIds
    ensures IdsJson !in s.files ==> s' == s
  {
    if IdsJson in s.files then State(s.files - {IdsJson}, None, s.sent + Deletions(Stored(s.files)))
    else s
  }

  // ---------------------------------------------------------------------------
  // Properties of the lifecycle
  // ---------------------------------------------------------------------------

  /** A persisted model name short-circuits: it is returned, and no file, job, request or write happens. */
  lemma CachedNameShortCircuits(fs: Files, script: Script)
    requires Valid(fs) && Truthy(Stored(fs).modelName)
    ensures GetModelId(fs, script) == Run(fs, [], Returned(Stored(fs).modelName))
  {
  }

  /**
   * A persisted file id (and no model name) suppresses the upload: the log
   * is not formatted, the first request creates the job on that file, no
   * file is created, and `ids.json` is either left alone or replaced by a
   * record naming that file.
   */
  lemma StoredFileSkipsUpload(fs: Files, script: Script)
    requires Valid(fs) && !Truthy(Stored(fs).modelName) && Truthy(Stored(fs).fileId)
    ensures var run := GetModelId(fs, script);
            && run.sent != [] && run.sent[0] == CreateJob(Stored(fs).fileId.value, BaseModel)
            && (forall j :: 0 <= j < |run.sent| ==> !run.sent[j].CreateFile?)
            && (run.files == fs ||
                (script.jobCreated.Ok? && run.result.Returned? &&
                 run.files == Saved(fs, IdRecord(Stored(fs).fileId, Some(script.jobCreated.value.id), run.result.value))))
  {
    var run := GetModelId(fs, script);
    var trained := Train(fs, Stored(fs).fileId.value, script);
    assert [] + trained.sent == trained.sent;
    assert run == trained;
  }

  /**
   * The uploader's success path: it overwrites the corpus, uploads exactly
   * the corpus the formatter wrote, polls `k` times, replaces the whole
   * record with `{file_id}` and returns the id.
   */
  lemma UploadSucceeds(fs: Files, script: Script, file: Handle, k: nat)
    requires Valid(fs) && ReadCsv(fs).returned == TrainingJsonl
    requires script.fileCreated == Ok(file)
    requires Settle(Observed(file, script.fileStatuses), FileReady) == Reached(k)
    ensures var exs := FormatTable(Table(fs[DataCsv])).value;
            var corpus := fs[TrainingJsonl := Jsonl(exs)];
            Upload(fs, script) == Run(Saved(corpus, UploadedRecord(file.id)),
                                      [CreateFile(Jsonl(exs))] + Repeat(RetrieveFile(file.id), k),
                                      Returned(file.id))
  {
  }

  /**
   * Without a log the uploader sends nothing and writes nothing: the
   * formatter's error text is opened as a path, which raises.
   */
  lemma UploadWithoutLog(fs: Files, script: Script)
    requires Valid(fs) && DataCsv !in fs && MissingCsv !in fs
    ensures Upload(fs, script) == Run(fs, [], Threw(NoSuchFile(MissingCsv)))
  {
  }

  /**
   * A successful job replaces the record with exactly
   * `{file_id, fine_tuning_job_id, fine_tuned_model_name}` and returns that
   * model name; the requests are the job creation and `k + 1` retrieves.
   */
  lemma TrainingSucceeds(fs: Files, fileId: string, script: Script, job: Handle, k: nat, name: Option<string>)
    requires Valid(fs) && fileId != ""
    requires script.jobCreated == Ok(job)
    requires Settle(Observed(job, script.jobStatuses), JobDone) == Reached(k)
    requires script.jobFinal == Ok(name)
    ensures FineTune(fs, Some(fileId), script)
         == Run(Saved(fs, IdRecord(Some(fileId), Some(job.id), name)),
                [CreateJob(fileId, BaseModel)] + Repeat(RetrieveJob(job.id), k + 1),
                Returned(name))
  {
    var trained := Train(fs, fileId, script);
    assert [] + trained.sent == trained.sent;
  }

  /** A cached model id is reused: nothing but the chat request happens, and the cache keeps its value. */
  lemma CachedIdReused(s: State, q: Query, script: Script)
    requires Valid(s.files) && s.modelId.Some?
    ensures Receive(s, q, script)
         == Step(State(s.files, s.modelId, s.sent + [Chat(s.modelId, ComposePrompt(q.itr, q.message, q.confidence))]),
                 Returned(ChatText(script.chat)))
  {
  }

  /**
   * An error from creating the job is cached as the model id, and every
   * later prompt request is forwarded to that "model" without retrying.
   */
  lemma JobErrorIsCached(s: State, q: Query, script: Script, m: string, q2: Query, script2: Script)
    requires Valid(s.files) && s.modelId == None
    requires !Truthy(Stored(s.files).modelName) && Truthy(Stored(s.files).fileId)
    requires script.jobCreated == Raise(m)
    ensures Receive(s, q, script).state.modelId == Some(ErrorText(m))
    ensures (var s1 := Receive(s, q, script).state;
             Receive(s1, q2, script2).state
             == State(s1.files, Some(ErrorText(m)), s1.sent + [Chat(Some(ErrorText(m)), ComposePrompt(q2.itr, q2.message, q2.confidence))]))
  {
    var run := GetModelId(s.files, script);
    assert run == Run(s.files, [CreateJob(Stored(s.files).fileId.value, BaseModel)], Returned(Some(ErrorText(m))));
    CachedIdReused(Receive(s, q, script).state, q2, script2);
  }

  /**
   * On a fresh process with no log and no record, the first prompt request
   * caches "Error: [Errno 2] ..." as the model id; no request other than the
   * chat is sent and no file changes.
   */
  lemma MissingLogIsCached(s: State, q: Query, script: Script)
    requires Valid(s.files) && s.modelId == None
    requires IdsJson !in s.files && DataCsv !in s.files && MissingCsv !in s.files
    ensures (var err := Some(ErrorText(NoSuchFile(MissingCsv)));
             Receive(s, q, script)
             == Step(State(s.files, err, s.sent + [Chat(err, ComposePrompt(q.itr, q.message, q.confidence))]),
                     Returned(ChatText(script.chat))))
  {
    UploadWithoutLog(s.files, script);
    assert s.sent + [] == s.sent;
  }

  /**
   * `reset_model` cannot clear an id cached while `ids.json` was absent: the
   * cached error of a failed first run survives the reset, and the next
   * prompt still goes to it even after the log has been written.
   */
  lemma CachedErrorSurvivesReset(s: State, q: Query, script: Script, r: Interaction, q2: Query, script2: Script)
    requires Valid(s.files) && s.modelId == None
    requires IdsJson !in s.files && DataCsv !in s.files && MissingCsv !in s.files
    ensures var err := Some(ErrorText(NoSuchFile(MissingCsv)));
            var s1 := ResetModel(Receive(s, q, script).state);
            var s2 := State(LogRow(s1.files, r), s1.modelId, s1.sent);
            s1.modelId == err && Receive(s2, q2, script2).state.modelId == err
  {
    MissingLogIsCached(s, q, script);
    var s1 := ResetModel(Receive(s, q, script).state);
    CachedIdReused(State(LogRow(s1.files, r), s1.modelId, s1.sent), q2, script2);
  }

  /** After a reset that found `ids.json`, the next prompt request recomputes from scratch: upload, then train. */
  lemma ResetForcesRetraining(s: State, script: Script)
    requires Valid(s.files) && IdsJson in s.files
    ensures ResetModel(s).modelId == None
    ensures GetModelId(ResetModel(s).files, script) == FineTune(ResetModel(s).files, None, script)
  {
  }

  /**
   * A prompt request on a fresh process drives the whole cycle: format the
   * log, upload the corpus, poll it until processed, save `{file_id}`, create
   * the job, poll it until succeeded, save all three ids, cache the model name
   * and forward the prompt to it.
   */
  lemma FreshProcessTrains(s: State, q: Query, script: Script, file: Handle, k1: nat, job: Handle, k2: nat, name: string)
    requires Valid(s.files) && s.modelId == None && IdsJson !in s.files
    requires ReadCsv(s.files).returned == TrainingJsonl
    requires script.fileCreated == Ok(file)
    requires Settle(Observed(file, script.fileStatuses), FileReady) == Reached(k1)
    requires script.jobCreated == Ok(job)
    requires Settle(Observed(job, script.jobStatuses), JobDone) == Reached(k2)
    requires script.jobFinal == Ok(Some(name))
    ensures var exs := FormatTable(Table(s.files[DataCsv])).value;
            var step := Receive(s, q, script);
            && step.response == Returned(ChatText(script.chat))
            && step.state.modelId == Some(name)
            && step.state.files == s.files[TrainingJsonl := Jsonl(exs)][IdsJson := [JsonIds(IdRecord(Some(file.id), Some(job.id), Some(name)))]]
            && step.state.sent == s.sent + [CreateFile(Jsonl(exs))] + Repeat(RetrieveFile(file.id), k1)
                                  + [CreateJob(file.id, BaseModel)] + Repeat(RetrieveJob(job.id), k2 + 1)
                                  + [Chat(Some(name), ComposePrompt(q.itr, q.message, q.confidence))]
  {
    var exs := FormatTable(Table(s.files[DataCsv])).value;
    var corpus := s.files[TrainingJsonl := Jsonl(exs)];
    UploadSucceeds(s.files, script, file, k1);
    var up := Upload(s.files, script);
    var uploadSent := [CreateFile(Jsonl(exs))] + Repeat(RetrieveFile(file.id), k1);
    var trained := Train(up.files, file.id, script);
    assert trained.sent == [CreateJob(file.id, BaseModel)] + Repeat(RetrieveJob(job.id), k2 + 1);
    assert GetModelId(s.files, script) == Run(trained.files, uploadSent + trained.sent, trained.result);
    assert Saved(corpus, UploadedRecord(file.id))[IdsJson := [JsonIds(IdRecord(Some(file.id), Some(job.id), Some(name)))]]
        == corpus[IdsJson := [JsonIds(IdRecord(Some(file.id), Some(job.id), Some(name)))]];
  }
}
