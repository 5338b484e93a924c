/**
 * The backend process: its files, the process-wide cached model id, and the
 * log of requests it has sent to the fine-tuning service. Each method is one
 * handler or helper of the backend and changes that state in place, and is
 * proved to do exactly what the Lifecycle and FileStore functions say.
 */
module Epfm {
  import opened Basics
  import opened Dataset
  import opened FileStore
  import opened Remote
  import opened Prompt
  import opened Lifecycle

  class Backend {
    var files: Files
    /** `fine_tuned_model_id`, None when the process starts. */
    var fineTunedModelId: Option<string>
    /** Every request sent to the service, in order. */
    var sent: seq<Request>

    predicate Valid()
      reads this
    {
      FileStore.Valid(files)
    }

    function Snapshot(): State
      reads this
    {
      State(files, fineTunedModelId, sent)
    }

    /** A process starting on the files found on disk. */
    constructor (disk: Files)
      requires FileStore.Valid(disk)
      ensures Valid() && files == disk && fineTunedModelId == None && sent == []
    {
      files := disk;
      fineTunedModelId := None;
      sent := [];
    }

    /** Logging: write the header into a new log, then append the record. */
    method InTerminal(itr: string, message: string, hesitations: string) returns (status: string)
      requires Valid()
      modifies this
      ensures Valid()
      ensures files == LogRow(old(files), Interaction(itr, message, hesitations))
      ensures fineTunedModelId == old(fineTunedModelId) && sent == old(sent)
      ensures status == "success"
    {
      if DataCsv !in files {
        files := files[DataCsv := [CsvRow(Header)]];
      }
      files := files[DataCsv := files[DataCsv] + [CsvRow([itr, message, hesitations])]];
      status := "success";
    }

    /** Erase the log and the corpus, whichever exist; a second call changes nothing. */
    method ResetData() returns (status: string)
      requires Valid()
      modifies this
      ensures Valid()
      ensures files == old(files) - {DataCsv, TrainingJsonl}
      ensures DataCsv !in old(files) && TrainingJsonl !in old(files) ==> files == old(files)
      ensures fineTunedModelId == old(fineTunedModelId) && sent == old(sent)
      ensures status == "success"
    {
      if DataCsv in files {
        files := files - {DataCsv};
      }
      if TrainingJsonl in files {
        files := files - {TrainingJsonl};
      }
      status := "success";
    }

    /**
     * Erase the model: when `ids.json` exists, ask the service to delete the
     * persisted file and model (a failure of the client library is only logged), remove the record
     * and clear the cached id; otherwise nothing changes. Always succeeds.
     */
    method ResetModel() returns (status: string)
      requires Valid()
      modifies this
      ensures Valid()
      ensures Snapshot() == Lifecycle.ResetModel(old(Snapshot()))
      ensures IdsJson in old(files) ==>
                files == old(files) - {IdsJson} && fineTunedModelId == None &&
                sent == old(sent) + Deletions(Stored(old(files)))
      ensures IdsJson !in old(files) ==>
                files == old(files) && fineTunedModelId == old(fineTunedModelId) && sent == old(sent)
      ensures status == "success"
    {
      if IdsJson in files {
        var ids := files[IdsJson][0].ids;
        var fileId := ids.fileId;
        var modelName := ids.modelName;
        if Truthy(fileId) {
          sent := sent + [DeleteFile(fileId.value)];
        }
        if Truthy(modelName) {
          sent := sent + [DeleteModel(modelName.value)];
        }
        files := files - {IdsJson};
        fineTunedModelId := None;
      }
      status := "success";
    }

    /**
     * The formatter: read the log, build one example per row, then overwrite
     * the corpus line by line and return its path.
     */
    method ReadCsvData() returns (path: string)
      requires Valid()
      modifies this
      ensures Valid()
      ensures Formatted(path, files) == ReadCsv(old(files))
      ensures fineTunedModelId == old(fineTunedModelId) && sent == old(sent)
    {
      if DataCsv !in files {
        return MissingCsv;
      }
      var result := FormatRecords(Table(files[DataCsv]));
      if result.Failure? {
        return ErrorText(result.error);
      }
      WriteCorpus(result.value);
      path := TrainingJsonl;
    }

    /** Overwrite the corpus, writing one line per example in order. */
    method WriteCorpus(formatted: seq<Example>)
      requires Valid()
      modifies this
      ensures Valid()
      ensures files == old(files)[TrainingJsonl := Jsonl(formatted)]
      ensures fineTunedModelId == old(fineTunedModelId) && sent == old(sent)
    {
      files := files[TrainingJsonl := []];
      var i := 0;
      while i < |formatted|
        invariant 0 <= i <= |formatted|
        invariant files == old(files)[TrainingJsonl := Jsonl(formatted[..i])]
        invariant fineTunedModelId == old(fineTunedModelId) && sent == old(sent)
      {
        assert Jsonl(formatted[..i + 1]) == Jsonl(formatted[..i]) + [JsonExample(formatted[i])];
        files := files[TrainingJsonl := files[TrainingJsonl] + [JsonExample(formatted[i])]];
        i := i + 1;
      }
      assert formatted[..i] == formatted;
    }

    /**
     * Upload the corpus: format it, open the returned path, create the remote
     * file, then wait for it.
     */
    method CreateRemoteFile(script: Script) returns (r: Outcome<string>)
      requires Valid()
      modifies this
      ensures Valid()
      ensures var run := Upload(old(files), script);
              files == run.files && sent == old(sent) + run.sent && r == run.result
      ensures fineTunedModelId == old(fineTunedModelId)
    {
      var path := ReadCsvData();
      if path !in files {
        assert sent == old(sent) + [];
        return Threw(NoSuchFile(path));
      }
      sent := sent + [CreateFile(files[path])];
      if script.fileCreated.Raise? {
        return Threw(script.fileCreated.message);
      }
      r := PollFile(script.fileCreated.value, script.fileStatuses);
    }

    /** Wait until the file is processed, polling it once per supplied status, then save `{file_id}`. */
    method PollFile(file: Handle, replies: seq<Reply<string>>) returns (r: Outcome<string>)
      requires Valid()
      modifies this
      ensures Valid()
      ensures var run := AwaitFile(old(files), file, replies);
              files == run.files && sent == old(sent) + run.sent && r == run.result
      ensures fineTunedModelId == old(fineTunedModelId)
    {
      var fileId := file.id;
      var status := file.status;
      ghost var obs := Observed(file, replies);
      var k := 0;
      while status != FileReady
        invariant 0 <= k <= |replies|
        invariant obs[k] == Ok(status) && WaitedThrough(obs, FileReady, k)
        invariant sent == old(sent) + Repeat(RetrieveFile(fileId), k)
        invariant files == old(files) && fineTunedModelId == old(fineTunedModelId)
        decreases |replies| - k
      {
        if k == |replies| {
          assert WaitedThrough(obs, FileReady, |obs|);
          AwaitFileEnds(old(files), file, replies, Blocked);
          return Hung;
        }
        sent := sent + [RetrieveFile(fileId)];
        var reply := replies[k];
        k := k + 1;
        assert obs[k] == reply;
        if reply.Raise? {
          AwaitFileEnds(old(files), file, replies, Failed(k, reply.message));
          return Threw(reply.message);
        }
        status := reply.value;
      }
      AwaitFileEnds(old(files), file, replies, Reached(k));
      files := files[IdsJson := [JsonIds(UploadedRecord(fileId))]];
      r := Returned(fileId);
    }

    /**
     * Fine-tune: upload unless a file id is given, create the job on that
     * file, then wait for it. Every exception is returned as its
     * "Error: ..." text.
     */
    method CreateAndFineTuneModel(fileId: Option<string>, script: Script) returns (r: Outcome<Option<string>>)
      requires Valid()
      modifies this
      ensures Valid()
      ensures var run := FineTune(old(files), fileId, script);
              files == run.files && sent == old(sent) + run.sent && r == run.result
      ensures fineTunedModelId == old(fineTunedModelId)
    {
      FineTuneCases(files, fileId, script);
      var trainingFile: string;
      if !Truthy(fileId) {
        var up := CreateRemoteFile(script);
        match up {
          case Threw(m) => return Returned(Some(ErrorText(m)));
          case Hung => return Hung;
          case Returned(id) => trainingFile := id;
        }
      } else {
        trainingFile := fileId.value;
      }
      ghost var uploaded := sent;
      r := TrainOn(trainingFile, script);
      assert sent == old(sent) + (sent[|old(sent)|..|uploaded|] + sent[|uploaded|..]);
    }

    /** The job part, once the training file is known: create the job on it, then wait for the job. */
    method TrainOn(trainingFile: string, script: Script) returns (r: Outcome<Option<string>>)
      requires Valid()
      modifies this
      ensures Valid()
      ensures var run := Train(old(files), trainingFile, script);
              files == run.files && sent == old(sent) + run.sent && r == run.result
      ensures fineTunedModelId == old(fineTunedModelId)
    {
      sent := sent + [CreateJob(trainingFile, BaseModel)];
      if script.jobCreated.Raise? {
        return Returned(Some(ErrorText(script.jobCreated.message)));
      }
      ghost var created := sent;
      r := PollJob(trainingFile, script.jobCreated.value, script.jobStatuses, script.jobFinal);
      assert sent == old(sent) + ([CreateJob(trainingFile, BaseModel)] + sent[|created|..]);
    }

    /**
     * Wait until the job has succeeded, polling it once per supplied status,
     * retrieve it once more and save all three ids.
     */
    method PollJob(fileId: string, job: Handle, replies: seq<Reply<string>>, final: Reply<Option<string>>)
      returns (r: Outcome<Option<string>>)
      requires Valid()
      modifies this
      ensures Valid()
      ensures var run := AwaitJob(old(files), fileId, job, replies, final);
              files == run.files && sent == old(sent) + run.sent && r == run.result
      ensures fineTunedModelId == old(fineTunedModelId)
    {
      var status := job.status;
      ghost var obs := Observed(job, replies);
      var k := 0;
      while status != JobDone
        invariant 0 <= k <= |replies|
        invariant obs[k] == Ok(status) && WaitedThrough(obs, JobDone, k)
        invariant sent == old(sent) + Repeat(RetrieveJob(job.id), k)
        invariant files == old(files) && fineTunedModelId == old(fineTunedModelId)
        decreases |replies| - k
      {
        if k == |replies| {
          assert WaitedThrough(obs, JobDone, |obs|);
          AwaitJobEnds(old(files), fileId, job, replies, final, Blocked);
          return Hung;
        }
        sent := sent + [RetrieveJob(job.id)];
        var reply := replies[k];
        k := k + 1;
        assert obs[k] == reply;
        if reply.Raise? {
          AwaitJobEnds(old(files), fileId, job, replies, final, Failed(k, reply.message));
          return Returned(Some(ErrorText(reply.message)));
        }
        status := reply.value;
      }
      AwaitJobEnds(old(files), fileId, job, replies, final, Reached(k));
      sent := sent + [RetrieveJob(job.id)];
      if final.Raise? {
        return Returned(Some(ErrorText(final.message)));
      }
      var modelName := final.value;
      files := files[IdsJson := [JsonIds(IdRecord(Some(fileId), Some(job.id), modelName))]];
      r := Returned(modelName);
    }

    /** Find the model id: a persisted model name is returned; otherwise fine-tune with the persisted file id. */
    method GetFineTuneModelId(script: Script) returns (r: Outcome<Option<string>>)
      requires Valid()
      modifies this
      ensures Valid()
      ensures var run := GetModelId(old(files), script);
              files == run.files && sent == old(sent) + run.sent && r == run.result
      ensures fineTunedModelId == old(fineTunedModelId)
    {
      var fileId: Option<string> := None;
      var modelName: Option<string> := None;
      if IdsJson in files {
        var ids := files[IdsJson][0].ids;
        fileId, modelName := ids.fileId, ids.modelName;
      }
      if Truthy(modelName) {
        assert sent == old(sent) + [];
        return Returned(modelName);
      }
      r := CreateAndFineTuneModel(fileId, script);
    }

    /** Forward a prompt: one chat request; its reply's text, or the exception as "Error: ...". */
    method PromptToModel(model: Option<string>, itr: string, message: string, confidence: string, reply: Reply<string>)
      returns (text: string)
      modifies this`sent
      ensures sent == old(sent) + [Chat(model, ComposePrompt(itr, message, confidence))]
      ensures text == ChatText(reply)
    {
      var prompt := ComposePrompt(itr, message, confidence);
      sent := sent + [Chat(model, prompt)];
      match reply {
        case Ok(content) => text := content;
        case Raise(m) => text := ErrorText(m);
      }
    }

    /** Answer a prompt: compute the model id only when none is cached, cache it, then forward the prompt. */
    method Receive(itr: string, message: string, confidence: string, script: Script) returns (response: Outcome<string>)
      requires Valid()
      modifies this
      ensures Valid()
      ensures Step(Snapshot(), response) == Lifecycle.Receive(old(Snapshot()), Query(itr, message, confidence), script)
    {
      if fineTunedModelId == None {
        var id := GetFineTuneModelId(script);
        if id.Hung? {
          return Hung;
        }
        fineTunedModelId := id.value;
      }
      var text := PromptToModel(fineTunedModelId, itr, message, confidence, script.chat);
      response := Returned(text);
    }
  }
}
