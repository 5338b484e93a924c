# epfm fine-tuning backend: a verified model

`epfm.py` is a small backend that logs operator interactions to `data.csv`.
It turns the log into a chat fine-tuning corpus `training_data.jsonl`,
uploads the corpus, and trains a model on it. The identifiers are kept in
`ids.json` and in the process-wide `fine_tuned_model_id`. Each prompt is
forwarded to the trained model.

The model has these parts:

- **Dataset formatter** (`Dataset`, `FileStore.ReadCsv`, `Epfm.Backend.ReadCsvData`).
  It models how `csv.DictReader` reads the log: the first row is the
  header, a key is read at its last occurrence, a short row gives `None`, a
  missing key raises `KeyError`, and blank rows are skipped. It maps each
  record to three role-tagged messages and writes one corpus line per
  example. There are two loops: the read loop, `Dataset.FormatRecords`, and
  the write loop, `Epfm.Backend.WriteCorpus`.
- **File store** (`FileStore`): a map from path to a sequence of lines.
  - A line is a CSV row, a serialised example, or the identifier record.
  - The CSV and JSON encodings are kept as the values they serialise, so
    they are injective by construction.
  - `Saved` replaces the whole `ids.json`.
- **Lifecycle** (`Lifecycle`): pure functions saying what each operation
  does to the files, which requests it sends to the fine-tuning service, in
  order, and how it ends. The operations are uploading, training, finding
  the model id, answering a prompt and resetting the model.
- **Service oracle** (`Remote`): the service is a `Script` of replies.
  - Every reply is either a value or a raised exception.
  - Each poll loop consumes a supplied finite sequence of statuses.
  - When the statuses run out before the loop's target status, the outcome
    is `Hung`: the real loop would never return.
- **Prompt composition** (`Prompt`): the fixed prefix plus three labelled
  lines. When no field contains a newline, the three fields can be read back
  from the prompt.
- **The process** (`Epfm.Backend`): a class with these fields:
  - `files`;
  - `fineTunedModelId`;
  - `sent`, the log of every request sent to the service.

  Each handler and helper of `epfm.py` is a method with loops where the
  source has them. Each method is proved to produce exactly the new state
  and result that the `Lifecycle` / `FileStore` functions give. The
  `Lifecycle` lemmas then state the promised properties about those
  functions.

In these surprising cases the model follows the code:

- Without `data.csv` the formatter does not raise. It returns
  `"Error: The 'data.csv' file does not exist."`, and `create_remote_file`
  opens that string as a path. The resulting `FileNotFoundError` becomes
  `create_and_fine_tune_model`'s result `"Error: [Errno 2] ..."`, and
  `receive` caches that string as the model id. See
  `Lifecycle.MissingLogIsCached`.
- The uploader does not check for a stored file id itself. That check is in
  `create_and_fine_tune_model` (lines 155-158). Likewise the model-name
  check is in `get_fine_tune_model_id`.
- An exception in the uploader is caught by `create_and_fine_tune_model`'s
  handler too, not only exceptions from the job calls.
- `reset_model` clears the in-memory id only when `ids.json` exists. An id
  cached while `ids.json` was absent survives every reset. See
  `Lifecycle.CachedErrorSurvivesReset`.

## Model

| member | source | states |
|---|---|---|
| Basics.Truthy | epfm.py:83-91 | a definition with no ensures: Python truthiness of an `ids.get` value as `if file_id:` and `if fine_tuned_model_name:` test it (also lines 140, 155), so None and "" are false; `Lifecycle.Deletions` and `Lifecycle.FineTuneCases` state the branches it selects |
| Basics.ErrorText | epfm.py:194-196 | the caught-exception text is "Error: " followed by exactly the message |
| Dataset.Conversation | epfm.py:243-251 | a definition with no ensures: the three messages of one record; `Dataset.FormatRowShape` states them |
| Dataset.Render | epfm.py:244-248 | a definition with no ensures: the f-string text of a field, "None" for a field missing from a short row |
| Dataset.KeyErrorText | epfm.py:252-254 | a definition with no ensures: `str(KeyError(key))`, the key in single quotes |
| Dataset.LastIndex | epfm.py:241 | DictReader's field for a key is its last occurrence in the header; -1 exactly when the header lacks it |
| Dataset.HasKeys | epfm.py:244-248 | a definition with no ensures: the header holds all three keys the f-strings read; `Dataset.FormatRow` states that success is exactly this |
| Dataset.MissingKeyError | epfm.py:244-248 | a definition with no ensures: the KeyError of the first key the f-strings read that the header lacks, in the order itr, message, hesitations; `Dataset.FormatRow` and `Dataset.FormatRowsOutcome` state that it is the error raised |
| Dataset.Lookup | epfm.py:242-248 | `row[key]` raises KeyError `'key'` exactly when the header lacks the key |
| Dataset.LookupReads | epfm.py:241-248 | a key the header holds gives the row's field at the key's last header position, or None when the row is too short |
| Dataset.FormatRow | epfm.py:243-251 | a record succeeds exactly when the header has itr, message and hesitations; otherwise it fails with the KeyError of the first missing key, in the order itr, message, hesitations |
| Dataset.FormatRowShape | epfm.py:243-251 | a record gives exactly three messages, in the order system, user, assistant, with contents "itr: ", "message: " and "hesitations: " each followed by the text of that key's field |
| Dataset.DataRows | epfm.py:241-242 | DictReader skips blank rows and keeps every other: no data row is blank, a row is a data row exactly when it is a non-blank row of the file, and there are never more data rows than rows; `FileStore.AllFilled` states that rows of three fields are all kept |
| Dataset.FormatRows | epfm.py:242-251 | a definition with no ensures: the reference meaning of the read loop over the rows after the header; `Dataset.FormatRowsOutcome` and `Dataset.FormatRowsSpec` state its properties |
| Dataset.FormatTable | epfm.py:240-241 | a definition with no ensures: the first row of the log is the header and the rest are read by `FormatRows` |
| Dataset.FormatRecords | epfm.py:240-254 | the `for row in reader` loop appends one conversation per row and stops at the first row that raises: it gives exactly `FormatTable` of the log |
| Dataset.FormatRowsOutcome | epfm.py:240-254 | reading fails exactly when there is a data row and the header lacks a key, and then with that key's KeyError |
| Dataset.FormatRowsSpec | epfm.py:240-251 | on success, one example per non-blank data row, in file order, each that row's conversation |
| Dataset.LoggedRowFormats | epfm.py:39-50 | a row written under the logger's header formats to exactly its own conversation |
| Dataset.WorkedExample | epfm.py:243-251 | the record (1, hello, none) becomes the messages "itr: 1", "message: hello", "hesitations: none" |
| FileStore.Stored | epfm.py:131-138 | loading `ids.json` gives the persisted record; absent keys and a missing file read as None |
| FileStore.Saved | epfm.py:181-189 | `ids.json` opened for writing: the whole record is replaced by the new one and no other file changes |
| FileStore.LogRow | epfm.py:39-50 | the header is written only when `data.csv` is absent; then exactly one row (itr, message, hesitations) is appended and no other file changes |
| FileStore.LogAll | epfm.py:29-52 | a definition with no ensures: N logging calls in call order; `FileStore.LogAllAppends` and `FileStore.LogFromNothing` state their effect |
| FileStore.LogAllAppends | epfm.py:48-50 | logging onto an existing log appends one row per call, in call order, and writes no header |
| FileStore.LogFromNothing | epfm.py:39-50 | N > 0 calls starting with no log leave exactly one header row followed by the N rows in call order; no other file changes |
| FileStore.Table | epfm.py:240-241 | the rows the csv reader gives are the log's rows in file order |
| FileStore.Jsonl | epfm.py:258-260 | the corpus has one line per example, in order |
| FileStore.ReadCsv | epfm.py:229-265 | without `data.csv`, exactly the missing-file error text and no write; a row that raises gives exactly "Error: " + its KeyError text and no write; a log that exists and reads gives the corpus path, and the path is returned only then, with `training_data.jsonl` overwritten by one line per example |
| FileStore.LoggedRowsFormat | epfm.py:240-251 | rows holding the logged records' fields format to exactly the records' conversations, in order |
| FileStore.LogThenFormat | epfm.py:29-52 | logging N > 0 records into a fresh log and formatting writes exactly their N conversations, in call order, and returns the corpus path |
| FileStore.AllFilled | epfm.py:242 | rows of three fields are all data rows (none skipped as blank) |
| Remote.SettleFrom | epfm.py:211-215 | polling from position k: the loop's end is the first observation that reaches the target or raises, or none when every status kept it waiting |
| Remote.Settle | epfm.py:170-175 | the poll loop ends where the first observation reaches the target or raises, or waits forever if all keep it waiting |
| Remote.SettleUnique | epfm.py:211-215 | only one outcome fits the loop's exit description, so any loop meeting it ends as `Settle` says |
| Remote.Observed | epfm.py:167-174 | the loop first sees the created handle's status, then one status per retrieve |
| Remote.Repeat | epfm.py:214 | the same retrieve request sent n times |
| Prompt.ComposePrompt | epfm.py:270-275 | a definition with no ensures: the prefix and the f-string of line 274; `Prompt.ParseComposed` and `Prompt.ComposeInjective` state its properties |
| Prompt.TemplateLayout | epfm.py:273-275 | the template text after any prefix is that prefix followed by the three labelled lines, each ended by a newline |
| Prompt.LayoutLines | epfm.py:274 | without newlines in the fields, the three labelled lines split into exactly those lines and an empty tail |
| Prompt.ParseComposed | epfm.py:270-275 | the prompt starts with the fixed prefix, and the three fields can be read back from it when none holds a newline |
| Prompt.ComposeInjective | epfm.py:273-275 | distinct newline-free requests give distinct prompts |
| Prompt.NewlineMakesAmbiguous | epfm.py:273-275 | a newline inside a field lets two different requests give the same prompt |
| Lifecycle.PyRepr | epfm.py:204 | a definition with no ensures: how the failing `open` names the path, quoted as repr quotes it |
| Lifecycle.NoSuchFile | epfm.py:204 | a definition with no ensures: `str()` of the `FileNotFoundError` that `open` raises for a missing path |
| Lifecycle.UploadedRecord | epfm.py:218-224 | a definition with no ensures: the record `{file_id}`, every other key absent |
| Lifecycle.Upload | epfm.py:199-226 | the formatter runs first and its returned path is uploaded; the first request creates the file from that path's content and all later requests retrieve exactly the created file's id; a returned id is the created file's id; only success writes `ids.json` |
| Lifecycle.AwaitFile | epfm.py:208-226 | it polls until "processed" and then saves exactly `{file_id}`, returning the id; on a raise or a wait forever no file changes; only retrieves of that file are sent |
| Lifecycle.AwaitFileEnds | epfm.py:208-226 | each way the file poll loop can end (processed at k, raise at k, waiting forever) gives the files, retrieves and outcome that `AwaitFile` states |
| Lifecycle.Train | epfm.py:160-196 | the first request creates the job on the given file with the base model and every later request retrieves exactly the created job's id; it never raises; either no file changes, or the job was created and `ids.json` is replaced by exactly that file id, the job's id and the returned model name |
| Lifecycle.AwaitJob | epfm.py:166-196 | it polls until "succeeded", retrieves once more, and saves exactly file id, job id and model name, returning the name; a raise becomes "Error: ..."; only retrieves of that job are sent |
| Lifecycle.AwaitJobEnds | epfm.py:166-196 | each way the job poll loop and final retrieve can end gives the files, retrieves and outcome that `AwaitJob` states |
| Lifecycle.FineTune | epfm.py:149-196 | it uploads only when the given file id is falsy; every exception becomes a returned "Error: ..." text, so it never raises |
| Lifecycle.FineTuneCases | epfm.py:149-196 | with a truthy file id, fine-tuning is training on that file alone; otherwise an upload exception becomes its "Error: ..." text, and an uploaded file is trained on after the upload's requests |
| Lifecycle.GetModelId | epfm.py:129-146 | a persisted model name is returned as it is; otherwise it fine-tunes with the persisted file id; it never raises |
| Lifecycle.Receive | epfm.py:107-126 | a model id is computed only when none is cached; a cached id is never changed; a request that never returns leaves the cache as it was |
| Lifecycle.Deletions | epfm.py:81-97 | a deletion is attempted exactly for each id that is present and non-empty, and for nothing else |
| Lifecycle.ResetModel | epfm.py:77-104 | when `ids.json` exists, it is removed and the in-memory id cleared; otherwise the state is unchanged |
| Lifecycle.CachedNameShortCircuits | epfm.py:140-142 | a persisted model name is returned with no request sent and no file changed |
| Lifecycle.StoredFileSkipsUpload | epfm.py:155-158 | a persisted file id means no upload and no formatting: the first request creates the job on that file, no file is created remotely, and either no file changes or only `ids.json` is replaced by that file id, the job's id and the model name |
| Lifecycle.UploadSucceeds | epfm.py:199-226 | on success the corpus is overwritten and uploaded as written, k retrieves are sent, and `ids.json` becomes exactly `{file_id}` |
| Lifecycle.UploadWithoutLog | epfm.py:201-204 | without a log (the formatter's early return, lines 234-236), nothing is sent and nothing written: the error text is opened as a path, which raises |
| Lifecycle.TrainingSucceeds | epfm.py:161-192 | a successful job replaces the record with exactly the three ids and returns the model name; requests are the job creation and k + 1 retrieves |
| Lifecycle.ChatText | epfm.py:284-289 | a definition with no ensures: the reply's text, or "Error: " and the exception's text; `Lifecycle.ErrorLooksLikeReply` states that the two can coincide |
| Lifecycle.Ask | epfm.py:277-289 | a definition with no ensures: one chat request to the cached model with the composed prompt, files and cache unchanged; `Lifecycle.CachedIdReused` states it as the whole effect of a prompt request |
| Lifecycle.ErrorLooksLikeReply | epfm.py:285-289 | a failed chat request and a reply that is that error text return the same string |
| Lifecycle.CachedIdReused | epfm.py:114-124 | with an id cached, only the chat request is sent and the cache keeps its value |
| Lifecycle.JobErrorIsCached | epfm.py:114-116 | a job creation error, returned as text by lines 194-196, is cached as the model id, and the next prompt goes to that "model" without retrying |
| Lifecycle.MissingLogIsCached | epfm.py:114-116 | on a fresh process without log or record (lines 201-204 open the text of lines 234-236 as a path), "Error: [Errno 2] ..." is cached as the model id and only the chat request is sent |
| Lifecycle.CachedErrorSurvivesReset | epfm.py:77-104 | a reset while `ids.json` is absent leaves the cached error in place, and later prompts still use it |
| Lifecycle.ResetForcesRetraining | epfm.py:77-104 | after a reset that found `ids.json`, the next id (lines 129-146) is computed from scratch: upload, then train |
| Lifecycle.FreshProcessTrains | epfm.py:107-226 | the whole cycle on a fresh process: the exact requests, in order, the final `ids.json`, the cached model name and the forwarded prompt |
| Epfm.Backend.constructor | epfm.py:20-21 | a process starts with the files on disk, no cached id and no requests sent |
| Epfm.Backend.InTerminal | epfm.py:29-52 | the files become exactly `LogRow` of the old ones; no cached id changes, no request is sent, and the status is "success" |
| Epfm.Backend.ResetData | epfm.py:55-65 | the log and corpus are removed if present, nothing else changes, a second call changes nothing, and it returns "success" |
| Epfm.Backend.ResetModel | epfm.py:71-104 | the new state is exactly `Lifecycle.ResetModel` of the old: deletions for the present ids, record removed, id cleared; no change without `ids.json`; "success" |
| Epfm.Backend.ReadCsvData | epfm.py:229-265 | the returned path and the new files are exactly `FileStore.ReadCsv` of the old files |
| Epfm.Backend.WriteCorpus | epfm.py:256-260 | the corpus write loop: `training_data.jsonl` ends holding exactly one line per example, in order; no other file changes |
| Epfm.Backend.CreateRemoteFile | epfm.py:199-226 | files, requests sent and outcome are exactly `Lifecycle.Upload`'s |
| Epfm.Backend.PollFile | epfm.py:208-226 | the file poll loop and the save: exactly `Lifecycle.AwaitFile` |
| Epfm.Backend.CreateAndFineTuneModel | epfm.py:149-196 | files, requests sent and outcome are exactly `Lifecycle.FineTune`'s |
| Epfm.Backend.TrainOn | epfm.py:160-196 | the job creation and everything after it: files, requests sent and outcome are exactly `Lifecycle.Train`'s |
| Epfm.Backend.PollJob | epfm.py:166-192 | the job poll loop, the final retrieve and the save: exactly `Lifecycle.AwaitJob` |
| Epfm.Backend.GetFineTuneModelId | epfm.py:129-146 | files, requests sent and outcome are exactly `Lifecycle.GetModelId`'s |
| Epfm.Backend.PromptToModel | epfm.py:268-289 | exactly one chat request, with the composed prompt, to the given model; it returns the reply text or "Error: ..." |
| Epfm.Backend.Receive | epfm.py:107-126 | the new state and response are exactly `Lifecycle.Receive`'s |

## Left out

- The Flask app, routing, `render_template`, `jsonify` and the HTTP status codes (lines 1-8, 24-26, 126, 292-293) are web plumbing. Handlers return their payload as a value.
- The OpenAI client calls are replaced by the `Script` of replies and the `sent` request log. Network, authentication and the library's own behaviour are not modelled.
- `time.sleep` and the unbounded waits are not modelled. A poll loop runs over the supplied statuses, and running out of them is the outcome `Hung`, because the real loop never returns. Termination of the real loops is not proved.
- CSV quoting and JSON escaping are not modelled. A row, an example and an identifier record are stored as the values they serialise. `json.dumps(item) + "\n"` is one corpus line.
- The API-key sentinel check (lines 10-18) is environment I/O.
- Concurrent requests racing on `ids.json` and on the global id are left out. That concurrency is the framework's.
- `static/index.js` is browser UI and is not part of this model.
- The `except` branches for write failures are left out: lines 261-263 for the corpus and 66-68 for `reset_data`. The file store cannot fail to write or delete.
- `print` output (the log messages) is left out.
- `Lifecycle.PyRepr`: Python's repr of the path in the `FileNotFoundError` text is modelled only by its choice of quote. Backslash escaping is not modelled.
- Request bodies are taken as the three field strings. `data[...]` raising `KeyError` for a missing field and JSON numbers (rendered by `str`) are not modelled.
- Reading `data.csv` back is taken as exact. It is written with `newline=""` (lines 43, 48) but read in universal-newline mode (line 240), so a "\r" or "\r\n" inside a field would read back as "\n". This affects `FileStore.LogThenFormat` and `Dataset.LoggedRowFormats`.
- The csv module's field-size limit (131072 characters) is not modelled. A longer field raises inside the read at lines 240-254, and the model reads it normally.
- `ids.json` values are assumed to be strings or null. The values of `ids.get` are taken as `Option<string>`.
- `ids.json`, when present, is assumed to hold one JSON object (`FileStore.Valid`, required by `Epfm.Backend.constructor`). A malformed file or a non-object makes `json.load` or `.get` raise uncaught at lines 78-82 and 132-135, and the model has no such state.
- `Lifecycle.ResetModel` / `Lifecycle.Deletions`: the deletions get no reply from the service. The source catches only `openai.error.OpenAIError` around them (lines 85-97); any other exception from a delete propagates, so line 100 is never reached, `ids.json` and the cached id both stay and "success" is not returned. The model treats every deletion as completing, with or without a library error.
- `Epfm.Backend.PromptToModel`: `response.choices[0].message.content` is taken as the script's reply text, and a `None` content is not distinguished.
- The ids in `sent` requests (`RetrieveFile`, `RetrieveJob`) are taken from the created handle; the ids a retrieve returns are assumed to be the same handle.
