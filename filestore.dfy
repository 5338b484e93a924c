/**
 * The local files the backend keeps: the interaction log `data.csv`, the
 * training corpus `training_data.jsonl` and the identifier record
 * `ids.json`. A file is a sequence of lines; each line is kept as the value
 * it serialises, so the CSV and JSON encodings are injective by construction.
 */
module FileStore {
  import opened Basics
  import opened Dataset

  const DataCsv := "data.csv"
  const TrainingJsonl := "training_data.jsonl"
  const IdsJson := "ids.json"

  /** The header row the logger writes into a new log. */
  const Header: seq<string> := ["itr", "message", "hesitations"]

  /** What the formatter returns when there is no log. */
  const MissingCsv := ErrorText("The 'data.csv' file does not exist.")

  /** The keys of `ids.json`; a key that is absent or null reads as None. */
  datatype IdRecord = IdRecord(fileId: Option<string>, jobId: Option<string>, modelName: Option<string>)

  /** What loading gives when `ids.json` does not exist. */
  const NoIds := IdRecord(None, None, None)

  datatype Line = CsvRow(fields: seq<string>) | JsonExample(example: Example) | JsonIds(ids: IdRecord)

  type Files = map<string, seq<Line>>

  predicate AllRows(lines: seq<Line>) {
    forall i :: 0 <= i < |lines| ==> lines[i].CsvRow?
  }

  /** The log holds CSV rows and `ids.json` holds exactly one JSON object. */
  predicate Valid(fs: Files) {
    && (DataCsv in fs ==> AllRows(fs[DataCsv]))
    && (IdsJson in fs ==> |fs[IdsJson]| == 1 && fs[IdsJson][0].JsonIds?)
  }

  /** The rows of a CSV file, as the csv reader gives them. */
  function Table(lines: seq<Line>): (t: seq<seq<string>>)
    requires AllRows(lines)
    ensures |t| == |lines| && forall i :: 0 <= i < |t| ==> lines[i] == CsvRow(t[i])
  {
    seq(|lines|, i requires 0 <= i < |lines| => lines[i].fields)
  }

  /** The corpus lines: one `json.dumps(item) + "\n"` per example, in order. */
  function Jsonl(exs: seq<Example>): (lines: seq<Line>)
    ensures |lines| == |exs| && forall i :: 0 <= i < |exs| ==> lines[i] == JsonExample(exs[i])
  {
    seq(|exs|, i requires 0 <= i < |exs| => JsonExample(exs[i]))
  }

  /** The persisted record, or the empty one when `ids.json` is absent. */
  function Stored(fs: Files): (rec: IdRecord)
    requires Valid(fs)
    ensures IdsJson !in fs ==> rec == NoIds
    ensures IdsJson in fs ==> fs[IdsJson] == [JsonIds(rec)]
  {
    if IdsJson in fs then fs[IdsJson][0].ids else NoIds
  }

  /** `ids.json` opened with "w" and given one record: the whole file is replaced. */
  function Saved(fs: Files, rec: IdRecord): (fs': Files)
    requires Valid(fs)
    ensures Valid(fs') && Stored(fs') == rec
    ensures fs'.Keys == fs.Keys + {IdsJson}
    ensures forall p :: p in fs && p != IdsJson ==> fs'[p] == fs[p]
  {
    fs[IdsJson := [JsonIds(rec)]]
  }

  // ---------------------------------------------------------------------------
  // The interaction log
  // ---------------------------------------------------------------------------

  /** The body of one logging request. */
  datatype Interaction = Interaction(itr: string, message: string, hesitations: string)

  function Fields(r: Interaction): seq<string> {
    [r.itr, r.message, r.hesitations]
  }

  /**
   * One logging request: the header is written only when the log does not
   * exist, then the record is appended as one row; no other file changes.
   */
  function LogRow(fs: Files, r: Interaction): (fs': Files)
    requires Valid(fs)
    ensures Valid(fs')
    ensures fs'.Keys == fs.Keys + {DataCsv}
    ensures DataCsv in fs ==> fs'[DataCsv] == fs[DataCsv] + [CsvRow(Fields(r))]
    ensures DataCsv !in fs ==> fs'[DataCsv] == [CsvRow(Header), CsvRow(Fields(r))]
    ensures forall p :: p in fs && p != DataCsv ==> fs'[p] == fs[p]
  {
    var before := if DataCsv in fs then fs[DataCsv] else [CsvRow(Header)];
    fs[DataCsv := before + [CsvRow(Fields(r))]]
  }

  /** A sequence of logging requests, in call order. */
  function LogAll(fs: Files, rs: seq<Interaction>): Files
    requires Valid(fs)
    decreases |rs|
  {
    if rs == [] then fs else LogAll(LogRow(fs, rs[0]), rs[1..])
  }

  /** The rows the records are logged as. */
  function Rows(rs: seq<Interaction>): (lines: seq<Line>)
    ensures |lines| == |rs| && forall i :: 0 <= i < |rs| ==> lines[i] == CsvRow(Fields(rs[i]))
  {
    seq(|rs|, i requires 0 <= i < |rs| => CsvRow(Fields(rs[i])))
  }

  /** The rows of a nonempty sequence of records: the first record's row, then the rest's. */
  lemma RowsCons(prefix: seq<Line>, rs: seq<Interaction>)
    requires rs != []
    ensures prefix + [CsvRow(Fields(rs[0]))] + Rows(rs[1..]) == prefix + Rows(rs)
  {
    assert [CsvRow(Fields(rs[0]))] + Rows(rs[1..]) == Rows(rs);
  }

  /** Writing a path twice leaves only the second write. */
  lemma OverwriteTwice(fs: Files, path: string, first: seq<Line>, second: seq<Line>)
    ensures fs[path := first][path := second] == fs[path := second]
  {
  }

  /** Logging onto an existing log appends one row per call, in call order, and touches nothing else. */
  lemma {:induction false} LogAllAppends(fs: Files, rs: seq<Interaction>)
    requires Valid(fs) && DataCsv in fs
    ensures LogAll(fs, rs) == fs[DataCsv := fs[DataCsv] + Rows(rs)]
    decreases |rs|
  {
    if rs == [] {
      assert fs[DataCsv] + Rows(rs) == fs[DataCsv];
      assert fs[DataCsv := fs[DataCsv]] == fs;
    } else {
      var fs1 := LogRow(fs, rs[0]);
      LogAllAppends(fs1, rs[1..]);
      RowsCons(fs[DataCsv], rs);
      OverwriteTwice(fs, DataCsv, fs1[DataCsv], fs[DataCsv] + Rows(rs));
    }
  }

  /**
   * N > 0 logging calls starting with no log leave exactly one header row
   * followed by the N records in call order, and touch no other file; no
   * call leaves no log.
   */
  lemma {:induction false} LogFromNothing(fs: Files, rs: seq<Interaction>)
    requires Valid(fs) && DataCsv !in fs
    ensures rs == [] ==> LogAll(fs, rs) == fs
    ensures rs != [] ==> LogAll(fs, rs) == fs[DataCsv := [CsvRow(Header)] + Rows(rs)]
  {
    if rs != [] {
      var fs1 := LogRow(fs, rs[0]);
      LogAllAppends(fs1, rs[1..]);
      RowsCons([CsvRow(Header)], rs);
      OverwriteTwice(fs, DataCsv, fs1[DataCsv], [CsvRow(Header)] + Rows(rs));
    }
  }

  // ---------------------------------------------------------------------------
  // The dataset formatter's effect on the files
  // ---------------------------------------------------------------------------

  /** What the formatter returns (a path or an error text) and the files it leaves. */
  datatype Formatted = Formatted(returned: string, files: Files)

  /**
   * The formatter: without a log it returns the missing-file text and writes
   * nothing; when a row raises it returns that error and writes nothing;
   * otherwise it overwrites the corpus with one line per example and returns
   * the corpus path.
   */
  function ReadCsv(fs: Files): (out: Formatted)
    requires Valid(fs)
    ensures Valid(out.files)
    ensures out.returned == TrainingJsonl || StartsWith(out.returned, "Error: ")
    ensures out.returned != TrainingJsonl ==> out.files == fs
    ensures DataCsv !in fs ==> out == Formatted(MissingCsv, fs)
    ensures DataCsv in fs && FormatTable(Table(fs[DataCsv])).Failure? ==>
              out == Formatted(ErrorText(FormatTable(Table(fs[DataCsv])).error), fs)
    ensures DataCsv in fs && FormatTable(Table(fs[DataCsv])).Success? ==> out.returned == TrainingJsonl
    ensures out.returned == TrainingJsonl ==>
              DataCsv in fs && FormatTable(Table(fs[DataCsv])).Success? &&
              out.files == fs[TrainingJsonl := Jsonl(FormatTable(Table(fs[DataCsv])).value)]
  {
    assert TrainingJsonl[0] == 't';
    if DataCsv !in fs then Formatted(MissingCsv, fs)
    else
      match FormatTable(Table(fs[DataCsv]))
      case Failure(e) => assert ErrorText(e)[0] == 'E'; Formatted(ErrorText(e), fs)
      case Success(exs) => Formatted(TrainingJsonl, fs[TrainingJsonl := Jsonl(exs)])
  }

  /** The conversations of a sequence of records. */
  function Conversations(rs: seq<Interaction>): (exs: seq<Example>)
    ensures |exs| == |rs|
  {
    seq(|rs|, i requires 0 <= i < |rs| => Conversation(rs[i].itr, rs[i].message, rs[i].hesitations))
  }

  /**
   * Logging N > 0 records into a fresh log and then formatting yields exactly
   * the N conversations, in call order, written as the corpus.
   */
  lemma LogThenFormat(fs: Files, rs: seq<Interaction>)
    requires Valid(fs) && DataCsv !in fs && rs != []
    ensures Valid(LogAll(fs, rs))
    ensures ReadCsv(LogAll(fs, rs)) == Formatted(TrainingJsonl, LogAll(fs, rs)[TrainingJsonl := Jsonl(Conversations(rs))])
  {
    LogFromNothing(fs, rs);
    var table := Table(LogAll(fs, rs)[DataCsv]);
    assert table[0] == Header;
    LoggedRowsFormat(table[1..], rs);
  }

  /** Rows holding the fields of the records format to exactly the records' conversations. */
  lemma LoggedRowsFormat(rows: seq<seq<string>>, rs: seq<Interaction>)
    requires |rows| == |rs| && forall i :: 0 <= i < |rs| ==> rows[i] == Fields(rs[i])
    ensures FormatRows(Header, rows) == Success(Conversations(rs))
  {
    AllFilled(rows);
    assert HasKeys(Header);
    FormatRowsOutcome(Header, rows);
    FormatRowsSpec(Header, rows);
    var exs := FormatRows(Header, rows).value;
    forall i | 0 <= i < |rs|
      ensures exs[i] == Conversations(rs)[i]
    {
      LoggedRowFormats(rs[i].itr, rs[i].message, rs[i].hesitations);
    }
    assert exs == Conversations(rs);
  }

  /** Rows with three fields each are all data rows. */
  lemma {:induction false} AllFilled(rows: seq<seq<string>>)
    requires forall i :: 0 <= i < |rows| ==> |rows[i]| == 3
    ensures DataRows(rows) == rows
  {
    if rows != [] {
      AllFilled(rows[1..]);
      assert rows == [rows[0]] + rows[1..];
    }
  }
}
