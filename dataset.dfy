/**
 * The dataset formatter's pure part: how `csv.DictReader` turns the rows of
 * the interaction log into records, and how each record becomes one
 * role-tagged training example of three messages.
 */
module Dataset {
  import opened Basics

  datatype Role = System | User | Assistant

  datatype Message = Message(role: Role, content: string)

  /** One line of the training corpus: `{"messages": [...]}`. */
  datatype Example = Example(messages: seq<Message>)

  /** Reading a row either yields a value or raises; the error is `str(e)`. */
  datatype Result<+T> = Success(value: T) | Failure(error: string)

  /** The conversation built from one record's three field texts. */
  function Conversation(itr: string, message: string, hesitations: string): Example {
    Example([
      Message(System, "itr: " + itr),
      Message(User, "message: " + message),
      Message(Assistant, "hesitations: " + hesitations)
    ])
  }

  /** `str()` of a field value: a field missing from a short row reads as `None`. */
  function Render(v: Option<string>): string {
    if v.Some? then v.value else "None"
  }

  /** `str(KeyError(key))` is the repr of the key. */
  function KeyErrorText(key: string): string {
    "'" + key + "'"
  }

  /** The position of the last occurrence of `key` in the header, or -1. */
  function LastIndex(header: seq<string>, key: string): (i: int)
    ensures -1 <= i < |header|
    ensures i < 0 <==> key !in header
    ensures 0 <= i ==> header[i] == key && forall j :: i < j < |header| ==> header[j] != key
  {
    if header == [] then -1
    else if header[|header| - 1] == key then |header| - 1
    else
      assert header == header[..|header| - 1] + [header[|header| - 1]];
      LastIndex(header[..|header| - 1], key)
  }

  /**
   * `row[key]` on the dictionary DictReader builds from `header` and a row:
   * the field under the key's last occurrence in the header, None when the
   * row is too short to have it, and a KeyError when the header lacks the key.
   */
  function Lookup(header: seq<string>, row: seq<string>, key: string): (r: Result<Option<string>>)
    ensures r.Failure? <==> key !in header
    ensures r.Failure? ==> r.error == KeyErrorText(key)
  {
    var i := LastIndex(header, key);
    if i < 0 then Failure(KeyErrorText(key))
    else if i < |row| then Success(Some(row[i]))
    else Success(None)
  }

  /**
   * A key the header holds reads the row's field under the key's last
   * occurrence in the header, or None when the row is too short to have it.
   */
  lemma LookupReads(header: seq<string>, row: seq<string>, key: string)
    requires key in header
    ensures var i := LastIndex(header, key);
            && (i < |row| ==> Lookup(header, row, key) == Success(Some(row[i])))
            && (i >= |row| ==> Lookup(header, row, key) == Success(None))
  {
  }

  /** The header names all three fields the formatter reads. */
  predicate HasKeys(header: seq<string>) {
    "itr" in header && "message" in header && "hesitations" in header
  }

  /** The KeyError raised first when the header lacks a key: the keys are read in the order itr, message, hesitations. */
  function MissingKeyError(header: seq<string>): string {
    if "itr" !in header then KeyErrorText("itr")
    else if "message" !in header then KeyErrorText("message")
    else KeyErrorText("hesitations")
  }

  /** The conversation for one data row. */
  function FormatRow(header: seq<string>, row: seq<string>): (r: Result<Example>)
    ensures r.Success? <==> HasKeys(header)
    ensures r.Failure? ==> r.error == MissingKeyError(header)
  {
    match Lookup(header, row, "itr")
    case Failure(e) => Failure(e)
    case Success(itr) =>
      match Lookup(header, row, "message")
      case Failure(e) => Failure(e)
      case Success(message) =>
        match Lookup(header, row, "hesitations")
        case Failure(e) => Failure(e)
        case Success(hesitations) => Success(Conversation(Render(itr), Render(message), Render(hesitations)))
  }

  /**
   * A record that formats gives exactly three messages, in the order system,
   * user, assistant, with contents "itr: ", "message: " and "hesitations: "
   * followed by the text read for that key.
   */
  lemma FormatRowShape(header: seq<string>, row: seq<string>)
    requires HasKeys(header)
    ensures var ex := FormatRow(header, row).value;
            && |ex.messages| == 3
            && ex.messages[0] == Message(System, "itr: " + Render(Lookup(header, row, "itr").value))
            && ex.messages[1] == Message(User, "message: " + Render(Lookup(header, row, "message").value))
            && ex.messages[2] == Message(Assistant, "hesitations: " + Render(Lookup(header, row, "hesitations").value))
  {
  }

  /** The rows DictReader yields after the header: blank rows are skipped. */
  function DataRows(rows: seq<seq<string>>): (d: seq<seq<string>>)
    ensures |d| <= |rows|
    ensures [] !in d
    ensures forall r :: r in d <==> r in rows && r != []
  {
    if rows == [] then []
    else (if rows[0] == [] then [] else [rows[0]]) + DataRows(rows[1..])
  }

  /** The examples for the data rows, in file order; the first failing row's error otherwise. */
  function FormatRows(header: seq<string>, rows: seq<seq<string>>): Result<seq<Example>>
    decreases |rows|
  {
    if rows == [] then Success([])
    else if rows[0] == [] then FormatRows(header, rows[1..])
    else
      match FormatRow(header, rows[0])
      case Failure(e) => Failure(e)
      case Success(ex) =>
        match FormatRows(header, rows[1..])
        case Failure(e) => Failure(e)
        case Success(rest) => Success([ex] + rest)
  }

  /** The whole table: its first row is the header (DictReader's fieldnames). */
  function FormatTable(table: seq<seq<string>>): Result<seq<Example>> {
    if table == [] then Success([]) else FormatRows(table[0], table[1..])
  }

  /** A result with `prefix` put in front of its examples. */
  function Prepend(prefix: seq<Example>, r: Result<seq<Example>>): Result<seq<Example>> {
    match r
    case Success(rest) => Success(prefix + rest)
    case Failure(e) => Failure(e)
  }

  /** One step of the read loop, in terms of the examples gathered so far. */
  lemma PrependStep(prefix: seq<Example>, header: seq<string>, rows: seq<seq<string>>)
    requires rows != []
    ensures rows[0] == [] ==> Prepend(prefix, FormatRows(header, rows)) == Prepend(prefix, FormatRows(header, rows[1..]))
    ensures rows[0] != [] && FormatRow(header, rows[0]).Failure? ==>
              Prepend(prefix, FormatRows(header, rows)) == Failure(FormatRow(header, rows[0]).error)
    ensures rows[0] != [] && FormatRow(header, rows[0]).Success? ==>
              Prepend(prefix, FormatRows(header, rows)) == Prepend(prefix + [FormatRow(header, rows[0]).value], FormatRows(header, rows[1..]))
  {
    if rows[0] != [] && FormatRow(header, rows[0]).Success? {
      match FormatRows(header, rows[1..]) {
        case Success(rest) =>
          assert prefix + ([FormatRow(header, rows[0]).value] + rest) == (prefix + [FormatRow(header, rows[0]).value]) + rest;
        case Failure(_) =>
      }
    }
  }

  /**
   * The read loop of the formatter: `for row in reader`, appending one
   * conversation per row to `formatted`, and stopping at the first row that
   * raises.
   */
  method FormatRecords(table: seq<seq<string>>) returns (r: Result<seq<Example>>)
    ensures r == FormatTable(table)
  {
    if table == [] {
      return Success([]);
    }
    var header := table[0];
    var formatted: seq<Example> := [];
    var i := 1;
    match FormatRows(header, table[1..]) {
      case Success(rest) => assert formatted + rest == rest;
      case Failure(_) =>
    }
    while i < |table|
      invariant 1 <= i <= |table|
      invariant FormatTable(table) == Prepend(formatted, FormatRows(header, table[i..]))
    {
      var row := table[i];
      PrependStep(formatted, header, table[i..]);
      assert table[i..][0] == row && table[i..][1..] == table[i + 1..];
      if row != [] {
        var ex := FormatRow(header, row);
        if ex.Failure? {
          return Failure(ex.error);
        }
        formatted := formatted + [ex.value];
      }
      i := i + 1;
    }
    assert table[i..] == [] && formatted + [] == formatted;
    r := Success(formatted);
  }

  /**
   * The formatter fails exactly when there is a data row and the header
   * lacks one of the three keys, and then with that key's KeyError.
   */
  lemma {:induction false} FormatRowsOutcome(header: seq<string>, rows: seq<seq<string>>)
    ensures FormatRows(header, rows).Success? <==> (DataRows(rows) == [] || HasKeys(header))
    ensures FormatRows(header, rows).Failure? ==> FormatRows(header, rows).error == MissingKeyError(header)
    decreases |rows|
  {
    if rows != [] {
      FormatRowsOutcome(header, rows[1..]);
      assert DataRows(rows) == (if rows[0] == [] then [] else [rows[0]]) + DataRows(rows[1..]);
    }
  }

  /** On success the formatter yields exactly one example per data row, in file order, each the row's conversation. */
  lemma {:induction false} FormatRowsSpec(header: seq<string>, rows: seq<seq<string>>)
    requires FormatRows(header, rows).Success?
    ensures var exs := FormatRows(header, rows).value;
            |exs| == |DataRows(rows)| &&
            forall i :: 0 <= i < |exs| ==> FormatRow(header, DataRows(rows)[i]) == Success(exs[i])
    decreases |rows|
  {
    if rows == [] {
      return;
    }
    var rest := rows[1..];
    if rows[0] == [] {
      FormatRowsSpec(header, rest);
      assert DataRows(rows) == DataRows(rest);
    } else {
      assert FormatRow(header, rows[0]).Success? && FormatRows(header, rest).Success?;
      FormatRowsSpec(header, rest);
      var ex := FormatRow(header, rows[0]).value;
      var exs := FormatRows(header, rest).value;
      assert FormatRows(header, rows) == Success([ex] + exs);
      assert DataRows(rows) == [rows[0]] + DataRows(rest);
      ConsFormatted(header, rows[0], DataRows(rest), ex, exs);
    }
  }

  /** Putting a formatted row in front keeps every example the format of its row. */
  lemma ConsFormatted(header: seq<string>, row: seq<string>, data: seq<seq<string>>, ex: Example, exs: seq<Example>)
    requires FormatRow(header, row) == Success(ex)
    requires |exs| == |data| && forall i :: 0 <= i < |exs| ==> FormatRow(header, data[i]) == Success(exs[i])
    ensures forall i :: 0 <= i < |exs| + 1 ==> FormatRow(header, ([row] + data)[i]) == Success(([ex] + exs)[i])
  {
    forall i | 0 <= i < |exs| + 1
      ensures FormatRow(header, ([row] + data)[i]) == Success(([ex] + exs)[i])
    {
      if i > 0 {
        assert ([row] + data)[i] == data[i - 1] && ([ex] + exs)[i] == exs[i - 1];
      }
    }
  }

  /** A row with the logger's header and three fields formats to exactly its conversation. */
  lemma LoggedRowFormats(itr: string, message: string, hesitations: string)
    ensures FormatRow(["itr", "message", "hesitations"], [itr, message, hesitations])
         == Success(Conversation(itr, message, hesitations))
  {
    var header := ["itr", "message", "hesitations"];
    assert LastIndex(header, "itr") == 0;
    assert LastIndex(header, "message") == 1;
    assert LastIndex(header, "hesitations") == 2;
  }

  /** The worked example: the record (1, hello, none) becomes these three messages. */
  lemma WorkedExample()
    ensures FormatTable([["itr", "message", "hesitations"], ["1", "hello", "none"]])
         == Success([Example([Message(System, "itr: 1"), Message(User, "message: hello"), Message(Assistant, "hesitations: none")])])
  {
    LoggedRowFormats("1", "hello", "none");
    var table := [["itr", "message", "hesitations"], ["1", "hello", "none"]];
    var rows := [["1", "hello", "none"]];
    assert table[0] == ["itr", "message", "hesitations"] && table[1..] == rows;
    assert rows[1..] == [];
    assert rows[0] == ["1", "hello", "none"] && rows[0] != [];
    assert FormatRow(table[0], rows[0]) == Success(Conversation("1", "hello", "none"));
    assert FormatRows(table[0], rows[1..]) == Success([]);
    assert [Conversation("1", "hello", "none")] + [] == [Conversation("1", "hello", "none")];
    assert FormatRows(table[0], rows) == Success([Conversation("1", "hello", "none")]);
    assert "itr: " + "1" == "itr: 1";
    assert "message: " + "hello" == "message: hello";
    assert "hesitations: " + "none" == "hesitations: none";
  }
}
