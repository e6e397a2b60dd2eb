/** The CSV import form: the file it holds, the messages it shows, and the
    table of per-row validation errors it renders after a rejected upload. */
module CsvImport {
  import opened Strings
  import opened Validation

  /** A chosen file; only its name matters to the form. */
  datatype FileInfo = FileInfo(name: string)

  /** One entry of the response's `invalidRows`: the 1-based row and the
      formatted issues of that row. */
  datatype ImportError = ImportError(row: int, errors: seq<FieldErrors>)

  /** What the upload request ends in: a success with the stored count, a
      failure whose body has `invalidRows` and/or `error`, or an exception
      with its message (a network error or an unreadable body). */
  datatype UploadOutcome =
    | Imported(count: int)
    | Rejected(invalidRows: Option<seq<ImportError>>, error: Option<string>)
    | Threw(message: string)

  const CsvOnlyMessage := "Please select a CSV file."
  const NoFileMessage := "Please select a file to upload."

  function FoundErrorsMessage(n: nat): string {
    "Found errors in " + NatToString(n) + " rows."
  }

  function SuccessMessage(count: int): string {
    "Successfully imported " + IntToString(count) + " buyers."
  }

  /** The number in "Found errors in N rows." reads back as N, for any
      array length. */
  lemma FoundErrorsMessageCount(n: nat)
    requires n <= MaxSafeInteger
    ensures var m := FoundErrorsMessage(n);
      |m| > 22 && ParseInt(m[16..|m| - 6]) == IntVal(n)
  {
    var m := FoundErrorsMessage(n);
    assert m[16..|m| - 6] == NatToString(n);
    ParseIntToString(n);
  }

  /** The error a rejected upload without `invalidRows` shows: the server's
      error when it is truthy, a fixed text otherwise. */
  function RejectedMessage(error: Option<string>): string {
    if IsSet(error) then error.value else "Failed to import file"
  }

  class CsvImportForm {
    var isUploading: bool
    var file: Option<FileInfo>
    var error: Option<string>
    var success: Option<string>
    var validationErrors: seq<ImportError>

    constructor ()
      ensures !isUploading && file.None? && error.None? && success.None? && validationErrors == []
    {
      isUploading := false;
      file := None;
      error := None;
      success := None;
      validationErrors := [];
    }

    /** `handleFileChange`. No file changes nothing; a file whose name does
      not end in ".csv" only sets the error; a CSV file is kept and clears
      every message. */
    method HandleFileChange(selected: Option<FileInfo>)
      modifies this
      ensures isUploading == old(isUploading)
      ensures selected.None? ==>
        file == old(file) && error == old(error) && success == old(success) && validationErrors == old(validationErrors)
      ensures selected.Some? && !EndsWith(selected.value.name, ".csv") ==>
        file == old(file) && error == Some(CsvOnlyMessage) && success == old(success) &&
        validationErrors == old(validationErrors)
      ensures selected.Some? && EndsWith(selected.value.name, ".csv") ==>
        file == selected && error.None? && success.None? && validationErrors == []
    {
      if selected.None? {
        return;
      }
      var f := selected.value;
      if !EndsWith(f.name, ".csv") {
        error := Some(CsvOnlyMessage);
        return;
      }
      file := selected;
      error := None;
      success := None;
      validationErrors := [];
    }

    /** `handleSubmit`. Without a file it only sets the error and sends
      nothing. Otherwise the upload's `outcome` decides: a success shows the
      count and forgets the file; a rejection with `invalidRows` lists them
      and counts them in the error; any other failure shows its message. */
    method HandleSubmit(outcome: UploadOutcome) returns (sent: bool)
      modifies this
      ensures sent <==> old(file).Some?
      ensures !sent ==>
        error == Some(NoFileMessage) && file == old(file) && success == old(success) &&
        validationErrors == old(validationErrors) && isUploading == old(isUploading)
      ensures sent ==> !isUploading
      ensures sent && outcome.Imported? ==>
        success == Some(SuccessMessage(outcome.count)) && file.None? && error.None? && validationErrors == []
      ensures sent && outcome.Rejected? && outcome.invalidRows.Some? ==>
        validationErrors == outcome.invalidRows.value &&
        error == Some(FoundErrorsMessage(|outcome.invalidRows.value|)) && success.None? && file == old(file)
      ensures sent && outcome.Rejected? && outcome.invalidRows.None? ==>
        error == Some(RejectedMessage(outcome.error)) && success.None? && validationErrors == [] && file == old(file)
      ensures sent && outcome.Threw? ==>
        error == Some(outcome.message) && success.None? && validationErrors == [] && file == old(file)
    {
      if file.None? {
        error := Some(NoFileMessage);
        return false;
      }
      sent := true;
      isUploading := true;
      error := None;
      success := None;
      validationErrors := [];
      match outcome {
        case Imported(count) =>
          success := Some(SuccessMessage(count));
          file := None;
        case Rejected(invalidRows, err) =>
          if invalidRows.Some? {
            validationErrors := invalidRows.value;
            error := Some(FoundErrorsMessage(|invalidRows.value|));
          } else {
            error := Some(RejectedMessage(err));
          }
        case Threw(message) =>
          error := Some(message);
      }
      isUploading := false;
    }
  }

  // ------------------------------------------------------- error table

  /** One line of the error table. */
  datatype TableRow = TableRow(row: int, field: string, message: string)

  /** The lines of one row's issues: each message of each field except the
      top-level `_errors`, fields in order and messages in order. */
  function FieldRows(row: int, entries: seq<FieldErrors>): seq<TableRow>
    decreases |entries|
  {
    if |entries| == 0 then []
    else
      var e := entries[0];
      (if e.key == TopLevelKey then [] else seq(|e.messages|, i requires 0 <= i < |e.messages| => TableRow(row, e.key, e.messages[i])))
      + FieldRows(row, entries[1..])
  }

  /** The table: the lines of every rejected row, rows in order. */
  function ErrorTable(ves: seq<ImportError>): seq<TableRow>
    decreases |ves|
  {
    if |ves| == 0 then [] else FieldRows(ves[0].row, ves[0].errors) + ErrorTable(ves[1..])
  }

  /** A line of one row's table is a message the row has under a field
      other than `_errors`, and every such message has its line. */
  lemma {:induction false} FieldRowsMembers(row: int, entries: seq<FieldErrors>, t: TableRow)
    ensures t in FieldRows(row, entries) <==>
      t.row == row && t.field != TopLevelKey &&
      exists j :: 0 <= j < |entries| && entries[j].key == t.field && t.message in entries[j].messages
    decreases |entries|
  {
    if |entries| > 0 {
      FieldRowsMembers(row, entries[1..], t);
      var e := entries[0];
      var head := if e.key == TopLevelKey then [] else
        seq(|e.messages|, i requires 0 <= i < |e.messages| => TableRow(row, e.key, e.messages[i]));
      assert FieldRows(row, entries) == head + FieldRows(row, entries[1..]);
      assert t in head <==> t.row == row && e.key != TopLevelKey && e.key == t.field && t.message in e.messages by {
        if t.row == row && e.key != TopLevelKey && e.key == t.field && t.message in e.messages {
          var k :| 0 <= k < |e.messages| && e.messages[k] == t.message;
          assert head[k] == t;
        }
      }
      if exists j :: 0 <= j < |entries| && entries[j].key == t.field && t.message in entries[j].messages {
        var j :| 0 <= j < |entries| && entries[j].key == t.field && t.message in entries[j].messages;
        if j > 0 {
          assert entries[1..][j - 1] == entries[j];
        }
      }
      if exists j :: 0 <= j < |entries[1..]| && entries[1..][j].key == t.field && t.message in entries[1..][j].messages {
        var j :| 0 <= j < |entries[1..]| && entries[1..][j].key == t.field && t.message in entries[1..][j].messages;
        assert entries[j + 1] == entries[1..][j];
      }
    }
  }

  /** The table lists exactly the messages of the rejected rows' fields,
      never a top-level `_errors` message, each with its row and field. */
  lemma {:induction false} ErrorTableMembers(ves: seq<ImportError>, t: TableRow)
    ensures t in ErrorTable(ves) <==>
      t.field != TopLevelKey &&
      exists k, j :: 0 <= k < |ves| && 0 <= j < |ves[k].errors| && ves[k].row == t.row &&
        ves[k].errors[j].key == t.field && t.message in ves[k].errors[j].messages
    decreases |ves|
  {
    if |ves| > 0 {
      ErrorTableMembers(ves[1..], t);
      FieldRowsMembers(ves[0].row, ves[0].errors, t);
      if exists k, j :: 0 <= k < |ves| && 0 <= j < |ves[k].errors| && ves[k].row == t.row &&
          ves[k].errors[j].key == t.field && t.message in ves[k].errors[j].messages {
        var k, j :| 0 <= k < |ves| && 0 <= j < |ves[k].errors| && ves[k].row == t.row &&
          ves[k].errors[j].key == t.field && t.message in ves[k].errors[j].messages;
        if k > 0 {
          assert ves[1..][k - 1] == ves[k];
        }
      }
      if exists k, j :: 0 <= k < |ves[1..]| && 0 <= j < |ves[1..][k].errors| && ves[1..][k].row == t.row &&
          ves[1..][k].errors[j].key == t.field && t.message in ves[1..][k].errors[j].messages {
        var k, j :| 0 <= k < |ves[1..]| && 0 <= j < |ves[1..][k].errors| && ves[1..][k].row == t.row &&
          ves[1..][k].errors[j].key == t.field && t.message in ves[1..][k].errors[j].messages;
        assert ves[k + 1] == ves[1..][k];
      }
    }
  }

  /** The table keeps the order of the rows: the lines of earlier rows come
      first. */
  lemma {:induction false} ErrorTableAppend(a: seq<ImportError>, b: seq<ImportError>)
    ensures ErrorTable(a + b) == ErrorTable(a) + ErrorTable(b)
    decreases |a|
  {
    if |a| > 0 {
      assert (a + b)[1..] == a[1..] + b;
      ErrorTableAppend(a[1..], b);
    } else {
      assert a + b == b;
    }
  }
}
