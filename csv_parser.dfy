/** Turning an uploaded CSV document into the ordered list of feedback
    strings (server/services/csvParser.ts). Field splitting, quoting, blank
    line skipping and cell trimming belong to the CSV library; this model
    starts from what the library returns. */
module CsvParser {
  import opened Wrappers
  import opened Text

  /** What the CSV library returns: the keys of the first record in order,
      and one map from header to cell per record; or the error it threw
      (`None` when the thrown value is not an `Error`). */
  datatype LibraryParse =
    | Records(headers: seq<string>, rows: seq<map<string, string>>)
    | LibraryError(message: Option<string>)

  /** The parser's result: failures carry only a message, never data. */
  datatype CsvParseResult =
    | Parsed(data: seq<string>, preview: seq<string>)
    | ParseFailed(error: string)

  const EmptyMessage := "CSV file is empty or invalid"
  const NoEntriesMessage := "No valid feedback entries found in the CSV file"
  const PreviewLength := 5

  /** A header names the feedback column when its lower-case form contains
      one of the four keywords. */
  predicate IsFeedbackHeader(header: string) {
    var h := Lower(header);
    Contains(h, "feedback") || Contains(h, "comment") || Contains(h, "review") || Contains(h, "message")
  }

  /** `headers.find(...)`: the position of the first feedback header at or after `from`. */
  function FindFeedbackColumnFrom(headers: seq<string>, from: nat): (r: Option<nat>)
    requires from <= |headers|
    ensures r.Some? ==> from <= r.value < |headers| && IsFeedbackHeader(headers[r.value])
    ensures r.Some? ==> forall j :: from <= j < r.value ==> !IsFeedbackHeader(headers[j])
    ensures r.None? ==> forall j :: from <= j < |headers| ==> !IsFeedbackHeader(headers[j])
    decreases |headers| - from
  {
    if from == |headers| then None
    else if IsFeedbackHeader(headers[from]) then Some(from)
    else FindFeedbackColumnFrom(headers, from + 1)
  }

  /** The chosen column is the first header, in key order, that names
      feedback; no earlier header does, and `None` means none does. */
  function FindFeedbackColumn(headers: seq<string>): (r: Option<nat>)
    ensures r.Some? ==> r.value < |headers| && IsFeedbackHeader(headers[r.value])
    ensures r.Some? ==> forall j :: 0 <= j < r.value ==> !IsFeedbackHeader(headers[j])
    ensures r.None? <==> forall j :: 0 <= j < |headers| ==> !IsFeedbackHeader(headers[j])
  {
    FindFeedbackColumnFrom(headers, 0)
  }

  /** The cell a record contributes: present and not blank, then trimmed. */
  predicate KeepsCell(row: map<string, string>, column: string) {
    column in row && Trim(row[column]) != ""
  }

  /** `records.map(r => r[col]).filter(non-blank string).map(trim)`. */
  function ExtractEntries(rows: seq<map<string, string>>, column: string): (r: seq<string>)
    ensures |r| <= |rows|
    ensures forall k :: 0 <= k < |r| ==> r[k] != "" && Trim(r[k]) == r[k]
  {
    if |rows| == 0 then []
    else
      var rest := ExtractEntries(rows[1..], column);
      if KeepsCell(rows[0], column) then
        TrimIdempotent(rows[0][column]);
        [Trim(rows[0][column])] + rest
      else rest
  }

  /** Extraction keeps record order: the entries of two runs of records are
      those of the first run followed by those of the second. */
  lemma {:induction false} ExtractEntriesAppend(a: seq<map<string, string>>, b: seq<map<string, string>>, column: string)
    ensures ExtractEntries(a + b, column) == ExtractEntries(a, column) + ExtractEntries(b, column)
    decreases |a|
  {
    if |a| > 0 {
      assert (a + b)[1..] == a[1..] + b;
      ExtractEntriesAppend(a[1..], b, column);
    } else {
      assert a + b == b;
    }
  }

  /** One record contributes exactly its trimmed cell, when that is not blank. */
  lemma ExtractEntriesSingle(row: map<string, string>, column: string)
    ensures ExtractEntries([row], column) ==
            if KeepsCell(row, column) then [Trim(row[column])] else []
  {
    assert [row][1..] == [];
  }

  function NoColumnMessage(headers: seq<string>): string {
    "CSV must contain a 'feedback' column. Found columns: " + Join(headers, ", ")
  }

  /** `parseCSVContent` after the library parse. */
  function ParseCsvContent(parse: LibraryParse): (r: CsvParseResult)
    // the library's own failure
    ensures parse.LibraryError? ==>
      r == ParseFailed("Failed to parse CSV: " +
                       (if parse.message.Some? then parse.message.value else "Invalid CSV format"))
    // zero records
    ensures parse.Records? && |parse.rows| == 0 ==> r == ParseFailed(EmptyMessage)
    // no header names feedback: the message lists every header
    ensures parse.Records? && |parse.rows| > 0 &&
            (forall j :: 0 <= j < |parse.headers| ==> !IsFeedbackHeader(parse.headers[j])) ==>
      r == ParseFailed(NoColumnMessage(parse.headers))
    // a column is chosen: success exactly when it yields some entry
    ensures parse.Records? && |parse.rows| > 0 && FindFeedbackColumn(parse.headers).Some? ==>
      var column := parse.headers[FindFeedbackColumn(parse.headers).value];
      var entries := ExtractEntries(parse.rows, column);
      r == if entries == [] then ParseFailed(NoEntriesMessage) else Parsed(entries, entries[..Min(PreviewLength, |entries|)])
    // what a success promises on its own
    ensures r.Parsed? ==>
      && parse.Records?
      && 0 < |r.data| <= |parse.rows|
      && (forall k :: 0 <= k < |r.data| ==> r.data[k] != "" && Trim(r.data[k]) == r.data[k])
      && |r.preview| == Min(PreviewLength, |r.data|)
      && IsPrefixOf(r.preview, r.data)
  {
    match parse
    case LibraryError(message) =>
      ParseFailed("Failed to parse CSV: " + (if message.Some? then message.value else "Invalid CSV format"))
    case Records(headers, rows) =>
      if |rows| == 0 then ParseFailed(EmptyMessage)
      else
        var found := FindFeedbackColumn(headers);
        // `find` yields the header itself; a feedback header is never the
        // falsy empty string, so `!feedbackColumn` is exactly "none found"
        if found.None? then ParseFailed(NoColumnMessage(headers))
        else
          var entries := ExtractEntries(rows, headers[found.value]);
          if |entries| == 0 then ParseFailed(NoEntriesMessage)
          else Parsed(entries, entries[..Min(PreviewLength, |entries|)])
  }

  predicate IsPrefixOf<T(==)>(p: seq<T>, s: seq<T>) {
    |p| <= |s| && s[..|p|] == p
  }
}
