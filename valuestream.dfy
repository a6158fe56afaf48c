/**
 * The decision logic of the `generate_csv` tool: cut the JSON array out of
 * the text an agent hands over (first '[' through last ']'), parse it with
 * one fallback to the whole text, then decide between a table, the
 * "No valid data provided" notice and the two error replies.
 *
 * `json.loads` is an abstract total parser `string -> Option<Json>`
 * (`None` is a JSONDecodeError); file and directory writes are not modelled.
 */
module Valuestream {
  import opened Wrappers

  /** The values `json.loads` produces; numbers keep only an integer value. */
  datatype Json =
    | JNull
    | JBool(b: bool)
    | JNumber(n: int)
    | JString(s: string)
    | JArray(items: seq<Json>)
    | JObject(fields: map<string, Json>)

  // ---------------------------------------------------------------------
  // Bracket extraction: `find('[')`, `rfind(']')` and the slice
  // ---------------------------------------------------------------------

  /** `s.find(c)`: the first index of `c`, or -1. */
  function Find(s: string, c: char): (r: int)
    ensures -1 <= r < |s|
    ensures r == -1 <==> c !in s
    ensures r >= 0 ==> s[r] == c && c !in s[..r]
  {
    if s == [] then -1
    else if s[0] == c then 0
    else
      var k := Find(s[1..], c);
      assert s[1..][..k + 1] == s[1..k + 2];
      if k == -1 then -1 else k + 1
  }

  /** `s.rfind(c)`: the last index of `c`, or -1. */
  function RFind(s: string, c: char): (r: int)
    ensures -1 <= r < |s|
    ensures r == -1 <==> c !in s
    ensures r >= 0 ==> s[r] == c && c !in s[r + 1..]
  {
    if s == [] then -1
    else if s[|s| - 1] == c then |s| - 1
    else
      var k := RFind(s[..|s| - 1], c);
      assert k >= 0 ==> s[..|s| - 1][k + 1..] + [s[|s| - 1]] == s[k + 1..];
      k
  }

  /** The cleaned JSON: the slice from the first '[' through the last ']', when that is not empty. */
  function Cleaned(s: string): (r: Option<string>)
    ensures r.Some? <==> exists i, j :: 0 <= i < j < |s| && s[i] == '[' && s[j] == ']'
  {
    var startIdx := Find(s, '[');
    var endIdx := RFind(s, ']') + 1;
    if startIdx >= 0 && endIdx > startIdx then
      Some(s[startIdx..endIdx])
    else
      None
  }

  /** The cleaned JSON is the contiguous span from the first '[' to the last ']', both included. */
  lemma CleanedIsBracketSpan(s: string)
    requires Cleaned(s).Some?
    ensures var c := Cleaned(s).value;
      && 0 < |c| <= |s|
      && c[0] == '[' && c[|c| - 1] == ']'
      && c == s[Find(s, '[')..Find(s, '[') + |c|]
      && '[' !in s[..Find(s, '[')]
      && ']' !in s[Find(s, '[') + |c|..]
  {
  }

  /**
   * The whole text is parsed unchanged when it has no '[', no ']', or
   * its last ']' comes before its first '['.
   */
  lemma NoCleanedCases(s: string)
    ensures Cleaned(s).None? <==> '[' !in s || ']' !in s || RFind(s, ']') < Find(s, '[')
  {
  }

  // ---------------------------------------------------------------------
  // Parsing with one fallback to the original text
  // ---------------------------------------------------------------------

  /** The strings handed to `json.loads`, in order, and what the last of them parsed to. */
  datatype Decoded = Decoded(attempts: seq<string>, data: Option<Json>)

  function Decode(s: string, parse: string -> Option<Json>): (r: Decoded)
    ensures 1 <= |r.attempts| <= 2
    ensures r.data == parse(r.attempts[|r.attempts| - 1])
  {
    match Cleaned(s)
    case Some(cleaned) =>
      if parse(cleaned).Some? then Decoded([cleaned], parse(cleaned))
      else Decoded([cleaned, s], parse(s))
    case None => Decoded([s], parse(s))
  }

  /**
   * The cleaned span is parsed first when there is one; only if that fails
   * is the original text parsed, once, with no further trimming.
   */
  lemma DecodeFallback(s: string, parse: string -> Option<Json>)
    ensures var r := Decode(s, parse);
      && (Cleaned(s).None? ==> r.attempts == [s])
      && (Cleaned(s).Some? && parse(Cleaned(s).value).Some? ==> r.attempts == [Cleaned(s).value])
      && (Cleaned(s).Some? && parse(Cleaned(s).value).None? ==> r.attempts == [Cleaned(s).value, s])
      && (r.data.None? ==> r.attempts[|r.attempts| - 1] == s && parse(s).None?)
  {
  }

  // ---------------------------------------------------------------------
  // The CSV decision (the `with open(csv_file_path)` block) and the replies
  // ---------------------------------------------------------------------

  /** Python truthiness of a parsed value. */
  predicate Truthy(j: Json) {
    match j
    case JNull => false
    case JBool(b) => b
    case JNumber(n) => n != 0
    case JString(s) => s != ""
    case JArray(items) => items != []
    case JObject(fields) => fields != map[]
  }

  /** The exceptions raised while writing the table, which end in "Error generating CSV: ...". */
  datatype RuntimeError =
    | NoLength      // TypeError: len() of a boolean or a number
    | NoIntegerKey  // KeyError: an object indexed with 0
    | NoKeys        // AttributeError: `.keys()` on something that is not an object
    | ExtraFields   // ValueError: a row holds a field missing from the header

  /** What is written to the CSV file: a table, or the notice text with no header. */
  datatype CsvFile = Table(fieldnames: set<string>, rows: seq<Json>) | Notice(text: string)

  datatype CsvResult = Saved(file: CsvFile) | JsonDecodeFailed | Failed(error: RuntimeError)

  const NoDataNotice: string := "No valid data provided"
  const ErrorLogFile: string := "./output/errors/json_error.log"

  /** The rows' first failure under `writerows` with header `fieldnames`, if any. */
  function RowsError(rows: seq<Json>, fieldnames: set<string>): (r: Option<RuntimeError>)
    ensures r.None? <==> forall i :: 0 <= i < |rows| ==> rows[i].JObject? && rows[i].fields.Keys <= fieldnames
  {
    if rows == [] then None
    else if !rows[0].JObject? then Some(NoKeys)
    else if !(rows[0].fields.Keys <= fieldnames) then Some(ExtraFields)
    else
      var rest := RowsError(rows[1..], fieldnames);
      assert forall i :: 1 <= i < |rows| ==> rows[i] == rows[1..][i - 1];
      rest
  }

  /** The `with open(...)` block: a header from the first row's keys, or the notice for empty data. */
  function WriteTable(data: Json): (r: Result<CsvFile, RuntimeError>)
    ensures (r.Ok? && r.value.Notice?) <==> !Truthy(data)
    ensures r.Ok? && r.value.Notice? ==> r.value.text == NoDataNotice
    ensures (r.Ok? && r.value.Table?) <==>
      && data.JArray? && |data.items| > 0 && data.items[0].JObject?
      && forall i :: 0 <= i < |data.items| ==>
           data.items[i].JObject? && data.items[i].fields.Keys <= data.items[0].fields.Keys
    ensures r.Ok? && r.value.Table? ==>
      r.value.rows == data.items && r.value.fieldnames == data.items[0].fields.Keys
    ensures Truthy(data) && (data.JBool? || data.JNumber?) ==> r == Err(NoLength)
    ensures Truthy(data) && data.JObject? ==> r == Err(NoIntegerKey)
    ensures Truthy(data) && data.JString? ==> r == Err(NoKeys)
    ensures Truthy(data) && data.JArray? && !data.items[0].JObject? ==> r == Err(NoKeys)
  {
    if !Truthy(data) then Ok(Notice(NoDataNotice))
    else
      match data
      case JArray(items) =>
        (match items[0]
         case JObject(header) =>
           var e := RowsError(items, header.Keys);
           if e.Some? then Err(e.value) else Ok(Table(header.Keys, items))
         case _ => Err(NoKeys))
      case JObject(_) => Err(NoIntegerKey)
      case JString(_) => Err(NoKeys)
      case _ => Err(NoLength)
  }

  /** The outcome of `generate_csv`: an error only when the last parse fails or writing the table raises. */
  function GenerateCsv(s: string, parse: string -> Option<Json>): (r: CsvResult)
    ensures r.JsonDecodeFailed? <==> Decode(s, parse).data.None?
    ensures r.Saved? <==> Decode(s, parse).data.Some? && WriteTable(Decode(s, parse).data.value).Ok?
  {
    match Decode(s, parse).data
    case None => JsonDecodeFailed
    case Some(data) =>
      match WriteTable(data)
      case Ok(file) => Saved(file)
      case Err(e) => Failed(e)
  }

  /** The string the tool returns: the CSV's absolute path, or an error message (on the modelled paths it returns a string). */
  function ToolReply(r: CsvResult, absPath: string, describe: RuntimeError -> string): (reply: string)
    ensures r.Saved? ==> reply == absPath
    ensures r.JsonDecodeFailed? ==> "Error parsing JSON data" <= reply
    ensures r.Failed? ==> "Error generating CSV: " <= reply
  {
    match r
    case Saved(_) => absPath
    case JsonDecodeFailed => "Error parsing JSON data. Details saved to " + ErrorLogFile
    case Failed(e) => "Error generating CSV: " + describe(e)
  }

  /** The notice, and no header, is written exactly when the parsed data is empty or falsy. */
  lemma NoticeIffNoData(s: string, parse: string -> Option<Json>)
    ensures GenerateCsv(s, parse).Saved? && GenerateCsv(s, parse).file.Notice?
      <==> Decode(s, parse).data.Some? && !Truthy(Decode(s, parse).data.value)
    ensures GenerateCsv(s, parse).Saved? && GenerateCsv(s, parse).file.Notice?
      ==> GenerateCsv(s, parse).file.text == NoDataNotice
  {
  }

  /**
   * A table is written exactly when the data is a non-empty array of
   * objects whose fields all belong to the first object's fields, which
   * form the header.
   */
  lemma TableIffRowsFit(s: string, parse: string -> Option<Json>)
    ensures var r := GenerateCsv(s, parse);
      var data := Decode(s, parse).data;
      r.Saved? && r.file.Table? <==>
        && data.Some? && data.value.JArray? && |data.value.items| > 0
        && data.value.items[0].JObject?
        && forall i :: 0 <= i < |data.value.items| ==>
             data.value.items[i].JObject? && data.value.items[i].fields.Keys <= data.value.items[0].fields.Keys
    ensures var r := GenerateCsv(s, parse);
      r.Saved? && r.file.Table? ==>
        r.file.rows == Decode(s, parse).data.value.items
        && r.file.fieldnames == Decode(s, parse).data.value.items[0].fields.Keys
  {
  }

  /** The parse error reply comes exactly when the last parse attempt fails. */
  lemma ParseErrorIffLastAttemptFails(s: string, parse: string -> Option<Json>)
    ensures var d := Decode(s, parse);
      GenerateCsv(s, parse).JsonDecodeFailed? <==> parse(d.attempts[|d.attempts| - 1]).None?
  {
  }

  /** That reply names the log file the error details go to. */
  lemma ParseErrorReply(absPath: string, describe: RuntimeError -> string)
    ensures ToolReply(JsonDecodeFailed, absPath, describe)
         == "Error parsing JSON data. Details saved to ./output/errors/json_error.log"
  {
  }

}
