/**
 * The `append_*_to_csv` functions of src/collect/collect.py as loops that
 * write one row per record to a CSV file opened for appending.  A file is the
 * sequence of rows it holds; writing only ever adds a row at its end.
 */
module Appenders {
  import opened Values
  import opened Records

  /** An output CSV file opened in append mode. */
  class CsvFile {
    var rows: seq<Row>

    constructor (initial: seq<Row>)
      ensures rows == initial
    {
      rows := initial;
    }

    /** `csvWriter.writerow(res)`. */
    method WriteRow(row: Row)
      modifies this
      ensures rows == old(rows) + [row]
    {
      rows := rows + [row];
    }
  }

  /** The records a loop runs over: `json_response['data']`. */
  function DataRecords(response: Json): Result<seq<Json>> {
    Items(response, "data")
  }

  /** `json_response['includes'][key]`, for the `users` and `places` loops. */
  function IncludedRecords(response: Json, key: string): (r: Result<seq<Json>>)
    ensures r.Ok? <==> Has(response, "includes") && Has(response.fields["includes"], key)
                       && Iterable(response.fields["includes"].fields[key])
  {
    var includes :- Field(response, "includes");
    Items(includes, key)
  }

  /**
   * What a whole `append_*_to_csv` call writes: nothing and the error when
   * the list of records cannot be read, else the loop's rows and its error.
   */
  function Appended(kind: RowKind, records: Result<seq<Json>>): (e: Extraction)
    ensures records.Err? ==> e == Extraction([], Some(records.error))
  {
    match records
    case Err(error) => Extraction([], Some(error))
    case Ok(list) => Extract(kind, list)
  }

  /**
   * The loop the four appenders share: each record in order is read into a
   * row by `read` (the `res = [...]` of each loop) and written, until a
   * record cannot be read.
   */
  method WriteRecords(read: Json -> Result<Row>, records: seq<Json>, file: CsvFile) returns (failure: Option<SchemaError>)
    modifies file
    ensures file.rows == old(file.rows) + Gather(Steps(read, records)).rows
    ensures failure == Gather(Steps(read, records)).failure
  {
    ghost var steps := Steps(read, records);
    failure := None;
    var i := 0;
    while i < |records|
      invariant 0 <= i <= |records|
      invariant file.rows == old(file.rows) + Gather(steps[..i]).rows
      invariant Gather(steps[..i]).failure.None?
      decreases |records| - i
    {
      var step := read(records[i]);
      if step.Err? {
        GatherStopsAt(steps, i);
        return Some(step.error);
      }
      GatherSnoc(steps[..i], step);
      TakeSnoc(steps, i);
      file.WriteRow(step.value);
      i := i + 1;
    }
    assert steps[..i] == steps;
  }

  method AppendRecords(kind: RowKind, records: Result<seq<Json>>, file: CsvFile) returns (failure: Option<SchemaError>)
    modifies file
    ensures file.rows == old(file.rows) + Appended(kind, records).rows
    ensures failure == Appended(kind, records).failure
  {
    match records {
      case Err(error) =>
        failure := Some(error);
      case Ok(list) =>
        failure := WriteRecords(RowReader(kind), list, file);
        ExtractGathers(kind, list);
    }
  }

  /** `append_news_to_csv(json_response, fileName)`. */
  method AppendNews(response: Json, file: CsvFile) returns (failure: Option<SchemaError>)
    modifies file
    ensures file.rows == old(file.rows) + Appended(NewsKind, DataRecords(response)).rows
    ensures failure == Appended(NewsKind, DataRecords(response)).failure
  {
    failure := AppendRecords(NewsKind, DataRecords(response), file);
  }

  /** `append_tweet_to_csv(json_response, news_account_id, fileName)`. */
  method AppendTweet(response: Json, accountId: string, file: CsvFile) returns (failure: Option<SchemaError>)
    modifies file
    ensures file.rows == old(file.rows) + Appended(TweetKind(accountId), DataRecords(response)).rows
    ensures failure == Appended(TweetKind(accountId), DataRecords(response)).failure
  {
    failure := AppendRecords(TweetKind(accountId), DataRecords(response), file);
  }

  /** `append_user_to_csv(json_response, fileName)`. */
  method AppendUser(response: Json, file: CsvFile) returns (failure: Option<SchemaError>)
    modifies file
    ensures file.rows == old(file.rows) + Appended(UserKind, IncludedRecords(response, "users")).rows
    ensures failure == Appended(UserKind, IncludedRecords(response, "users")).failure
  {
    failure := AppendRecords(UserKind, IncludedRecords(response, "users"), file);
  }

  /** `append_place_to_csv(json_response, fileName)`. */
  method AppendPlace(response: Json, file: CsvFile) returns (failure: Option<SchemaError>)
    modifies file
    ensures file.rows == old(file.rows) + Appended(PlaceKind, IncludedRecords(response, "places")).rows
    ensures failure == Appended(PlaceKind, IncludedRecords(response, "places")).failure
  {
    failure := AppendRecords(PlaceKind, IncludedRecords(response, "places"), file);
  }

  /**
   * A call writes one row per record when every record can be read, each of
   * the width of its kind, and finishes without error.
   */
  lemma AppendedAllReadable(kind: RowKind, list: seq<Json>)
    requires forall i | 0 <= i < |list| :: RowOf(kind, list[i]).Ok?
    ensures Appended(kind, Ok(list)).failure.None?
    ensures |Appended(kind, Ok(list)).rows| == |list|
    ensures forall i | 0 <= i < |list| :: Appended(kind, Ok(list)).rows[i] == RowOf(kind, list[i]).value
    ensures forall i | 0 <= i < |list| :: |Appended(kind, Ok(list)).rows[i]| == Width(kind)
  {
    ExtractAllReadable(kind, list);
    ExtractPrefix(kind, list);
    forall i | 0 <= i < |list|
      ensures |Appended(kind, Ok(list)).rows[i]| == Width(kind)
    {
      RowWidth(kind, list[i]);
    }
  }
}
