/**
 * `parse_response`'s output side: every accumulated row becomes one record, a
 * JSON object keyed by the column names, in row order.
 */
module Records {
  import opened Wrappers
  import opened PyJson
  import opened Rows

  /** The record of a row: one key per column, null columns present as nulls. */
  function ToRecord(row: Row): (r: Json)
    ensures r.Obj? && "Feed" in r.fields && r.fields["Feed"] == Str(FeedName(row.feed))
    ensures "ID" in r.fields && r.fields["ID"] == row.id
  {
    Obj(map[
      "Feed" := Str(FeedName(row.feed)),
      "ID" := row.id,
      "Title" := row.title,
      "Description" := row.description,
      "thumbnailURI" := row.thumbnailUri,
      "typeID" := row.typeId,
      "revisionDate" := row.revisionDate,
      "deliveryMethodID" := row.deliveryMethodId,
      "deliveryMethodDesc" := row.deliveryMethodDesc,
      "totalLength" := row.totalLength,
      "creditHours" := row.creditHours,
      "cpeHours" := row.cpeHours,
      "active" := row.active,
      "subjectAreaID" := row.subjectAreaId,
      "subjectAreaDesc" := row.subjectAreaDesc])
  }

  function FeedOfName(name: string): Option<Feed> {
    if name == "courses" then Some(Courses)
    else if name == "curricula" then Some(Curricula)
    else if name == "programs" then Some(Programs)
    else None
  }

  predicate HasColumns(fields: map<string, Json>) {
    && "Feed" in fields && "ID" in fields && "Title" in fields && "Description" in fields
    && "thumbnailURI" in fields && "typeID" in fields && "revisionDate" in fields
    && "deliveryMethodID" in fields && "deliveryMethodDesc" in fields && "totalLength" in fields
    && "creditHours" in fields && "cpeHours" in fields && "active" in fields
    && "subjectAreaID" in fields && "subjectAreaDesc" in fields
  }

  /** Reads a record back into a row, for a downstream consumer. */
  function FromRecord(record: Json): Option<Row> {
    if !record.Obj? || !HasColumns(record.fields) || !record.fields["Feed"].Str? then None
    else
      var f := record.fields;
      match FeedOfName(f["Feed"].s)
      case None => None
      case Some(feed) =>
        Some(Row(feed, f["ID"], f["Title"], f["Description"], f["thumbnailURI"], f["typeID"],
                 f["revisionDate"], f["deliveryMethodID"], f["deliveryMethodDesc"], f["totalLength"],
                 f["creditHours"], f["cpeHours"], f["active"], f["subjectAreaID"], f["subjectAreaDesc"]))
  }

  /** The `Feed` column names its feed unambiguously. */
  lemma FeedNameRoundTrip(feed: Feed)
    ensures FeedOfName(FeedName(feed)) == Some(feed)
  {
  }

  /** A record carries every column, the feed's name in `Feed`. */
  lemma RecordColumns(row: Row)
    ensures HasColumns(ToRecord(row).fields)
    ensures ToRecord(row).fields["Feed"] == Str(FeedName(row.feed))
  {
    LeadingColumns(row);
    TrailingColumns(row);
  }

  lemma LeadingColumns(row: Row)
    ensures var f := ToRecord(row).fields;
            && "Feed" in f && "ID" in f && "Title" in f && "Description" in f
            && "thumbnailURI" in f && "typeID" in f && "revisionDate" in f
  {
  }

  lemma TrailingColumns(row: Row)
    ensures var f := ToRecord(row).fields;
            && "deliveryMethodID" in f && "deliveryMethodDesc" in f && "totalLength" in f
            && "creditHours" in f && "cpeHours" in f && "active" in f
            && "subjectAreaID" in f && "subjectAreaDesc" in f
  {
  }

  /** A record keeps every column of its row, nulls included. */
  lemma RecordRoundTrip(row: Row)
    ensures FromRecord(ToRecord(row)) == Some(row)
  {
    RecordColumns(row);
    FeedNameRoundTrip(row.feed);
  }

  /** One record per row, in row order. */
  function Emit(rows: seq<Row>): (records: seq<Json>)
    ensures |records| == |rows|
  {
    seq(|rows|, i requires 0 <= i < |rows| => ToRecord(rows[i]))
  }

  /** Emission loses nothing: the i-th record reads back as the i-th row. */
  lemma EmitIsLossless(rows: seq<Row>)
    ensures forall i :: 0 <= i < |rows| ==> FromRecord(Emit(rows)[i]) == Some(rows[i])
  {
    forall i | 0 <= i < |rows|
      ensures FromRecord(Emit(rows)[i]) == Some(rows[i])
    {
      RecordRoundTrip(rows[i]);
    }
  }

  /** Emitting more rows after some keeps the earlier records, in front and unchanged. */
  lemma EmitAppend(a: seq<Row>, b: seq<Row>)
    ensures Emit(a + b) == Emit(a) + Emit(b)
  {
    assert forall i :: 0 <= i < |a| + |b| ==> Emit(a + b)[i] == (Emit(a) + Emit(b))[i];
  }
}
