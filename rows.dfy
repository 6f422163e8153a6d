/**
 * The fixed 15-column row the catalog stream emits, the three builders that map
 * a course, curriculum or program item onto it, and the left-to-right loop that
 * turns a feed's items into rows until an item fails.
 */
module Rows {
  import opened Wrappers
  import opened PyJson

  datatype Feed = Courses | Curricula | Programs

  /** The text of the `Feed` column. */
  function FeedName(feed: Feed): string {
    match feed
    case Courses => "courses"
    case Curricula => "curricula"
    case Programs => "programs"
  }

  /** One row of the accumulated table; a missing value is `Null`. */
  datatype Row = Row(
    feed: Feed,
    id: Json,
    title: Json,
    description: Json,
    thumbnailUri: Json,
    typeId: Json,
    revisionDate: Json,
    deliveryMethodId: Json,
    deliveryMethodDesc: Json,
    totalLength: Json,
    creditHours: Json,
    cpeHours: Json,
    active: Json,
    subjectAreaId: Json,
    subjectAreaDesc: Json)

  /** The ten columns only a course fills are all null. */
  predicate CourseColumnsNull(row: Row) {
    && row.typeId == Null && row.revisionDate == Null
    && row.deliveryMethodId == Null && row.deliveryMethodDesc == Null
    && row.totalLength == Null && row.creditHours == Null && row.cpeHours == Null
    && row.active == Null && row.subjectAreaId == Null && row.subjectAreaDesc == Null
  }

  /** The feed tag decides which columns may be filled: only course rows use the other ten. */
  predicate Conforms(row: Row) {
    row.feed == Courses || CourseColumnsNull(row)
  }

  /** `dict.get`-like: the value under `key`, or null when the object lacks it. */
  function FieldOrNull(fields: map<string, Json>, key: string): Json {
    if key in fields then fields[key] else Null
  }

  /**
   * The subject area of a course: the id and description of the first entry of
   * its `SubjectAreasFeed`, each null when that entry lacks it, both null when
   * the list is empty.
   */
  function SubjectArea(course: Json): (r: Result<(Json, Json), PyError>)
    ensures !course.Obj? ==> r == Err(TypeError)
    ensures course.Obj? && "SubjectAreasFeed" !in course.fields ==> r == Err(KeyError)
    ensures course.Obj? && "SubjectAreasFeed" in course.fields && course.fields["SubjectAreasFeed"] == Arr([])
            ==> r == Ok((Null, Null))
  {
    var areas :- PyGetItem(course, "SubjectAreasFeed");
    var count :- PyLen(areas);
    if count == 0 then Ok((Null, Null))
    else
      var first :- PyFirst(areas);
      var hasId :- PyIn("subjectAreaID", first);
      var id :- if hasId then PyGetItem(first, "subjectAreaID") else Ok(Null);
      // `first` already answered an `in` test, so it is a container and this one cannot fail
      var hasDesc := PyIn("subjectAreaDesc", first).value;
      var desc :- if hasDesc then PyGetItem(first, "subjectAreaDesc") else Ok(Null);
      Ok((id, desc))
  }

  /** The keys a course item must have. */
  const CourseKeys: seq<string> :=
    ["SubjectAreasFeed", "componentID", "title", "description", "thumbnailURI", "componentTypeID",
     "revisionDate", "deliveryMethodID", "deliveryMethodDesc", "totalLength", "creditHours",
     "cpeHours", "active"]

  /** The course item has every key `CourseRow` reads. */
  predicate HasCourseKeys(fields: map<string, Json>) {
    && "SubjectAreasFeed" in fields && "componentID" in fields && "title" in fields
    && "description" in fields && "thumbnailURI" in fields && "componentTypeID" in fields
    && "revisionDate" in fields && "deliveryMethodID" in fields && "deliveryMethodDesc" in fields
    && "totalLength" in fields && "creditHours" in fields && "cpeHours" in fields && "active" in fields
  }

  /** The subject area of a course whose `SubjectAreasFeed` is a list whose first entry, if any, is an object. */
  lemma SubjectAreaOfList(fields: map<string, Json>, areas: seq<Json>)
    requires "SubjectAreasFeed" in fields && fields["SubjectAreasFeed"] == Arr(areas)
    requires areas != [] ==> areas[0].Obj?
    ensures SubjectArea(Obj(fields))
         == if areas == [] then Ok((Null, Null))
            else Ok((FieldOrNull(areas[0].fields, "subjectAreaID"), FieldOrNull(areas[0].fields, "subjectAreaDesc")))
  {
  }

  /** The row of a course item, fields read in the order the source reads them. */
  function CourseRow(course: Json): (r: Result<Row, PyError>)
    ensures r.Ok? ==> course.Obj? && HasCourseKeys(course.fields)
    ensures r.Ok? ==> r.value.feed == Courses && r.value.id == course.fields["componentID"]
                      && r.value.active == course.fields["active"]
  {
    var area :- SubjectArea(course);
    var id :- PyGetItem(course, "componentID");
    var title :- PyGetItem(course, "title");
    var description :- PyGetItem(course, "description");
    var thumbnail :- PyGetItem(course, "thumbnailURI");
    var typeId :- PyGetItem(course, "componentTypeID");
    var revision :- PyGetItem(course, "revisionDate");
    var methodId :- PyGetItem(course, "deliveryMethodID");
    var methodDesc :- PyGetItem(course, "deliveryMethodDesc");
    var length :- PyGetItem(course, "totalLength");
    var credit :- PyGetItem(course, "creditHours");
    var cpe :- PyGetItem(course, "cpeHours");
    var active :- PyGetItem(course, "active");
    Ok(Row(Courses, id, title, description, thumbnail, typeId, revision, methodId, methodDesc,
           length, credit, cpe, active, area.0, area.1))
  }

  /**
   * A course item with every key it needs and a list of subject areas whose
   * first entry (if any) is an object gives a course row that copies its twelve
   * fields and takes the subject area from the first entry, each part null
   * independently when missing, both null for an empty list.
   */
  lemma CourseRowOfCompleteItem(fields: map<string, Json>, areas: seq<Json>)
    requires HasCourseKeys(fields)
    requires fields["SubjectAreasFeed"] == Arr(areas)
    requires areas != [] ==> areas[0].Obj?
    ensures var r := CourseRow(Obj(fields));
            && r.Ok? && r.value.feed == Courses
            && r.value.id == fields["componentID"] && r.value.title == fields["title"]
            && r.value.description == fields["description"] && r.value.thumbnailUri == fields["thumbnailURI"]
            && r.value.typeId == fields["componentTypeID"] && r.value.revisionDate == fields["revisionDate"]
            && r.value.deliveryMethodId == fields["deliveryMethodID"]
            && r.value.deliveryMethodDesc == fields["deliveryMethodDesc"]
            && r.value.totalLength == fields["totalLength"] && r.value.creditHours == fields["creditHours"]
            && r.value.cpeHours == fields["cpeHours"] && r.value.active == fields["active"]
            && (areas == [] ==> r.value.subjectAreaId == Null && r.value.subjectAreaDesc == Null)
            && (areas != [] ==>
                  && r.value.subjectAreaId == FieldOrNull(areas[0].fields, "subjectAreaID")
                  && r.value.subjectAreaDesc == FieldOrNull(areas[0].fields, "subjectAreaDesc"))
  {
    SubjectAreaOfList(fields, areas);
  }

  /** A course item missing one of its keys fails with KeyError. */
  lemma CourseRowMissingKey(fields: map<string, Json>, key: string)
    requires key in CourseKeys && key !in fields
    ensures CourseRow(Obj(fields)) == Err(KeyError) || CourseRow(Obj(fields)) == Err(TypeError)
  {
  }

  /** The row of an item that fills only the five columns shared by all feeds. */
  function SummaryRow(feed: Feed, item: Json, idKey: string, titleKey: string): (r: Result<Row, PyError>)
    ensures r.Ok? <==> item.Obj? && idKey in item.fields && titleKey in item.fields
                       && "description" in item.fields && "thumbnailURI" in item.fields
    ensures r.Ok? ==> && r.value.feed == feed && CourseColumnsNull(r.value)
                      && r.value.id == item.fields[idKey] && r.value.title == item.fields[titleKey]
                      && r.value.description == item.fields["description"]
                      && r.value.thumbnailUri == item.fields["thumbnailURI"]
    ensures r.Err? ==> r.error == (if item.Obj? then KeyError else TypeError)
  {
    var id :- PyGetItem(item, idKey);
    var title :- PyGetItem(item, titleKey);
    var description :- PyGetItem(item, "description");
    var thumbnail :- PyGetItem(item, "thumbnailURI");
    Ok(Row(feed, id, title, description, thumbnail, Null, Null, Null, Null, Null, Null, Null, Null, Null, Null))
  }

  /** A curriculum row: ID and Title from `curriculumID` and `curriculumTitle`, the course columns null. */
  function CurriculumRow(item: Json): (r: Result<Row, PyError>)
    ensures r.Ok? <==> item.Obj? && "curriculumID" in item.fields && "curriculumTitle" in item.fields
                       && "description" in item.fields && "thumbnailURI" in item.fields
    ensures r.Ok? ==> && r.value.feed == Curricula && CourseColumnsNull(r.value)
                      && r.value.id == item.fields["curriculumID"] && r.value.title == item.fields["curriculumTitle"]
  {
    SummaryRow(Curricula, item, "curriculumID", "curriculumTitle")
  }

  /** A program row: ID and Title from `programID` and `programTitle`, the course columns null. */
  function ProgramRow(item: Json): (r: Result<Row, PyError>)
    ensures r.Ok? <==> item.Obj? && "programID" in item.fields && "programTitle" in item.fields
                       && "description" in item.fields && "thumbnailURI" in item.fields
    ensures r.Ok? ==> && r.value.feed == Programs && CourseColumnsNull(r.value)
                      && r.value.id == item.fields["programID"] && r.value.title == item.fields["programTitle"]
  {
    SummaryRow(Programs, item, "programID", "programTitle")
  }

  /** The row an item of `feed` becomes. */
  function RowFor(feed: Feed, item: Json): (r: Result<Row, PyError>)
    ensures r.Ok? ==> r.value.feed == feed && Conforms(r.value)
  {
    match feed
    case Courses => CourseRow(item)
    case Curricula => CurriculumRow(item)
    case Programs => ProgramRow(item)
  }

  /** The rows a feed loop appended, and the error that stopped it, if any. */
  datatype Drain = Drain(rows: seq<Row>, failure: Option<PyError>)

  /** The feed loop: items become rows left to right; the first failing item stops it. */
  function DrainFeed(feed: Feed, items: seq<Json>): (d: Drain)
    ensures |d.rows| <= |items|
    ensures d.failure.None? ==> |d.rows| == |items|
    ensures forall i :: 0 <= i < |d.rows| ==> d.rows[i].feed == feed && Conforms(d.rows[i])
  {
    if items == [] then Drain([], None)
    else
      var before := DrainFeed(feed, items[..|items| - 1]);
      if before.failure.Some? then before
      else
        match RowFor(feed, items[|items| - 1])
        case Err(e) => Drain(before.rows, Some(e))
        case Ok(row) => Drain(before.rows + [row], None)
  }

  /** A completed loop turned every item, in order, into its row. */
  lemma {:induction false} DrainFeedRows(feed: Feed, items: seq<Json>)
    requires DrainFeed(feed, items).failure.None?
    ensures forall i :: 0 <= i < |items| ==> RowFor(feed, items[i]) == Ok(DrainFeed(feed, items).rows[i])
  {
    if items != [] {
      var init := items[..|items| - 1];
      DrainFeedRows(feed, init);
      assert forall i :: 0 <= i < |init| ==> items[i] == init[i];
    }
  }

  /** Appending to a table in two steps or in one gives the same table. */
  lemma AppendAssociative(a: seq<Row>, b: seq<Row>, c: seq<Row>)
    ensures (a + b) + c == a + (b + c)
  {
  }

  /** One more item: the loop either was already stopped, stops here, or appends a row. */
  lemma DrainFeedNext(feed: Feed, items: seq<Json>, i: nat)
    requires i < |items|
    ensures var before := DrainFeed(feed, items[..i]);
            DrainFeed(feed, items[..i + 1])
            == if before.failure.Some? then before
               else match RowFor(feed, items[i])
                    case Err(e) => Drain(before.rows, Some(e))
                    case Ok(row) => Drain(before.rows + [row], None)
  {
    assert items[..i + 1][..i] == items[..i];
  }

  /** Once an item has failed, later items are never looked at. */
  lemma {:induction false} DrainFeedStops(feed: Feed, items: seq<Json>, n: nat)
    requires n <= |items|
    requires DrainFeed(feed, items[..n]).failure.Some?
    ensures DrainFeed(feed, items) == DrainFeed(feed, items[..n])
    decreases |items| - n
  {
    if n < |items| {
      assert items[..n + 1][..n] == items[..n];
      DrainFeedStops(feed, items, n + 1);
    } else {
      assert items[..n] == items;
    }
  }
}
