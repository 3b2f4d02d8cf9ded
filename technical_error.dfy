/**
 * app/router/technical_error.py: filing a technical-error report (a chain
 * of guards, then the database write), listing reports a page at a time
 * and fetching one report, with MongoDB's `_id` shown as a string `id`.
 * The database functions of app/data/database.py are parameters.
 */
module TechnicalError {
  import opened Wrappers
  import opened Text
  import opened Models

  // ---------------------------------------------------------------------
  // create_technical_error_report
  // ---------------------------------------------------------------------

  const MissingContact: string := "Phải cung cấp ít nhất email hoặc số điện thoại"
  const BlankName: string := "Tên không được để trống"
  const BlankOrganization: string := "Tổ chức không được để trống"
  const BlankErrorContent: string := "Nội dung lỗi không được để trống"
  const SaveFailed: string := "Không thể lưu báo cáo lỗi kỹ thuật"
  const CreateFailed: string := "Đã xảy ra lỗi khi tạo báo cáo lỗi kỹ thuật"
  const Created: string := "Báo cáo lỗi kỹ thuật đã được lưu thành công"

  /** The arguments of `save_technical_error_report`. */
  datatype StoredReport = StoredReport(
    name: string,
    organization: string,
    errorContent: string,
    phone: Option<string>,
    email: Option<string>,
    imageUrl: Option<string>)

  /** What the database call did: returned a flag, or raised. */
  datatype SaveOutcome = Returned(ok: bool) | Raised

  /** `not s or not s.strip()`. */
  predicate Blank(s: string) {
    s == "" || Strip(s) == ""
  }

  /** `s.strip() if s else None`. */
  function StripIfSet(o: Option<string>): (r: Option<string>)
    ensures r.Some? <==> Truthy(o)
    ensures r.Some? ==> r.value == Strip(o.value)
  {
    if Truthy(o) then Some(Strip(o.value)) else None
  }

  /** The values handed to the database: the required fields stripped, an
      optional one stripped when set and None when not. */
  function ToStore(report: ReportCreate): StoredReport {
    StoredReport(Strip(report.name), Strip(report.organization), Strip(report.errorContent),
      StripIfSet(report.phone), StripIfSet(report.email), StripIfSet(report.imageUrl))
  }

  /** The first guard a report fails, in the handler's order, if any. */
  function Rejection(report: ReportCreate): Option<string> {
    if !Truthy(report.phone) && !Truthy(report.email) then Some(MissingContact)
    else if Blank(report.name) then Some(BlankName)
    else if Blank(report.organization) then Some(BlankOrganization)
    else if Blank(report.errorContent) then Some(BlankErrorContent)
    else None
  }

  /** `create_technical_error_report` on a validated body: a guard's 400,
      or the outcome of the write. The 400s and the 500 for a false return
      pass the `except HTTPException: raise` unchanged; anything else the
      write raises becomes the generic 500. */
  function CreateReport(report: ReportCreate, save: StoredReport -> SaveOutcome): Result<string, HttpError> {
    match Rejection(report)
    case Some(detail) => Failure(HttpError(400, detail))
    case None =>
      match save(ToStore(report))
      case Returned(ok) => if ok then Success(Created) else Failure(HttpError(500, SaveFailed))
      case Raised => Failure(HttpError(500, CreateFailed))
  }

  /** The whole POST: FastAPI's parsing, then the handler. */
  function PostReport(body: map<string, Json>, save: StoredReport -> SaveOutcome): Result<string, HttpError> {
    match ParseReport(body)
    case Failure(e) => Failure(e)
    case Success(report) => CreateReport(report, save)
  }

  /** The contact guard comes first: without a phone or an email the report
      is refused with its message whatever the other fields hold, and
      nothing is written. */
  lemma ContactCheckedFirst(report: ReportCreate, save: StoredReport -> SaveOutcome)
    requires !Truthy(report.phone) && !Truthy(report.email)
    ensures CreateReport(report, save) == Failure(HttpError(400, MissingContact))
  {
  }

  /** With a contact given, the first blank one of name, organization and
      error_content, in that order, decides the 400. */
  lemma RequiredFieldsInOrder(report: ReportCreate, save: StoredReport -> SaveOutcome)
    requires Truthy(report.phone) || Truthy(report.email)
    ensures Blank(report.name) ==> CreateReport(report, save) == Failure(HttpError(400, BlankName))
    ensures !Blank(report.name) && Blank(report.organization) ==>
      CreateReport(report, save) == Failure(HttpError(400, BlankOrganization))
    ensures !Blank(report.name) && !Blank(report.organization) && Blank(report.errorContent) ==>
      CreateReport(report, save) == Failure(HttpError(400, BlankErrorContent))
  {
  }

  /** A report is written exactly when it passes every guard, and then the
      answer is the database's: success for true, 500 for false or a raise. */
  lemma CreateOutcome(report: ReportCreate, save: StoredReport -> SaveOutcome)
    ensures var r := CreateReport(report, save);
      && (r.Failure? && r.error.status == 400 <==> Rejection(report).Some?)
      && (r.Success? <==> Rejection(report).None? && save(ToStore(report)) == Returned(true))
      && (Rejection(report).None? && save(ToStore(report)) == Returned(false) ==>
            r == Failure(HttpError(500, SaveFailed)))
      && (Rejection(report).None? && save(ToStore(report)) == Raised ==>
            r == Failure(HttpError(500, CreateFailed)))
  {
    match Rejection(report)
    case Some(detail) =>
      assert CreateReport(report, save) == Failure(HttpError(400, detail));
    case None =>
      match save(ToStore(report))
      case Returned(ok) =>
        assert CreateReport(report, save) == if ok then Success(Created) else Failure(HttpError(500, SaveFailed));
      case Raised =>
        assert CreateReport(report, save) == Failure(HttpError(500, CreateFailed));
  }

  /** What is written has no surrounding whitespace in any field, and an
      optional field is None exactly when the report's was falsy. */
  lemma StoredStripped(report: ReportCreate)
    ensures var s := ToStore(report);
      && Strip(s.name) == s.name && Strip(s.organization) == s.organization
      && Strip(s.errorContent) == s.errorContent
      && (s.phone.None? <==> !Truthy(report.phone))
      && (s.email.None? <==> !Truthy(report.email))
      && (s.imageUrl.None? <==> !Truthy(report.imageUrl))
      && (s.phone.Some? ==> Strip(s.phone.value) == s.phone.value)
      && (s.email.Some? ==> Strip(s.email.value) == s.email.value)
  {
    StripIdempotent(report.name);
    StripIdempotent(report.organization);
    StripIdempotent(report.errorContent);
    if Truthy(report.phone) {
      StripIdempotent(report.phone.value);
    }
    if Truthy(report.email) {
      StripIdempotent(report.email.value);
    }
  }

  /** A phone of spaces alone counts as a contact, so a report with such a
      phone and no email passes the contact guard and is handed to the save
      call with the phone "". */
  lemma WhitespacePhoneStoredEmpty(report: ReportCreate)
    requires report.phone == Some("  ") && report.email == None
    requires !Blank(report.name) && !Blank(report.organization) && !Blank(report.errorContent)
    ensures Rejection(report) == None
    ensures ToStore(report).phone == Some("")
  {
    assert Strip("  ") == "" by {
      StripEmptyIff("  ");
      assert AllSpace("  ") by {
        assert IsSpace("  "[0]) && IsSpace("  "[1]);
      }
    }
    assert StripIfSet(report.phone) == Some("");
  }

  /** The contact check of `save_technical_error_report`: a record whose
      phone and email are both falsy raises inside the save, which catches
      it and returns False. */
  ghost predicate RefusesWithoutContact(save: StoredReport -> SaveOutcome) {
    forall s: StoredReport :: !Truthy(s.phone) && !Truthy(s.email) ==> save(s) == Returned(false)
  }

  /** With that save, a phone of spaces alone and no email passes the
      handler's guard but not the store's: the answer is the save-failed
      500 and nothing is written. */
  lemma WhitespacePhoneSaveFails(report: ReportCreate, save: StoredReport -> SaveOutcome)
    requires report.phone == Some("  ") && report.email == None
    requires !Blank(report.name) && !Blank(report.organization) && !Blank(report.errorContent)
    requires RefusesWithoutContact(save)
    ensures CreateReport(report, save) == Failure(HttpError(500, SaveFailed))
  {
    WhitespacePhoneStoredEmpty(report);
    assert save(ToStore(report)) == Returned(false);
  }

  /** A body FastAPI accepts has its required fields stripped already, so
      the write stores them as they were parsed. */
  lemma ParsedFieldsStoredAsParsed(body: map<string, Json>, save: StoredReport -> SaveOutcome)
    requires ParseReport(body).Success?
    ensures var r := ParseReport(body).value;
      && ToStore(r).name == r.name
      && ToStore(r).organization == r.organization
      && ToStore(r).errorContent == r.errorContent
    ensures PostReport(body, save) == CreateReport(ParseReport(body).value, save)
  {
    ParsedReportNormalised(body);
  }

  // ---------------------------------------------------------------------
  // get_all_technical_error_reports and get_technical_error_report
  // ---------------------------------------------------------------------

  /** A report document as MongoDB returns it. */
  type Document = map<string, Json>

  const IdKey: string := "_id"
  const ShownIdKey: string := "id"
  const NotFound: string := "Không tìm thấy báo cáo lỗi kỹ thuật"

  /** `limit` outside 1..100 becomes 50. */
  function ClampLimit(limit: int): (r: int)
    ensures 1 <= r <= 100
    ensures 1 <= limit <= 100 ==> r == limit
    ensures !(1 <= limit <= 100) ==> r == 50
  {
    if limit < 1 || limit > 100 then 50 else limit
  }

  /** A negative `offset` becomes 0. */
  function ClampOffset(offset: int): (r: int)
    ensures r >= 0 && r >= offset
    ensures r == 0 || r == offset
  {
    if offset < 0 then 0 else offset
  }

  /** `report["id"] = str(report["_id"]); del report["_id"]` when `_id` is
      present; the document is left alone otherwise. */
  function ShowId(d: Document): Document {
    if IdKey in d then d[ShownIdKey := JStr(PyStr(d[IdKey]))] - {IdKey} else d
  }

  /** The shown document has no `_id`; its `id` is the string form of the
      old `_id`; every other field is kept. */
  lemma ShowIdSpec(d: Document)
    ensures IdKey !in ShowId(d)
    ensures IdKey in d ==> ShowId(d)[ShownIdKey] == JStr(PyStr(d[IdKey]))
    ensures forall k | k in d && k != IdKey && (k != ShownIdKey || IdKey !in d) :: k in ShowId(d) && ShowId(d)[k] == d[k]
    ensures forall k | k in ShowId(d) :: k in d || (k == ShownIdKey && IdKey in d)
  {
  }

  /** Showing the id twice is showing it once. */
  lemma ShowIdIdempotent(d: Document)
    ensures ShowId(ShowId(d)) == ShowId(d)
  {
    ShowIdSpec(d);
  }

  /** Every document of a list with its id shown. */
  function ShowIds(docs: seq<Document>): (r: seq<Document>)
    ensures |r| == |docs|
  {
    seq(|docs|, i requires 0 <= i < |docs| => ShowId(docs[i]))
  }

  /** The body of a listing. */
  datatype ListBody = ListBody(reports: seq<Document>, total: int, limit: int, offset: int)

  /** `get_all_technical_error_reports`: the page is fetched with the
      clamped limit and offset, and each document has its id shown, in
      place, one after another. */
  method ListReports(limit: int, offset: int, fetch: (int, int) -> seq<Document>) returns (body: ListBody)
    ensures body.limit == ClampLimit(limit) && body.offset == ClampOffset(offset)
    ensures body.reports == ShowIds(fetch(body.limit, body.offset))
    ensures body.total == |body.reports|
  {
    var lim, off := limit, offset;
    if lim < 1 || lim > 100 {
      lim := 50;
    }
    if off < 0 {
      off := 0;
    }
    var fetched := fetch(lim, off);
    var reports := fetched;
    var k := 0;
    while k < |reports|
      invariant |reports| == |fetched|
      invariant 0 <= k <= |reports|
      invariant forall i | 0 <= i < k :: reports[i] == ShowId(fetched[i])
      invariant forall i | k <= i < |reports| :: reports[i] == fetched[i]
    {
      var report := reports[k];
      if IdKey in report {
        report := report[ShownIdKey := JStr(PyStr(report[IdKey]))];
        report := report - {IdKey};
      }
      reports := reports[k := report];
      k := k + 1;
    }
    body := ListBody(reports, |reports|, lim, off);
  }

  /** A listing holds no `_id` anywhere, and its documents are the fetched
      ones in the fetched order, each with its id shown. */
  lemma ListingShowsIds(limit: int, offset: int, fetch: (int, int) -> seq<Document>)
    ensures var docs := fetch(ClampLimit(limit), ClampOffset(offset));
      && |ShowIds(docs)| == |docs|
      && (forall i | 0 <= i < |docs| ::
            IdKey !in ShowIds(docs)[i] && ShowIds(docs)[i] == ShowId(docs[i]))
      && (forall i | 0 <= i < |docs| && IdKey in docs[i] ::
            ShowIds(docs)[i][ShownIdKey] == JStr(PyStr(docs[i][IdKey])))
  {
    var docs := fetch(ClampLimit(limit), ClampOffset(offset));
    forall i | 0 <= i < |docs| ensures IdKey !in ShowId(docs[i]) {
      ShowIdSpec(docs[i]);
    }
  }

  /** `get_technical_error_report`: a missing or empty document is a 404,
      which passes the `except HTTPException: raise`; a found one is shown
      with its id as a string. An id that is not an ObjectId is a missing
      document, since the database function answers None for it. */
  function GetReport(reportId: string, fetch: string -> Option<Document>): (r: Result<Document, HttpError>)
    ensures r.Failure? <==> fetch(reportId).None? || fetch(reportId).value == map[]
    ensures r.Failure? ==> r.error == HttpError(404, NotFound)
    ensures r.Success? ==> IdKey !in r.value
  {
    match fetch(reportId)
    case None => Failure(HttpError(404, NotFound))
    case Some(report) =>
      if report == map[] then Failure(HttpError(404, NotFound))
      else
        ShowIdSpec(report);
        Success(ShowId(report))
  }

  /** One fetched document is shown the same way by both handlers. */
  lemma GetAgreesWithListing(reportId: string, fetch: string -> Option<Document>)
    requires fetch(reportId).Some? && fetch(reportId).value != map[]
    ensures GetReport(reportId, fetch) == Success(ShowIds([fetch(reportId).value])[0])
  {
  }
}
