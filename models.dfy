/**
 * Request and response shapes of app/entities/models.py: the JSON values the
 * handlers receive, the `ChatRequest` body, the two field validators of
 * `TechnicalErrorReportCreate`, and the HTTP error the handlers raise.
 */
module Models {
  import opened Wrappers
  import opened Text

  /** A JSON value as a request body or a MongoDB document holds it. */
  datatype Json =
    | JNull
    | JBool(b: bool)
    | JInt(i: int)
    | JStr(s: string)
    | JObjectId(hex: string)   // a MongoDB ObjectId
    | JOther(repr: string)     // a list or a dict, known by its Python repr

  /** Python truthiness of an `Optional[str]`: set and not "". */
  predicate Truthy(o: Option<string>) {
    o.Some? && o.value != ""
  }

  /** An `HTTPException`: status code and detail text. */
  datatype HttpError = HttpError(status: int, detail: string)

  const ValidationFailed: string := "validation error"

  function DigitChar(d: nat): char
    requires d < 10
  {
    ('0' as int + d) as char
  }

  function NatToString(n: nat): (r: string)
    ensures r != []
    ensures forall i | 0 <= i < |r| :: '0' <= r[i] <= '9'
  {
    if n < 10 then [DigitChar(n)] else NatToString(n / 10) + [DigitChar(n % 10)]
  }

  /** Python's `str(v)`. */
  function PyStr(v: Json): string {
    match v
    case JNull => "None"
    case JBool(b) => if b then "True" else "False"
    case JInt(i) => if i < 0 then "-" + NatToString(-i) else NatToString(i)
    case JStr(s) => s
    case JObjectId(hex) => hex
    case JOther(repr) => repr
  }

  // ---------------------------------------------------------------------
  // ChatRequest
  // ---------------------------------------------------------------------

  /** `ChatRequest`: `message` is required; the two ids default to None. */
  datatype ChatRequest = ChatRequest(conversationId: Option<string>, message: string, userId: Option<string>)

  /** An `Optional[str]` field: absent or null gives None, a string is kept,
      anything else fails validation. */
  function OptionalString(body: map<string, Json>, key: string): Result<Option<string>, HttpError> {
    if key !in body || body[key] == JNull then Success(None)
    else if body[key].JStr? then Success(Some(body[key].s))
    else Failure(HttpError(422, ValidationFailed))
  }

  /** FastAPI's parsing of a `/chat` body into a `ChatRequest`. */
  function ParseChatRequest(body: map<string, Json>): (r: Result<ChatRequest, HttpError>)
    ensures r.Success? <==>
      && "message" in body && body["message"].JStr?
      && OptionalString(body, "conversation_id").Success?
      && OptionalString(body, "user_id").Success?
    ensures r.Failure? ==> r.error.status == 422
    ensures r.Success? ==> r.value.message == body["message"].s
    ensures r.Success? && "conversation_id" !in body ==> r.value.conversationId == None
    ensures r.Success? && "user_id" !in body ==> r.value.userId == None
  {
    if "message" !in body || !body["message"].JStr? then Failure(HttpError(422, ValidationFailed))
    else
      match (OptionalString(body, "conversation_id"), OptionalString(body, "user_id"))
      case (Success(cid), Success(uid)) => Success(ChatRequest(cid, body["message"].s, uid))
      case _ => Failure(HttpError(422, ValidationFailed))
  }

  // ---------------------------------------------------------------------
  // TechnicalErrorReportCreate
  // ---------------------------------------------------------------------

  const Null: string := "null"

  /** Validator `convert_empty_string_to_none` on phone, email and image_url. */
  function ConvertEmptyStringToNone(v: Json): Json {
    if v == JStr("") || v == JNull || v == JStr(Null) then JNull else v
  }

  /** Exactly "", None and "null" become None; every other value, "NULL"
      among them, passes through unchanged. */
  lemma ConvertEmptyStringToNoneSpec(v: Json)
    ensures ConvertEmptyStringToNone(v) == JNull <==> v in {JStr(""), JNull, JStr("null")}
    ensures ConvertEmptyStringToNone(v) != JNull ==> ConvertEmptyStringToNone(v) == v
    ensures ConvertEmptyStringToNone(JStr("NULL")) == JStr("NULL")
  {
  }

  lemma ConvertEmptyStringToNoneIdempotent(v: Json)
    ensures ConvertEmptyStringToNone(ConvertEmptyStringToNone(v)) == ConvertEmptyStringToNone(v)
  {
  }

  /** Validator `strip_strings` on name, organization and error_content. */
  function StripStrings(v: Json): (r: Json)
    ensures r.JStr? <==> v.JStr?
    ensures v.JStr? ==> r == JStr(Strip(v.s))
    ensures !v.JStr? ==> r == v
  {
    if v.JStr? then JStr(Strip(v.s)) else v
  }

  lemma StripStringsIdempotent(v: Json)
    ensures StripStrings(StripStrings(v)) == StripStrings(v)
  {
    if v.JStr? {
      StripIdempotent(v.s);
    }
  }

  /** `TechnicalErrorReportCreate` after validation. */
  datatype ReportCreate = ReportCreate(
    name: string,
    organization: string,
    phone: Option<string>,
    email: Option<string>,
    errorContent: string,
    imageUrl: Option<string>)

  /** A required `str` field after `strip_strings`; pydantic v2 does not turn
      numbers or booleans into strings, so anything but a string fails. */
  function RequiredField(body: map<string, Json>, key: string): Result<string, HttpError> {
    if key in body && StripStrings(body[key]).JStr? then Success(StripStrings(body[key]).s)
    else Failure(HttpError(422, ValidationFailed))
  }

  /** An `Optional[str]` field after `convert_empty_string_to_none`. A missing
      field takes its default None without running the validator. */
  function NullableField(body: map<string, Json>, key: string): Result<Option<string>, HttpError> {
    if key !in body then Success(None)
    else
      var v := ConvertEmptyStringToNone(body[key]);
      if v == JNull then Success(None)
      else if v.JStr? then Success(Some(v.s))
      else Failure(HttpError(422, ValidationFailed))
  }

  /** FastAPI's parsing of a report body into `TechnicalErrorReportCreate`. */
  function ParseReport(body: map<string, Json>): (r: Result<ReportCreate, HttpError>)
    ensures r.Failure? ==> r.error.status == 422
    ensures r.Success? <==>
      && RequiredField(body, "name").Success?
      && RequiredField(body, "organization").Success?
      && RequiredField(body, "error_content").Success?
      && NullableField(body, "phone").Success?
      && NullableField(body, "email").Success?
      && NullableField(body, "image_url").Success?
  {
    match (RequiredField(body, "name"), RequiredField(body, "organization"), RequiredField(body, "error_content"))
    case (Success(name), Success(org), Success(content)) =>
      (match (NullableField(body, "phone"), NullableField(body, "email"), NullableField(body, "image_url"))
       case (Success(phone), Success(email), Success(image)) =>
         Success(ReportCreate(name, org, phone, email, content, image))
       case _ => Failure(HttpError(422, ValidationFailed)))
    case _ => Failure(HttpError(422, ValidationFailed))
  }

  /** A required field comes out stripped. */
  lemma RequiredFieldStripped(body: map<string, Json>, key: string)
    requires RequiredField(body, key).Success?
    ensures Strip(RequiredField(body, key).value) == RequiredField(body, key).value
  {
    StripIdempotent(body[key].s);
  }

  /** An optional field never comes out as "" or "null"; any other string is
      kept as given, white space included. */
  lemma NullableFieldNormalised(body: map<string, Json>, key: string)
    requires NullableField(body, key).Success?
    ensures NullableField(body, key).value != Some("")
    ensures NullableField(body, key).value != Some(Null)
    ensures key in body && body[key].JStr? && body[key].s != "" && body[key].s != Null ==>
      NullableField(body, key).value == Some(body[key].s)
  {
  }

  /** A parsed report holds its text fields stripped and no "" or "null"
      in an optional field. */
  lemma ParsedReportNormalised(body: map<string, Json>)
    requires ParseReport(body).Success?
    ensures var r := ParseReport(body).value;
      && Strip(r.name) == r.name
      && Strip(r.organization) == r.organization
      && Strip(r.errorContent) == r.errorContent
      && r.phone != Some("") && r.phone != Some(Null)
      && r.email != Some("") && r.email != Some(Null)
      && r.imageUrl != Some("") && r.imageUrl != Some(Null)
  {
    RequiredFieldStripped(body, "name");
    RequiredFieldStripped(body, "organization");
    RequiredFieldStripped(body, "error_content");
    NullableFieldNormalised(body, "phone");
    NullableFieldNormalised(body, "email");
    NullableFieldNormalised(body, "image_url");
  }
}
