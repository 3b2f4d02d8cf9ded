/**
 * app/router/chat_history.py: the `/history` handlers. The store returns
 * plain record lists; each record becomes a user entry and an assistant
 * entry, the user history is reversed, the reply is the last assistant
 * entry, and every error raised inside a handler's `try` leaves it as 500.
 */
module ChatHistory {
  import opened Wrappers
  import opened Text
  import opened Models

  // ---------------------------------------------------------------------
  // Records and display entries
  // ---------------------------------------------------------------------

  /** A stored chat document as the store returns it; None is a missing key. */
  datatype StoredRecord = StoredRecord(
    question: Option<string>,
    answer: Option<string>,
    timestamp: Option<int>,
    conversationId: Option<string>,
    agent: Option<string>)

  datatype Role = User | Assistant

  /** One display entry. `conversationId` is None when the handler does not
      put that key in its entries. */
  datatype Entry = Entry(role: Role, content: string, timestamp: Option<int>, conversationId: Option<string>, agent: string)

  function ConversationKey(r: StoredRecord, withConversation: bool): Option<string> {
    if withConversation then Some(r.conversationId.GetOr("")) else None
  }

  /** The entry for the question: `chat.get("question", "")`. */
  function UserEntry(r: StoredRecord, withConversation: bool): Entry {
    Entry(User, r.question.GetOr(""), r.timestamp, ConversationKey(r, withConversation), r.agent.GetOr(""))
  }

  /** The entry for the answer: `chat.get("answer", "")`. */
  function AssistantEntry(r: StoredRecord, withConversation: bool): Entry {
    Entry(Assistant, r.answer.GetOr(""), r.timestamp, ConversationKey(r, withConversation), r.agent.GetOr(""))
  }

  /** The display list after the loop has handled `records` in order. */
  function Expanded(records: seq<StoredRecord>, withConversation: bool): seq<Entry> {
    if records == [] then []
    else
      var r := records[|records| - 1];
      Expanded(records[..|records| - 1], withConversation) + [UserEntry(r, withConversation), AssistantEntry(r, withConversation)]
  }

  /** Each record gives exactly two entries, question then answer, in record order. */
  lemma {:induction false} ExpandedAt(records: seq<StoredRecord>, withConversation: bool)
    ensures |Expanded(records, withConversation)| == 2 * |records|
    ensures forall i | 0 <= i < |records| ::
      && Expanded(records, withConversation)[2 * i] == UserEntry(records[i], withConversation)
      && Expanded(records, withConversation)[2 * i + 1] == AssistantEntry(records[i], withConversation)
  {
    if records != [] {
      var init := records[..|records| - 1];
      ExpandedAt(init, withConversation);
      forall i | 0 <= i < |init| ensures init[i] == records[i] {
      }
    }
  }

  /** The loop that appends the two entries of each record. */
  method ExpandRecords(records: seq<StoredRecord>, withConversation: bool) returns (history: seq<Entry>)
    ensures history == Expanded(records, withConversation)
  {
    history := [];
    var k := 0;
    while k < |records|
      invariant 0 <= k <= |records|
      invariant history == Expanded(records[..k], withConversation)
    {
      var r := records[k];
      history := history + [UserEntry(r, withConversation)];
      history := history + [AssistantEntry(r, withConversation)];
      assert records[..k + 1][..k] == records[..k];
      k := k + 1;
    }
    assert records[..k] == records;
  }

  /** The user history after `history.reverse()`: the records come in the
      opposite order to the store's, and inside each record the answer now
      precedes the question. */
  lemma ReversedAt(records: seq<StoredRecord>, withConversation: bool)
    ensures var h := Reverse(Expanded(records, withConversation));
      && |h| == 2 * |records|
      && forall j | 0 <= j < |records| ::
        && h[2 * j] == AssistantEntry(records[|records| - 1 - j], withConversation)
        && h[2 * j + 1] == UserEntry(records[|records| - 1 - j], withConversation)
  {
    var e := Expanded(records, withConversation);
    var n := |records|;
    ExpandedLength(records, withConversation);
    forall j | 0 <= j < n
      ensures Reverse(e)[2 * j] == AssistantEntry(records[n - 1 - j], withConversation)
      ensures Reverse(e)[2 * j + 1] == UserEntry(records[n - 1 - j], withConversation)
    {
      var i := n - 1 - j;
      ExpandedPair(records, withConversation, i);
      assert |e| - 1 - 2 * j == 2 * i + 1 && |e| - 1 - (2 * j + 1) == 2 * i;
      assert Reverse(e)[2 * j] == e[2 * i + 1];
      assert Reverse(e)[2 * j + 1] == e[2 * i];
    }
  }

  lemma ExpandedLength(records: seq<StoredRecord>, withConversation: bool)
    ensures |Expanded(records, withConversation)| == 2 * |records|
  {
    ExpandedAt(records, withConversation);
  }

  /** The two entries of record `i`. */
  lemma ExpandedPair(records: seq<StoredRecord>, withConversation: bool, i: int)
    requires 0 <= i < |records|
    ensures |Expanded(records, withConversation)| == 2 * |records|
    ensures Expanded(records, withConversation)[2 * i] == UserEntry(records[i], withConversation)
    ensures Expanded(records, withConversation)[2 * i + 1] == AssistantEntry(records[i], withConversation)
  {
    ExpandedAt(records, withConversation);
  }

  // ---------------------------------------------------------------------
  // The reply and the support flag
  // ---------------------------------------------------------------------

  /** The content of the last assistant entry, or "" when there is none. */
  function LastAssistant(history: seq<Entry>): string {
    if history == [] then ""
    else if history[|history| - 1].role == Assistant then history[|history| - 1].content
    else LastAssistant(history[..|history| - 1])
  }

  /** Entry `k` is an assistant entry and no assistant entry follows it. */
  predicate IsLastAssistant(history: seq<Entry>, k: int) {
    0 <= k < |history| && history[k].role == Assistant
    && forall j | k < j < |history| :: history[j].role != Assistant
  }

  /** The reply is the content of the last assistant entry, or "" when
      there is no assistant entry. */
  lemma {:induction false} LastAssistantSpec(history: seq<Entry>)
    ensures (forall k | 0 <= k < |history| :: history[k].role != Assistant) ==> LastAssistant(history) == ""
    ensures forall k | IsLastAssistant(history, k) :: LastAssistant(history) == history[k].content
  {
    if history != [] {
      var init := history[..|history| - 1];
      LastAssistantSpec(init);
      forall k | IsLastAssistant(history, k) ensures LastAssistant(history) == history[k].content {
        if k < |history| - 1 {
          assert IsLastAssistant(init, k);
        }
      }
    }
  }

  /** The backward scan with `break` that sets `main_reply`. */
  method ScanReply(history: seq<Entry>) returns (reply: string)
    ensures reply == LastAssistant(history)
  {
    reply := "";
    var k := |history|;
    assert history[..k] == history;
    while k > 0
      invariant 0 <= k <= |history|
      invariant LastAssistant(history) == LastAssistant(history[..k])
      invariant reply == ""
    {
      assert history[..k][..k - 1] == history[..k - 1];
      if history[k - 1].role == Assistant {
        reply := history[k - 1].content;
        return;
      }
      k := k - 1;
    }
  }

  /** In record order the reply is the answer of the last record. */
  lemma ExpandedReply(records: seq<StoredRecord>, withConversation: bool)
    requires records != []
    ensures LastAssistant(Expanded(records, withConversation)) == records[|records| - 1].answer.GetOr("")
  {
  }

  /** In the reversed user history the reply is the answer of the first
      record the store returned, not of the entry shown last. */
  lemma ReversedReply(records: seq<StoredRecord>, withConversation: bool)
    requires records != []
    ensures LastAssistant(Reverse(Expanded(records, withConversation))) == records[0].answer.GetOr("")
  {
    var h := Reverse(Expanded(records, withConversation));
    var n := |records|;
    ReversedAt(records, withConversation);
    assert h[2 * (n - 1) + 1] == UserEntry(records[0], withConversation);
    assert h[2 * (n - 1)] == AssistantEntry(records[0], withConversation);
    assert h[..|h| - 1][|h| - 2] == h[2 * (n - 1)];
  }

  /** `main_reply and ("support" in ... or "hỗ trợ" in ...)`. */
  predicate SupportFlag(reply: string) {
    reply != "" && MentionsSupport(reply)
  }

  /** The non-empty guard changes nothing: "" mentions neither word. */
  lemma SupportFlagIff(reply: string)
    ensures SupportFlag(reply) <==> MentionsSupport(reply)
  {
    if reply == "" {
      NotContainsShort(Lower(reply), Support);
      NotContainsShort(Lower(reply), HoTro);
    }
  }

  // ---------------------------------------------------------------------
  // Errors
  // ---------------------------------------------------------------------

  const InternalError: string := "Internal server error"

  /** The handlers' `except Exception`: whatever was raised in the `try`,
      HTTPException included, is answered with 500. */
  function CatchAll<T>(r: Result<T, HttpError>): (c: Result<T, HttpError>)
    ensures c.Failure? <==> r.Failure?
    ensures c.Success? ==> c == r
    ensures c.Failure? ==> c.error == HttpError(500, InternalError)
  {
    if r.Success? then r else Failure(HttpError(500, InternalError))
  }

  /** `Query(ge=1, le=100)` on limit and `Query(ge=0)` on offset. */
  predicate ValidPage(limit: int, offset: int) {
    1 <= limit <= 100 && 0 <= offset
  }

  // ---------------------------------------------------------------------
  // Dates
  // ---------------------------------------------------------------------

  datatype Date = Date(year: int, month: int, day: int)
  datatype DateTime = DateTime(date: Date, hour: int, minute: int, second: int)

  function StartOfDay(d: Date): DateTime { DateTime(d, 0, 0, 0) }

  /** `end_dt.replace(hour=23, minute=59, second=59)`. */
  function EndOfDay(d: Date): DateTime { DateTime(d, 23, 59, 59) }

  const BadStartDate: string := "Invalid start_date format. Use YYYY-MM-DD"
  const BadEndDate: string := "Invalid end_date format. Use YYYY-MM-DD"

  /** The date filter of `get_user_chat_history`, with `strptime(_, "%Y-%m-%d")`
      given as `parseDate`. An empty string counts as no date. */
  function DateBounds(startDate: Option<string>, endDate: Option<string>, parseDate: string -> Option<Date>)
    : (r: Result<(Option<DateTime>, Option<DateTime>), HttpError>)
    ensures r.Failure? <==>
      (Truthy(startDate) && parseDate(startDate.value).None?) || (Truthy(endDate) && parseDate(endDate.value).None?)
    ensures r.Failure? ==> r.error.status == 400
    ensures r.Failure? && Truthy(startDate) && parseDate(startDate.value).None? ==> r.error.detail == BadStartDate
    ensures r.Failure? && !(Truthy(startDate) && parseDate(startDate.value).None?) ==> r.error.detail == BadEndDate
    ensures r.Success? ==> (r.value.0.Some? <==> Truthy(startDate)) && (r.value.1.Some? <==> Truthy(endDate))
    ensures r.Success? && r.value.0.Some? ==> r.value.0.value == StartOfDay(parseDate(startDate.value).value)
    ensures r.Success? && r.value.1.Some? ==> r.value.1.value == EndOfDay(parseDate(endDate.value).value)
  {
    if Truthy(startDate) && parseDate(startDate.value).None? then Failure(HttpError(400, BadStartDate))
    else if Truthy(endDate) && parseDate(endDate.value).None? then Failure(HttpError(400, BadEndDate))
    else
      var s := if Truthy(startDate) then Some(StartOfDay(parseDate(startDate.value).value)) else None;
      var e := if Truthy(endDate) then Some(EndOfDay(parseDate(endDate.value).value)) else None;
      Success((s, e))
  }

  // ---------------------------------------------------------------------
  // GET /history/{user_id}
  // ---------------------------------------------------------------------

  /** The keys a non-empty page adds: limit, offset, reply and the metadata flag. */
  datatype PageInfo = PageInfo(limit: int, offset: int, reply: string, requiresSupportForm: bool)

  datatype UserHistoryBody = UserHistoryBody(
    history: seq<Entry>,
    total: nat,
    hasMore: bool,
    userId: string,
    page: Option<PageInfo>)

  /** The store's `get_user_history`, which answers [] on its own errors. */
  type UserHistoryFetch = (string, int, int, Option<DateTime>, Option<DateTime>) -> seq<StoredRecord>

  function UserHistoryResponse(
    userId: string, limit: int, offset: int, startDate: Option<string>, endDate: Option<string>,
    parseDate: string -> Option<Date>, fetch: UserHistoryFetch): Result<UserHistoryBody, HttpError>
  {
    if !ValidPage(limit, offset) then Failure(HttpError(422, ValidationFailed))
    else
      CatchAll(
        match DateBounds(startDate, endDate, parseDate)
        case Failure(e) => Failure(e)
        case Success(bounds) =>
          var records := fetch(userId, limit, offset, bounds.0, bounds.1);
          if records == [] then Success(UserHistoryBody([], 0, false, userId, None))
          else
            var history := Reverse(Expanded(records, true));
            var reply := LastAssistant(history);
            Success(UserHistoryBody(history, |history|, |records| == limit, userId,
              Some(PageInfo(limit, offset, reply, SupportFlag(reply))))))
  }

  /** `get_user_chat_history`. */
  method GetUserChatHistory(
    userId: string, limit: int, offset: int, startDate: Option<string>, endDate: Option<string>,
    parseDate: string -> Option<Date>, fetch: UserHistoryFetch) returns (r: Result<UserHistoryBody, HttpError>)
    ensures r == UserHistoryResponse(userId, limit, offset, startDate, endDate, parseDate, fetch)
  {
    if !ValidPage(limit, offset) {
      return Failure(HttpError(422, ValidationFailed));
    }
    var bounds := DateBounds(startDate, endDate, parseDate);
    if bounds.Failure? {
      return Failure(HttpError(500, InternalError));
    }
    var records := fetch(userId, limit, offset, bounds.value.0, bounds.value.1);
    if records == [] {
      return Success(UserHistoryBody([], 0, false, userId, None));
    }
    var history := ExpandRecords(records, true);
    history := Reverse(history);
    var reply := ScanReply(history);
    var flag := reply != "" && (Contains(Lower(reply), Support) || Contains(Lower(reply), HoTro));
    assert flag == SupportFlag(reply);
    r := Success(UserHistoryBody(history, |history|, |records| == limit, userId,
      Some(PageInfo(limit, offset, reply, flag))));
  }

  /** The shape of a user-history page: two entries per record, `has_more`
      exactly when the store filled the page, the reply taken from the
      newest record, and an empty result with total 0 and no more pages. */
  lemma UserHistoryShape(
    userId: string, limit: int, offset: int, startDate: Option<string>, endDate: Option<string>,
    parseDate: string -> Option<Date>, fetch: UserHistoryFetch, records: seq<StoredRecord>)
    requires ValidPage(limit, offset)
    requires DateBounds(startDate, endDate, parseDate).Success?
    requires var b := DateBounds(startDate, endDate, parseDate).value; records == fetch(userId, limit, offset, b.0, b.1)
    ensures var r := UserHistoryResponse(userId, limit, offset, startDate, endDate, parseDate, fetch);
      && r.Success?
      && r.value.total == 2 * |records|
      && |r.value.history| == r.value.total
      && r.value.hasMore == (records != [] && |records| == limit)
      && (records == [] ==> r.value.page == None && !r.value.hasMore)
      && (records != [] ==> r.value.page.Some? && r.value.page.value.reply == records[0].answer.GetOr(""))
  {
    ExpandedAt(records, true);
    if records != [] {
      ReversedReply(records, true);
    }
  }

  /** A malformed date never reaches the caller as 400: the catch-all turns
      it into 500. */
  lemma BadDateIsInternalError(
    userId: string, limit: int, offset: int, startDate: Option<string>, endDate: Option<string>,
    parseDate: string -> Option<Date>, fetch: UserHistoryFetch)
    requires ValidPage(limit, offset)
    requires Truthy(startDate) && parseDate(startDate.value).None?
    ensures UserHistoryResponse(userId, limit, offset, startDate, endDate, parseDate, fetch)
      == Failure(HttpError(500, InternalError))
  {
  }

  /** Out-of-range paging is refused with 422 before the handler runs. */
  lemma UserHistoryPageValidated(
    userId: string, limit: int, offset: int, startDate: Option<string>, endDate: Option<string>,
    parseDate: string -> Option<Date>, fetch: UserHistoryFetch)
    ensures UserHistoryResponse(userId, limit, offset, startDate, endDate, parseDate, fetch).Failure?
      ==> UserHistoryResponse(userId, limit, offset, startDate, endDate, parseDate, fetch).error.status in {422, 500}
    ensures !ValidPage(limit, offset) ==>
      UserHistoryResponse(userId, limit, offset, startDate, endDate, parseDate, fetch).error.status == 422
  {
  }

  // ---------------------------------------------------------------------
  // GET /history/conversation/{conversation_id}
  // ---------------------------------------------------------------------

  datatype ReplyInfo = ReplyInfo(reply: string, requiresSupportForm: bool)

  datatype ConversationBody = ConversationBody(
    history: seq<Entry>,
    conversationId: string,
    totalMessages: nat,
    summary: Option<ReplyInfo>)

  /** The conversation view of this router: entries in store order (oldest
      first), without a `conversation_id` key. */
  function ConversationResponse(conversationId: string, records: seq<StoredRecord>): ConversationBody {
    if records == [] then ConversationBody([], conversationId, 0, None)
    else
      var history := Expanded(records, false);
      var reply := LastAssistant(history);
      ConversationBody(history, conversationId, |history|, Some(ReplyInfo(reply, SupportFlag(reply))))
  }

  /** `get_conversation_history` of this router, with the store's result given. */
  method GetConversationHistory(conversationId: string, records: seq<StoredRecord>) returns (body: ConversationBody)
    ensures body == ConversationResponse(conversationId, records)
  {
    if records == [] {
      return ConversationBody([], conversationId, 0, None);
    }
    var history := ExpandRecords(records, false);
    var reply := ScanReply(history);
    var flag := reply != "" && (Contains(Lower(reply), Support) || Contains(Lower(reply), HoTro));
    assert flag == SupportFlag(reply);
    body := ConversationBody(history, conversationId, |history|, Some(ReplyInfo(reply, flag)));
  }

  /** Twice as many messages as records, and the reply is the last record's answer. */
  lemma ConversationShape(conversationId: string, records: seq<StoredRecord>)
    ensures var b := ConversationResponse(conversationId, records);
      && b.totalMessages == 2 * |records| == |b.history|
      && (records != [] ==> b.summary == Some(ReplyInfo(records[|records| - 1].answer.GetOr(""),
                                                        SupportFlag(records[|records| - 1].answer.GetOr("")))))
      && (forall k | 0 <= k < |b.history| :: b.history[k].conversationId == None)
  {
    ExpandedAt(records, false);
    var h := Expanded(records, false);
    forall k | 0 <= k < |h| ensures h[k].conversationId == None {
      var i := k / 2;
      if k == 2 * i {
        assert h[k] == UserEntry(records[i], false);
      } else {
        assert k == 2 * i + 1;
        assert h[k] == AssistantEntry(records[i], false);
      }
    }
  }

  // ---------------------------------------------------------------------
  // GET /history/user/{user_id}/statistics
  // ---------------------------------------------------------------------

  /** The store's statistics dict; None stands for the empty dict it returns
      when it finds nothing or fails. */
  datatype Statistics = Statistics(totalMessages: int, totalConversations: int, topAgents: seq<Json>, dailyStats: seq<Json>, periodDays: int)

  datatype StatisticsBody = StatisticsBody(userId: string, stats: Statistics)

  function StatisticsResponse(userId: string, days: int, stats: Option<Statistics>): (r: Result<StatisticsBody, HttpError>)
    ensures r.Failure? <==> !(1 <= days <= 365)
    ensures r.Failure? ==> r.error.status == 422
    ensures r.Success? && stats.None? ==> r.value.stats == Statistics(0, 0, [], [], days)
    ensures r.Success? && stats.Some? ==> r.value.stats == stats.value
    ensures r.Success? ==> r.value.userId == userId
  {
    if !(1 <= days <= 365) then Failure(HttpError(422, ValidationFailed))
    else Success(StatisticsBody(userId, stats.GetOr(Statistics(0, 0, [], [], days))))
  }

  // ---------------------------------------------------------------------
  // GET /history/user/{user_id}/search
  // ---------------------------------------------------------------------

  datatype SearchBody = SearchBody(
    results: seq<Entry>,
    total: nat,
    searchTerm: string,
    userId: string,
    page: Option<PageInfo>)

  const BlankSearchTerm: string := "Search term cannot be empty"

  /** The search handler, with the store's `search_chat_history` given. The
      400 for a blank term is raised inside the `try`. */
  function SearchResponse(userId: string, q: string, limit: int, offset: int,
    search: (string, string, int, int) -> seq<StoredRecord>): Result<SearchBody, HttpError>
  {
    if !ValidPage(limit, offset) then Failure(HttpError(422, ValidationFailed))
    else
      CatchAll(
        if Strip(q) == "" then Failure(HttpError(400, BlankSearchTerm))
        else
          var records := search(userId, q, limit, offset);
          if records == [] then Success(SearchBody([], 0, q, userId, None))
          else
            var results := Expanded(records, true);
            var reply := LastAssistant(results);
            Success(SearchBody(results, |results|, q, userId, Some(PageInfo(limit, offset, reply, SupportFlag(reply))))))
  }

  method SearchChatHistory(userId: string, q: string, limit: int, offset: int,
    search: (string, string, int, int) -> seq<StoredRecord>) returns (r: Result<SearchBody, HttpError>)
    ensures r == SearchResponse(userId, q, limit, offset, search)
  {
    if !ValidPage(limit, offset) {
      return Failure(HttpError(422, ValidationFailed));
    }
    if Strip(q) == "" {
      return Failure(HttpError(500, InternalError));
    }
    var records := search(userId, q, limit, offset);
    if records == [] {
      return Success(SearchBody([], 0, q, userId, None));
    }
    var results := ExpandRecords(records, true);
    var reply := ScanReply(results);
    var flag := reply != "" && (Contains(Lower(reply), Support) || Contains(Lower(reply), HoTro));
    assert flag == SupportFlag(reply);
    r := Success(SearchBody(results, |results|, q, userId, Some(PageInfo(limit, offset, reply, flag))));
  }

  /** A blank or all-white-space term is answered with 500, never 400, and
      the store is not asked; otherwise results come two per record in store
      order and the reply is the last record's answer. */
  lemma SearchShape(userId: string, q: string, limit: int, offset: int,
    search: (string, string, int, int) -> seq<StoredRecord>)
    requires ValidPage(limit, offset)
    ensures AllSpace(q) ==> SearchResponse(userId, q, limit, offset, search) == Failure(HttpError(500, InternalError))
    ensures !AllSpace(q) ==>
      var records := search(userId, q, limit, offset);
      var r := SearchResponse(userId, q, limit, offset, search);
      && r.Success? && r.value.total == 2 * |records|
      && (records != [] ==> r.value.page.value.reply == records[|records| - 1].answer.GetOr(""))
  {
    StripEmptyIff(q);
    ExpandedAt(search(userId, q, limit, offset), true);
  }

  // ---------------------------------------------------------------------
  // DELETE /history/{user_id} and /history/conversation/{conversation_id}
  // ---------------------------------------------------------------------

  datatype DeleteBody = DeleteBody(message: string, key: string)

  const UserDeleted: string := "User chat history deleted successfully"
  const ConversationDeleted: string := "Conversation history deleted successfully"
  const UserNotFound: string := "User not found or no history to delete"
  const ConversationNotFound: string := "Conversation not found or no history to delete"

  /** A delete handler, given what the store's delete returned: the 404 it
      raises for "nothing deleted" is caught by its own `except`. */
  function DeleteResponse(deleted: bool, message: string, notFound: string, key: string): Result<DeleteBody, HttpError> {
    CatchAll(if deleted then Success(DeleteBody(message, key)) else Failure(HttpError(404, notFound)))
  }

  function DeleteUserHistory(userId: string, deleted: bool): Result<DeleteBody, HttpError> {
    DeleteResponse(deleted, UserDeleted, UserNotFound, userId)
  }

  function DeleteConversationHistory(conversationId: string, deleted: bool): Result<DeleteBody, HttpError> {
    DeleteResponse(deleted, ConversationDeleted, ConversationNotFound, conversationId)
  }

  /** A delete that removed nothing is answered with 500, never with 404. */
  lemma DeleteNeverNotFound(key: string, deleted: bool)
    ensures DeleteUserHistory(key, deleted).Success? <==> deleted
    ensures DeleteConversationHistory(key, deleted).Success? <==> deleted
    ensures !deleted ==> DeleteUserHistory(key, deleted).error == HttpError(500, InternalError)
    ensures !deleted ==> DeleteConversationHistory(key, deleted).error == HttpError(500, InternalError)
    ensures deleted ==> DeleteUserHistory(key, deleted).value == DeleteBody(UserDeleted, key)
    ensures deleted ==> DeleteConversationHistory(key, deleted).value == DeleteBody(ConversationDeleted, key)
  {
  }
}
