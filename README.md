# ChatServer core, modelled in Dafny

This project models the decision logic of a multi-agent customer-support chat
backend. The backend is a FastAPI application over an LLM agent SDK and
MongoDB. The model covers the following parts:

- **One chat turn** (`chat_endpoint` in `app/router/chat.py`):
  - resolving or creating the session in the in-memory conversation store;
  - the blank-first-message shortcut;
  - looking up the agent by name;
  - the guardrail-tripwire path;
  - classifying the run's items into messages and events, and moving the
    current agent on each handoff;
  - the context diff;
  - saving the session;
  - the final guardrail checks;
  - the history record;
  - the support-form flag.

  The store is a class whose map holds `Session` objects. A turn mutates the
  session it works on in place, as the Python dicts are. A value-level
  function `Chat.Turn` says what a turn answers and what the store holds
  afterwards. `Chat.ChatEndpoint` is proved to do exactly that.
- **The history router** (`app/router/chat_history.py`):
  - each record expands into two display entries;
  - the user history is reversed;
  - the backward scan for the reply;
  - the `has_more` rule;
  - the date filter;
  - the statistics default;
  - search;
  - the two deletes, and the catch-all `except` that turns every error
    raised in a handler into 500.

  The conversation view that `app/router/chat.py` serves at the same path is
  modelled too.
- **Technical-error reports** (`app/router/technical_error.py` with the
  validators of `app/entities/models.py`):
  - the guard chain of the create handler;
  - what is written to the database;
  - the mapping of the database's answer to a status;
  - limit/offset clamping and the `_id` → `id` rewrite of the listing (a
    loop that updates the reports in place);
  - the 404 of the single-report handler.
- **Intent splitting and triage** (`app/agent/multi_intent_agent.py`,
  `app/agent/triage_agent.py`):
  - the four keyword groups and their fixed order;
  - the merged multi-agent answer;
  - the separator-count rule of `SmartTriageAgent.run`;
  - the handoff graph wired at import time.

The model stands in for everything outside it as follows:

- `Runner.run` is the function parameter `runner`. It completes, raises
  the guardrail tripwire, or raises anything else; the last escapes
  `chat_endpoint` and reaches the caller as FastAPI's 500.
- `json.loads` is the function parameter `parse`.
- `uuid4().hex` is the value `freshId`.
- `datetime.strptime` is the function parameter `parseDate`.
- The MongoDB service calls are the function parameters `fetch`, `search`
  and `save`.
- The agents' `run` is the function parameters `call` and `base`.

Python's `str` operations that the handlers use are written out in module
`Text`: `strip`, `lower`, `in`, `count`, `join`, `replace` and `title`.

Module layout, one file per module:

- `wrappers.dfy` (Wrappers): Option and Result.
- `text.dfy` (Text): the string helpers.
- `models.dfy` (Models): `app/entities/models.py`.
- `formatter_agent.dfy` (AgentContext): the context record.
- `agents.dfy` (Agents): the agent registry, guardrail names and the handoff
  graph.
- `multi_intent.dfy` (MultiIntent): `app/agent/multi_intent_agent.py`.
- `triage.dfy` (Triage): `SmartTriageAgent.run`.
- `chat_history.dfy` (ChatHistory): `app/router/chat_history.py`.
- `chat.dfy` (Chat): `app/router/chat.py`.
- `technical_error.dfy` (TechnicalError): `app/router/technical_error.py`.

## Model

| member | source | states |
|---|---|---|
| Chat.ConversationStore.constructor | app/router/chat.py:39-48 | The store starts empty. |
| Chat.ConversationStore.Get | app/router/chat.py:42-43 | `get` returns the session filed under the id, or None when there is none; a returned session holds the state the store shows for that id, and the store is unchanged. |
| Chat.ConversationStore.Save | app/router/chat.py:45-46 | `save` files the session object itself under the id; every other id keeps its session. |
| Chat.Session.constructor | app/router/chat.py:97-105 | A new session has no input items, the initial context and the triage agent's name. |
| Chat.ChatEndpoint | app/router/chat.py:94-265 | One turn answers (a response, or the 500 of an exception that escapes), records and leaves in the store exactly what `Chat.Turn` gives for the store's prior contents. Afterwards every stored session still has an agent's name and sessions under distinct ids are distinct objects. |
| Chat.Answer | app/router/chat.py:106-265 | On the resolved session, a blank first message and a run both end in exactly the response, record and store contents of `Chat.Turn`, and the store keeps its invariant. |
| Chat.ResolveSession | app/router/chat.py:96-121 | The turn is new exactly when there is no id or the store lacks it. A new turn gets the fresh id and a new empty session. Otherwise the turn gets the stored session object itself. |
| Chat.RunPath | app/router/chat.py:123-217 | After the run, a completed session is saved under its id. A session already in the store is changed there even when not saved (tripwire or escaping exception). A new session that is not saved is not filed. |
| Chat.File | app/router/chat.py:215-217 | Filing a session under an id binds that id to its contents and changes no other entry. |
| Chat.RunTurn | app/router/chat.py:123-217 | The run on the session object has exactly the effect of `Chat.Step` on its contents: answer, record, new contents and whether it is saved; an exception other than the tripwire leaves the user message appended and answers 500. |
| Chat.OnTripwire | app/router/chat.py:130-172 | On a tripwire: the refusal is appended to the session's input, and context and agent are unchanged. The response holds the refusal as its one message and the per-guardrail checks. A record is written when the request has a user id. |
| Chat.OnCompleted | app/router/chat.py:174-265 | On success: the session takes the run's input list, the new context and the final agent's name. The response has the item messages and events, then the context event. It also has the final checks, the last message as reply, and the support flag. |
| Chat.ProcessItems | app/router/chat.py:177-206 | The item loop yields the messages and events of the items in order and ends at the agent of the last handoff. |
| Chat.FinalAgentIsLastHandoff | app/router/chat.py:182-189 | The current agent after the loop is the target of the last handoff, or the starting agent when no item is a handoff. |
| Chat.MessagesMatchEvents | app/router/chat.py:178-181 | Each message item yields exactly one message response and one "message" event with the same text and agent, in the same order. No other item yields either. |
| Chat.MessagesReplyIsContent | app/router/chat.py:180 | Every message response repeats its content as its reply. |
| Chat.NoContextEventFromItems | app/router/chat.py:177-206 | No run item yields a context_update event. |
| Chat.TripwireChecks | app/router/chat.py:136-144 | The loop builds the checks `Chat.TripwireChecksOf` defines. |
| Chat.TripwireChecksSpec | app/router/chat.py:136-144 | There is one check per input guardrail, in order, with the guardrail's name and the request's message. It passed exactly when it is not the tripped guardrail. Only the tripped one carries the reasoning. |
| Chat.FindCheck | app/router/chat.py:222 | `next(...)` finds a check of that name from the list, or None exactly when no check has that name. |
| Chat.FinalGuardrails | app/router/chat.py:219-228 | The loop builds the checks `Chat.FinalChecksOf` defines. |
| Chat.FinalChecksAllPassed | app/router/chat.py:219-228 | With no earlier checks (the success path), each guardrail of the final agent gets one passed check with empty reasoning, in order. |
| Chat.StepKeepsAgentName | app/router/chat.py:215-216 | A turn leaves the session's current agent an agent's name. |
| Chat.TurnOfStep | app/router/chat.py:94-265 | A turn that runs answers with its step's response and record. The store gets the step's session contents unless the session is both new and unsaved. |
| Chat.MapUpdated | app/router/chat.py:46 | A map that agrees with `m` off `id` and binds `id` to `v` is `m[id := v]`: a save touches one entry. |
| Chat.RefusalMentionsSupport | app/router/chat.py:145 | The refusal text itself contains "hỗ trợ". |
| Chat.TurnConversationId | app/router/chat.py:96-120 | A response to a new turn carries the fresh id, discarding any unknown id it was sent; one to an existing turn keeps its id. |
| Chat.EmptyMessageShortcut | app/router/chat.py:106-118 | A new conversation with an all-white-space message is saved as a new session and answered at once. The answer has the fresh id, the triage agent, no messages, events or checks, reply "", no support flag and no record. |
| Chat.ExistingRunsWithStoredAgent | app/router/chat.py:119-129 | An existing session is run by the info agent only when it was saved with the info agent. Any other saved agent (price, support) resumes at triage. |
| Chat.TripwireTurn | app/router/chat.py:130-172 | On a tripwire the response has no events and the refusal as its only message and reply. The agent does not move, and the support flag is off though the refusal mentions "hỗ trợ". A new conversation is not stored. An existing one ends with the user message then the refusal. A record is written exactly when there is a user id. |
| Chat.TripwireGuardrails | app/router/chat.py:136-144 | On a tripwire the checks are Relevance then Jailbreak, and exactly the tripped one failed, with its reasoning. |
| Chat.RaisedTurn | app/router/chat.py:123-130 | When the run raises anything but the tripwire, the caller gets a 500 and no record is written; an existing conversation keeps the unanswered user message in the store through aliasing, and a new one is lost. |
| Chat.AnsweredUnlessRaised | app/router/chat.py:127-130 | A turn fails exactly when it runs and the run raises something other than the tripwire. |
| Chat.CompletedTurn | app/router/chat.py:177-228 | On success the messages are those of the items. The agent returned and saved is the last handoff's target, or the starting agent with no handoff. The store holds the run's input list and context. Both final checks passed, without reasoning. |
| Chat.ContextUpdatePlacement | app/router/chat.py:208-213 | At most one context_update event, and only as the last event. It is there exactly when the context changed. It is attributed to the final agent and lists the changed fields. |
| Chat.CompletedRecordAndFlag | app/router/chat.py:231-253 | A record is written exactly when there is a user id and the last message is non-empty; it holds that message and its agent. The support flag is set exactly when some message mentions "support" or "hỗ trợ". |
| Chat.TurnKeepsAgentNames | app/router/chat.py:215-217 | If every stored session names an agent before a turn, every one does after it. |
| Chat.WrittenTurnReadsBack | app/router/chat.py:235-243 | A written turn, read back by conversation, shows the question and then the answer under the turn's agent, with the answer as the reply. |
| Chat.GetConversationView | app/router/chat.py:274-323 | The served view: a blank id gives the error body and no records the empty body. Otherwise the body has the entries, their count, the last answer as reply and its support flag (`Chat.ConversationView`). |
| Chat.ConversationViewAgrees | app/router/chat.py:274-323 | The served view refuses an all-white-space id. Otherwise, when there are records, it shows the same entries, count (two per record) and reply as the shadowed chat-history handler. |
| Agents.GetAgentByName | app/router/chat.py:54-62 | The lookup gives the info agent exactly for its name and triage for every other name. |
| Agents.ResumeAgent | app/router/chat.py:54-62 | A session saved under the price or a support agent resumes at triage; triage and info resume where they were. |
| Agents.HumaniseShape | app/router/chat.py:70-73 | A name made from an identifier keeps its length, turns each "_" into a space and keeps other non-letters; a letter after a letter is lower-cased and any other letter upper-cased, so no "_" is left. |
| Agents.GuardrailDisplayNameInjective | app/router/chat.py:64-74 | The two guardrails have different display names, so finding a check by name finds that guardrail's check. |
| Agents.AllAgentsComplete | app/agent/triage_agent.py:23-82 | The registry has exactly five agents. |
| Agents.AgentGraph.constructor | app/agent/triage_agent.py:70-75 | Before the module-level appends, triage hands off to info, price, support-error and support-technical, and the specialists to nobody. |
| Agents.AgentGraph.LinkBackToTriage | app/agent/triage_agent.py:79-82 | Each specialist's handoffs get triage appended; triage's own list is unchanged. |
| Agents.BuildTopology | app/agent/triage_agent.py:70-82 | After import the graph is exactly `Agents.Topology`. |
| Agents.TopologyShape | app/agent/triage_agent.py:70-82 | Triage hands off to the four specialists in order. Each specialist hands off only back to triage. There is no self-loop and every agent has a list. |
| AgentContext.InitialContext | app/agent/formatter_agent.py:9-11 | The initial context has every field unset. |
| AgentContext.DiffExact | app/router/chat.py:208-209 | The changes name exactly the fields whose value differs, each once, with its new value, in field order. |
| AgentContext.DiffEmptyIff | app/router/chat.py:209-210 | There are no changes exactly when the context is unchanged. |
| Models.ParseChatRequest | app/entities/models.py:5-8 | A body parses exactly when `message` is a string and each id is absent, null or a string. A missing id becomes None. A failure is 422. |
| Models.ConvertEmptyStringToNoneSpec | app/entities/models.py:73-78 | Exactly "", None and "null" become None. Every other value, "NULL" among them, is kept unchanged. |
| Models.ConvertEmptyStringToNoneIdempotent | app/entities/models.py:76-78 | Applying the validator twice equals applying it once. |
| Models.StripStrings | app/entities/models.py:80-85 | A string becomes its stripped text; anything else passes through unchanged. |
| Models.StripStringsIdempotent | app/entities/models.py:83-85 | Stripping twice equals stripping once. |
| Models.ParseReport | app/entities/models.py:65-85 | A report body parses exactly when each required field is a string and each optional field is absent, null or a string. A failure is 422. |
| Models.RequiredFieldStripped | app/entities/models.py:80-85 | A parsed required field is already stripped. |
| Models.NullableFieldNormalised | app/entities/models.py:73-78 | A parsed optional field is never "" or "null"; any other string is kept as given. |
| Models.ParsedReportNormalised | app/entities/models.py:65-85 | A parsed report has its three text fields stripped and no "" or "null" in an optional field. |
| Models.NatToString | app/router/technical_error.py:130 | `str` of a natural number is a non-empty string of digits. |
| TechnicalError.StripIfSet | app/router/technical_error.py:86-88 | An optional value is kept, stripped, exactly when it is truthy, and is None otherwise. |
| TechnicalError.ContactCheckedFirst | app/router/technical_error.py:51-56 | Without a truthy phone or email the report is refused with 400 and the contact message, whatever else it holds. |
| TechnicalError.RequiredFieldsInOrder | app/router/technical_error.py:59-78 | With a contact, the first blank of name, organization and error_content decides the 400 and its message. |
| TechnicalError.CreateOutcome | app/router/technical_error.py:82-111 | A 400 comes exactly when a guard fails. Success comes exactly when every guard passes and the database returns true. A false return is the save-failed 500; a raise is the generic 500. |
| TechnicalError.StoredStripped | app/router/technical_error.py:82-89 | What is written has no surrounding white space. An optional field is None exactly when the report's was falsy. |
| TechnicalError.WhitespacePhoneStoredEmpty | app/router/technical_error.py:51-86 | A phone of spaces alone passes the contact guard and is handed to the save call with the phone "". |
| TechnicalError.WhitespacePhoneSaveFails | app/data/database.py:85-104 | With a save that refuses a record lacking both phone and email, that report gets the save-failed 500 and nothing is written. |
| TechnicalError.ParsedFieldsStoredAsParsed | app/router/technical_error.py:82-85 | For a body FastAPI accepts, the handler writes the required fields as they were parsed, and the POST is the handler on the parsed report. |
| TechnicalError.ClampLimit | app/router/technical_error.py:119-120 | A limit in 1..100 is kept; any other becomes 50. |
| TechnicalError.ClampOffset | app/router/technical_error.py:122-123 | The offset used is the least value that is neither negative nor below the one asked for. |
| TechnicalError.ShowIdSpec | app/router/technical_error.py:129-131 | The shown document has no `_id`. Its `id` is the string form of the old `_id`. Every other field is kept. |
| TechnicalError.ShowIdIdempotent | app/router/technical_error.py:129-131 | Showing the id twice is showing it once. |
| TechnicalError.ShowIds | app/router/technical_error.py:128-131 | Every document of the list is shown, none dropped. |
| TechnicalError.ListReports | app/router/technical_error.py:113-138 | The listing fetches with the clamped limit and offset. Each fetched report, in order, has its id shown in place. `total` is the number of reports. |
| TechnicalError.ListingShowsIds | app/router/technical_error.py:128-135 | No listed report has an `_id`; each one carries its old `_id` as a string `id`. |
| TechnicalError.GetReport | app/router/technical_error.py:147-169 | A missing or empty document is a 404 with the not-found message (the 404 survives the catch blocks); a found one is returned with no `_id`. |
| TechnicalError.GetAgreesWithListing | app/router/technical_error.py:161-164 | A fetched report is shown the same way by the single-report and the listing handlers. |
| ChatHistory.ExpandedAt | app/router/chat_history.py:55-70 | Each record gives exactly two entries, the question then the answer, in record order. |
| ChatHistory.ExpandRecords | app/router/chat_history.py:55-70 | The loop builds exactly the expanded list. |
| ChatHistory.ReversedAt | app/router/chat_history.py:72-73 | After the reverse, records come in the opposite order to the store's, and inside each record the answer precedes the question. |
| ChatHistory.LastAssistantSpec | app/router/chat_history.py:76-81 | The reply is the content of the last assistant entry, or "" when there is none. |
| ChatHistory.ScanReply | app/router/chat_history.py:76-81 | The backward scan with `break` finds exactly that reply. |
| ChatHistory.ExpandedReply | app/router/chat_history.py:116-137 | In record order, the reply is the last record's answer. |
| ChatHistory.ReversedReply | app/router/chat_history.py:72-81 | In the reversed user history, the reply is the answer of the first record the store returned. |
| ChatHistory.SupportFlagIff | app/router/chat_history.py:84-86 | The flag is set exactly when the reply mentions "support" or "hỗ trợ"; the non-empty test changes nothing. |
| ChatHistory.CatchAll | app/router/chat_history.py:99-101 | Every error raised in the `try`, HTTPException included, becomes 500; a success is kept. |
| ChatHistory.DateBounds | app/router/chat_history.py:20-36 | A date that is set but does not parse is an error, with the start date's message when that one fails and the end date's otherwise. A parsed start date is at midnight; a parsed end date is moved to 23:59:59. An unset or empty date is no bound. |
| ChatHistory.GetUserChatHistory | app/router/chat_history.py:11-101 | The handler gives exactly `ChatHistory.UserHistoryResponse`. |
| ChatHistory.UserHistoryShape | app/router/chat_history.py:38-97 | `total` is twice the number of records and equals the entries shown. `has_more` holds exactly when the store filled the page. An empty result has total 0, no page keys and no more pages. Otherwise the reply is the first record's answer. |
| ChatHistory.BadDateIsInternalError | app/router/chat_history.py:24-101 | A malformed start date reaches the caller as 500, not 400. |
| ChatHistory.UserHistoryPageValidated | app/router/chat_history.py:14-15 | Out-of-range paging is refused with 422; every other failure is 500. |
| ChatHistory.GetConversationHistory | app/router/chat_history.py:103-150 | The handler gives exactly `ChatHistory.ConversationResponse`. |
| ChatHistory.ConversationShape | app/router/chat_history.py:108-150 | `total_messages` is twice the number of records. The reply and flag come from the last record's answer. No entry carries a conversation id. |
| ChatHistory.StatisticsResponse | app/router/chat_history.py:156-177 | `days` outside 1..365 is 422. Empty statistics give zero totals, empty lists and the requested period. Otherwise the store's statistics are returned under the user id. |
| ChatHistory.SearchChatHistory | app/router/chat_history.py:183-253 | The handler gives exactly `ChatHistory.SearchResponse`. |
| ChatHistory.SearchShape | app/router/chat_history.py:190-249 | A blank term is answered with 500, never 400, without asking the store. Otherwise results come two per record, and the reply is the last record's answer. |
| ChatHistory.DeleteNeverNotFound | app/router/chat_history.py:255-287 | A delete succeeds exactly when the store deleted something. Otherwise the 404 it raises is turned into 500. |
| MultiIntent.IntentsUnfold | app/agent/multi_intent_agent.py:17-29 | The intents are the four keyword tests one after the other. |
| MultiIntent.CollectMembers | app/agent/multi_intent_agent.py:17-27 | An intent has a pair exactly when its keyword group is checked and raised. |
| MultiIntent.CollectTexts | app/agent/multi_intent_agent.py:18-27 | Each pair carries its intent's text; there is at most one pair per checked intent. |
| MultiIntent.CollectOrdered | app/agent/multi_intent_agent.py:17-27 | Pairs come in the order in which the keyword groups are checked. |
| MultiIntent.IntentsSpec | app/agent/multi_intent_agent.py:9-29 | An intent appears exactly when one of its keywords occurs in the lower-cased query, at most once. The order is info, price, support-error, support-technical, and there are at most four. Info and price carry canned questions; the others carry the original query. No keyword gives []. |
| MultiIntent.SplitIntents | app/agent/multi_intent_agent.py:9-29 | The successive appends build exactly `MultiIntent.Intents`. |
| MultiIntent.ResponsesAppend | app/agent/multi_intent_agent.py:46-54 | The responses of consecutive sub-queries are the concatenated responses, so intent order is kept. |
| MultiIntent.ResponsesEmptyIff | app/agent/multi_intent_agent.py:46-56 | No response survives exactly when no sub-query produced one; there is never more than one per sub-query. |
| MultiIntent.CallAgentsForQuery | app/agent/multi_intent_agent.py:32-59 | The loop and merge give exactly `MultiIntent.MergedAnswer`: the apology for no responses, else the responses joined with a blank line. |
| MultiIntent.NoIntentGivesApology | app/agent/multi_intent_agent.py:56-57 | A query that raises no intent is answered with the apology, whatever the agents do. |
| MultiIntent.SingleFailureText | app/agent/multi_intent_agent.py:53-59 | A single sub-query whose agent raises yields exactly "[Lỗi khi gọi {intent}]: {msg}". |
| MultiIntent.MergeParts | app/agent/multi_intent_agent.py:56-59 | The merged answer holds every response in order, each at its offset, with a blank line between neighbours. |
| MultiIntent.ResponsesSingle | app/agent/multi_intent_agent.py:46-54 | One sub-query yields the response that sub-query gives. |
| Triage.SeparatorCountIsSum | app/agent/triage_agent.py:19 | The total is the non-overlapping counts of "và", "với", "," and "cùng", added up. |
| Triage.OccurringSeparatorCounts | app/agent/triage_agent.py:19 | A separator that occurs is counted at least once. |
| Triage.NoSeparatorDefers | app/agent/triage_agent.py:21 | With no separator, `run` defers to the inherited run. |
| Triage.TwoSeparatorsGoMulti | app/agent/triage_agent.py:19-20 | Two different separators that both occur select the multi-intent answer. |
| Triage.SeparatorTwiceGoesMulti | app/agent/triage_agent.py:19-20 | One separator occurring twice without overlap also selects the multi-intent answer. |
| Triage.CommaListGoesMulti | app/agent/triage_agent.py:19-20 | "a, b, c", with two commas and no other separator, selects the multi-intent answer. |
| Triage.SeparatorsWithoutKeywordApologise | app/agent/triage_agent.py:19-20 | Two or more separators but no keyword give the apology. |
| Text.StripEmptyIff | app/router/chat.py:106 | A string strips to "" exactly when it is all white space. |
| Text.StripIdempotent | app/entities/models.py:84 | Stripping twice is stripping once. |
| Text.TrimLeft | app/entities/models.py:84 | `lstrip` drops exactly the leading white space. |
| Text.TrimRight | app/entities/models.py:84 | `rstrip` drops exactly the trailing white space. |
| Text.LowerIdempotent | app/agent/multi_intent_agent.py:14 | Lower-casing twice is lower-casing once. |
| Text.ContainsIff | app/router/chat.py:252 | `sub in s` holds exactly when `sub` occurs at some index. |
| Text.Count | app/agent/triage_agent.py:19 | Non-overlapping occurrences never exceed the length of `s` divided by the length of `sub`. |
| Text.CountPositiveIff | app/agent/triage_agent.py:19 | A count is positive exactly when the substring occurs. |
| Text.CountTwoDisjoint | app/agent/triage_agent.py:19 | Two occurrences that do not overlap make the count at least 2. |
| Text.JoinLength | app/agent/multi_intent_agent.py:59 | The join has every part and one separator between neighbours. |
| Text.JoinParts | app/agent/multi_intent_agent.py:59 | Each part sits in the join at the summed length of the parts and separators before it, the separator follows every part but the last, and the last part ends the text. |
| Text.PartOffsetIsSum | app/agent/multi_intent_agent.py:59 | A part's offset is the total length of the earlier parts plus one separator per earlier part. |
| Text.ReplaceChar | app/router/chat.py:70 | Each `_` becomes a space; every other character is kept. |
| Text.TitleFrom | app/router/chat.py:70 | `title` keeps the length and every non-letter; a letter right after a letter is lower-cased and any other letter upper-cased. |

## Left out

- The database, S3 and the agent SDK are not part of this model. Their calls
  are the parameters `runner`, `fetch`, `search`, `save`, `call` and `base`.
  Sorting, skip/limit, regex search and aggregation belong to MongoDB.
- Ids from `uuid4`, `time.time()` timestamps and `datetime` values are
  parameters or are dropped. `GuardrailCheck.id`, `AgentEvent.id` and the
  timestamps carry no logic.
- `async`/`await` and the unsynchronised class-level dict: turns are
  modelled one after another, so the lost-update race between concurrent
  turns is not modelled.
- `Text.Lower` covers ASCII and the Vietnamese letters the keywords use.
  `Text.Title` covers ASCII letters only. Neither is full Unicode case
  mapping.
- Logging is not modelled. Errors raised by `save_chat` are caught and
  logged by `chat_endpoint`, so the model hands the record out and ignores
  the outcome.
- On a tripwire the SDK may already have changed the context object in
  place. The model keeps the context as it was before the run.
- The `agents` field of `ChatResponse` (`_build_agents_list`) is not
  modelled. It is a descriptive list of the agents' names, handoffs, tools
  and guardrails, and no decision depends on it.
- The catch-all `except` of chat.py's conversation view is not modelled.
  The store answers `[]` on its own errors, so nothing in the `try` can
  raise. The same holds for the catch-all of the report listing.
- `get_technical_error_report_by_id` answers None for an id that is not an
  ObjectId. The model's `fetch` gives None for such an id, so it is a 404.
- The database behind `save` is a parameter. Its own contact check in
  `save_technical_error_report` is stated as the predicate
  `TechnicalError.RefusesWithoutContact`, and only
  `TechnicalError.WhitespacePhoneSaveFails` assumes it.
- `SmartTriageAgent.run` is modelled on its own as `Triage.Run`.
  `chat_endpoint` calls `Runner.run` directly and never reaches it. The
  inherited `Agent.run` is the parameter `base`.
- The route clash of app/main.py:22,25: chat.py's
  `GET /history/conversation/{id}` is registered first and is the one
  served (`Chat.ConversationView`). chat_history.py's handler is modelled
  as written (`ChatHistory.ConversationResponse`).
- The debug endpoints of `app/router/chat.py` and
  `app/router/technical_error.py` are not modelled.
- The prompts, models and tools of the agents are not part of this model;
  only the names, guardrails and handoffs are.
- On a tripwire the code does not save the session. An existing session
  still changes in the store through aliasing, and a new one is lost.
- Several intended 400/404 answers are raised inside a `try` whose
  catch-all turns them into 500: a bad date, a blank search term, and a
  delete that removed nothing. The model follows the code
  (`ChatHistory.BadDateIsInternalError`, `ChatHistory.SearchShape`,
  `ChatHistory.DeleteNeverNotFound`).

