/**
 * app/router/chat.py: the in-memory conversation store and one turn of
 * `chat_endpoint`, from resolving the session to the response, the saved
 * session and the history record handed to the chat-history store; and the
 * conversation view this router serves at /history/conversation/{id}.
 *
 * The agent runtime (`Runner.run`) is the parameter `runner`, `json.loads`
 * is `parse`, and the id `uuid4().hex` would produce is `freshId`.
 */
module Chat {
  import opened Wrappers
  import opened Text
  import opened Models
  import opened AgentContext
  import opened Agents
  import opened ChatHistory

  // ---------------------------------------------------------------------
  // What the runner takes and returns
  // ---------------------------------------------------------------------

  /** An entry of `input_items`: the user's message, the refusal, or an item
      of the runner's own `to_input_list()`. */
  datatype InputItem = UserInput(content: string) | AssistantInput(content: string) | RunInput(raw: Json)

  /** The items of `result.new_items` the endpoint tells apart. */
  datatype RunItem =
    | MessageOutput(agent: AgentId, text: string)
    | HandoffOutput(source: AgentId, target: AgentId)
    | ToolCall(agent: AgentId, toolName: Option<string>, arguments: Json)
    | ToolCallOutput(agent: AgentId, output: Json)
    | OtherItem

  /** `Runner.run` raises `InputGuardrailTripwireTriggered` (which
      guardrail, and its `reasoning`), completes with the new items, the
      next input list and the context as the run left it, or raises
      anything else, which `chat_endpoint` does not catch. */
  datatype RunOutcome =
    | Tripwire(failed: Guardrail, reasoning: string)
    | Completed(newItems: seq<RunItem>, inputList: seq<InputItem>, context: Context)
    | Raised

  type Runner = (AgentId, seq<InputItem>, Context) -> RunOutcome

  // ---------------------------------------------------------------------
  // Response shapes
  // ---------------------------------------------------------------------

  datatype EventKind = MessageEvent | HandoffEvent | ToolCallEvent | ToolOutputEvent | ContextUpdateEvent

  datatype Metadata =
    | NoMetadata
    | HandoffAgents(sourceAgent: string, targetAgent: string)
    | ToolArgs(args: Json)
    | ToolResult(result: Json)
    | ContextChanges(changes: seq<Change>)

  /** `AgentEvent` without its random id and timestamp. */
  datatype AgentEvent = AgentEvent(kind: EventKind, agent: string, content: string, metadata: Metadata)

  datatype MessageResponse = MessageResponse(content: string, reply: string, agent: string)

  /** `GuardrailCheck` without its random id and timestamp. */
  datatype GuardrailCheck = GuardrailCheck(name: string, input: string, reasoning: string, passed: bool)

  /** `ChatResponse`; `requiresSupportForm` is the one key `metadata` can hold.
      The constant `agents` description list is not carried. */
  datatype ChatResponse = ChatResponse(
    conversationId: string,
    currentAgent: string,
    messages: seq<MessageResponse>,
    events: seq<AgentEvent>,
    context: Context,
    guardrails: seq<GuardrailCheck>,
    reply: string,
    requiresSupportForm: bool)

  /** What the server answers when an exception escapes the handler. */
  const ServerError: HttpError := HttpError(500, "Internal Server Error")

  datatype HistoryEvents = TurnEvents(events: seq<AgentEvent>) | GuardrailFailed(guardrail: string)

  /** The arguments of one `ChatHistoryService.save_chat` call. */
  datatype HistoryRecord = HistoryRecord(
    conversationId: string,
    userId: string,
    question: string,
    answer: string,
    agent: string,
    context: Context,
    events: HistoryEvents)

  /** The answer given when an input guardrail trips, written around the
      "hỗ trợ" it contains. */
  const Refusal: string := RefusalHead + HoTro + " các chủ đề liên quan đến công ty và dịch vụ."
  const RefusalHead: string := "Xin lỗi, tôi chỉ có thể "

  // ---------------------------------------------------------------------
  // The store
  // ---------------------------------------------------------------------

  /** The three keys of a session dict, as a value. */
  datatype SessionState = SessionState(inputItems: seq<InputItem>, context: Context, currentAgent: string)

  function NewSessionState(): SessionState {
    SessionState([], InitialContext(), Name(Triage))
  }

  /** A session dict; the store holds it by reference, so changes made to it
      after `get` are seen by later turns without a `save`. */
  class Session {
    var inputItems: seq<InputItem>
    var context: Context
    var currentAgent: string

    function State(): SessionState
      reads this
    {
      SessionState(inputItems, context, currentAgent)
    }

    constructor ()
      ensures State() == NewSessionState()
    {
      inputItems := [];
      context := InitialContext();
      currentAgent := Name(Triage);
    }
  }

  /** No session dict is filed under two ids. */
  predicate Distinct(conversations: map<string, Session>) {
    forall a, b | a in conversations && b in conversations && a != b :: conversations[a] != conversations[b]
  }

  /** Every session names its current agent by an agent's name. */
  predicate AgentNames(view: map<string, SessionState>) {
    forall id | id in view :: IsAgentName(view[id].currentAgent)
  }

  /** `InMemoryConversationStore`. */
  class ConversationStore {
    var conversations: map<string, Session>

    /** The sessions' contents by conversation id. */
    function View(): map<string, SessionState>
      reads this, conversations.Values
    {
      map id | id in conversations :: conversations[id].State()
    }

    /** Each conversation has its own session dict, and each names its
        current agent by an agent's name. */
    ghost predicate Valid()
      reads this, conversations.Values
    {
      Distinct(conversations) && AgentNames(View())
    }

    constructor ()
      ensures conversations == map[]
    {
      conversations := map[];
    }

    method Get(id: string) returns (s: Option<Session>)
      ensures s == if id in conversations then Some(conversations[id]) else None
      ensures s.None? <==> id !in View()
      ensures s.Some? ==> s.value.State() == View()[id]
    {
      s := if id in conversations then Some(conversations[id]) else None;
    }

    method Save(id: string, s: Session)
      modifies this
      ensures conversations == old(conversations)[id := s]
    {
      conversations := conversations[id := s];
    }
  }

  // ---------------------------------------------------------------------
  // The item loop
  // ---------------------------------------------------------------------

  /** The tool arguments shown: a string is parsed as JSON and kept as it
      is when it does not parse; anything else is kept. */
  function ToolArguments(raw: Json, parse: string -> Option<Json>): Json {
    if raw.JStr? then parse(raw.s).GetOr(raw) else raw
  }

  function ItemMessages(item: RunItem): seq<MessageResponse> {
    match item
    case MessageOutput(a, t) => [MessageResponse(t, t, Name(a))]
    case _ => []
  }

  function ItemEvents(item: RunItem, parse: string -> Option<Json>): seq<AgentEvent> {
    match item
    case MessageOutput(a, t) => [AgentEvent(MessageEvent, Name(a), t, NoMetadata)]
    case HandoffOutput(s, t) =>
      [AgentEvent(HandoffEvent, Name(s), Name(s) + " -> " + Name(t), HandoffAgents(Name(s), Name(t)))]
    case ToolCall(a, tool, args) =>
      [AgentEvent(ToolCallEvent, Name(a), tool.GetOr(""), ToolArgs(ToolArguments(args, parse)))]
    case ToolCallOutput(a, out) => [AgentEvent(ToolOutputEvent, Name(a), PyStr(out), ToolResult(out))]
    case OtherItem => []
  }

  function MessagesOf(items: seq<RunItem>): seq<MessageResponse> {
    if items == [] then [] else MessagesOf(items[..|items| - 1]) + ItemMessages(items[|items| - 1])
  }

  function EventsOf(items: seq<RunItem>, parse: string -> Option<Json>): seq<AgentEvent> {
    if items == [] then [] else EventsOf(items[..|items| - 1], parse) + ItemEvents(items[|items| - 1], parse)
  }

  /** The current agent after the loop: moved to the target of each handoff. */
  function FinalAgent(start: AgentId, items: seq<RunItem>): AgentId {
    if items == [] then start
    else if items[|items| - 1].HandoffOutput? then items[|items| - 1].target
    else FinalAgent(start, items[..|items| - 1])
  }

  /** The loop over `result.new_items`. */
  method ProcessItems(items: seq<RunItem>, start: AgentId, parse: string -> Option<Json>)
    returns (messages: seq<MessageResponse>, events: seq<AgentEvent>, current: AgentId)
    ensures messages == MessagesOf(items)
    ensures events == EventsOf(items, parse)
    ensures current == FinalAgent(start, items)
  {
    messages, events, current := [], [], start;
    var k := 0;
    while k < |items|
      invariant 0 <= k <= |items|
      invariant messages == MessagesOf(items[..k])
      invariant events == EventsOf(items[..k], parse)
      invariant current == FinalAgent(start, items[..k])
    {
      var item := items[k];
      match item {
        case MessageOutput(a, t) =>
          messages := messages + [MessageResponse(t, t, Name(a))];
          events := events + [AgentEvent(MessageEvent, Name(a), t, NoMetadata)];
        case HandoffOutput(s, t) =>
          events := events + [AgentEvent(HandoffEvent, Name(s), Name(s) + " -> " + Name(t), HandoffAgents(Name(s), Name(t)))];
          current := t;
        case ToolCall(a, tool, args) =>
          var shown := args;
          if args.JStr? {
            var parsed := parse(args.s);
            if parsed.Some? {
              shown := parsed.value;
            }
          }
          events := events + [AgentEvent(ToolCallEvent, Name(a), tool.GetOr(""), ToolArgs(shown))];
        case ToolCallOutput(a, out) =>
          events := events + [AgentEvent(ToolOutputEvent, Name(a), PyStr(out), ToolResult(out))];
        case OtherItem =>
      }
      assert items[..k + 1][..k] == items[..k];
      k := k + 1;
    }
    assert items[..k] == items;
  }

  /** Item `k` is a handoff and no handoff follows it. */
  predicate IsLastHandoff(items: seq<RunItem>, k: int) {
    0 <= k < |items| && items[k].HandoffOutput?
    && forall j | k < j < |items| :: !items[j].HandoffOutput?
  }

  /** The agent saved and returned is the target of the last handoff, or the
      agent the turn started with when there was no handoff. */
  lemma {:induction false} FinalAgentIsLastHandoff(start: AgentId, items: seq<RunItem>)
    ensures (forall k | 0 <= k < |items| :: !items[k].HandoffOutput?) ==> FinalAgent(start, items) == start
    ensures forall k | IsLastHandoff(items, k) :: FinalAgent(start, items) == items[k].target
  {
    if items != [] {
      var init := items[..|items| - 1];
      FinalAgentIsLastHandoff(start, init);
      forall k | IsLastHandoff(items, k) ensures FinalAgent(start, items) == items[k].target {
        if k < |items| - 1 {
          assert IsLastHandoff(init, k);
        }
      }
    }
  }

  /** The message events of an event list, in order. */
  function MessageEvents(events: seq<AgentEvent>): seq<AgentEvent> {
    if events == [] then []
    else MessageEvents(events[..|events| - 1]) + (if events[|events| - 1].kind == MessageEvent then [events[|events| - 1]] else [])
  }

  lemma {:induction false} MessageEventsAppend(a: seq<AgentEvent>, b: seq<AgentEvent>)
    ensures MessageEvents(a + b) == MessageEvents(a) + MessageEvents(b)
    decreases |b|
  {
    if b == [] {
      assert a + b == a;
    } else {
      assert (a + b)[..|a + b| - 1] == a + b[..|b| - 1];
      MessageEventsAppend(a, b[..|b| - 1]);
    }
  }

  /** The "message" event a message response goes with. */
  function AsEvent(m: MessageResponse): AgentEvent {
    AgentEvent(MessageEvent, m.agent, m.content, NoMetadata)
  }

  function AsEvents(messages: seq<MessageResponse>): seq<AgentEvent> {
    seq(|messages|, i requires 0 <= i < |messages| => AsEvent(messages[i]))
  }

  /** Each message item yields one message response and one "message" event
      with the same text and agent, in the same order, and no other item
      yields either. */
  lemma {:induction false} MessagesMatchEvents(items: seq<RunItem>, parse: string -> Option<Json>)
    ensures MessageEvents(EventsOf(items, parse)) == AsEvents(MessagesOf(items))
  {
    if items != [] {
      var init := items[..|items| - 1];
      var last := items[|items| - 1];
      MessagesMatchEvents(init, parse);
      MessageEventsAppend(EventsOf(init, parse), ItemEvents(last, parse));
      ItemMessageEvents(last, parse);
      AsEventsAppend(MessagesOf(init), ItemMessages(last));
    }
  }

  lemma ItemMessageEvents(item: RunItem, parse: string -> Option<Json>)
    ensures MessageEvents(ItemEvents(item, parse)) == AsEvents(ItemMessages(item))
  {
    var e := ItemEvents(item, parse);
    if |e| == 1 {
      assert e[..0] == [];
    }
  }

  lemma AsEventsAppend(a: seq<MessageResponse>, b: seq<MessageResponse>)
    ensures AsEvents(a + b) == AsEvents(a) + AsEvents(b)
  {
  }

  /** A message response repeats its content as its reply. */
  lemma {:induction false} MessagesReplyIsContent(items: seq<RunItem>)
    ensures forall k | 0 <= k < |MessagesOf(items)| :: MessagesOf(items)[k].reply == MessagesOf(items)[k].content
  {
    if items != [] {
      MessagesReplyIsContent(items[..|items| - 1]);
    }
  }

  /** No item yields a context_update event. */
  lemma {:induction false} NoContextEventFromItems(items: seq<RunItem>, parse: string -> Option<Json>)
    ensures forall k | 0 <= k < |EventsOf(items, parse)| :: EventsOf(items, parse)[k].kind != ContextUpdateEvent
  {
    if items != [] {
      var init := items[..|items| - 1];
      NoContextEventFromItems(init, parse);
      var e := EventsOf(items, parse);
      forall k | 0 <= k < |e| ensures e[k].kind != ContextUpdateEvent {
        if k < |EventsOf(init, parse)| {
          assert e[k] == EventsOf(init, parse)[k];
        }
      }
    }
  }

  /** The context_update event: present when some field changed, attributed
      to the final agent, holding the changed fields. */
  function ContextEvent(before: Context, after: Context, current: AgentId): seq<AgentEvent> {
    var changes := Diff(before, after);
    if changes != [] then [AgentEvent(ContextUpdateEvent, Name(current), "", ContextChanges(changes))] else []
  }

  // ---------------------------------------------------------------------
  // Guardrail checks
  // ---------------------------------------------------------------------

  /** The checks built on a tripwire, one per guardrail in order. */
  function TripwireChecksOf(guardrails: seq<Guardrail>, failed: Guardrail, reasoning: string, input: string): seq<GuardrailCheck> {
    if guardrails == [] then []
    else
      var g := guardrails[|guardrails| - 1];
      TripwireChecksOf(guardrails[..|guardrails| - 1], failed, reasoning, input)
        + [GuardrailCheck(GuardrailDisplayName(g), input, if g == failed then reasoning else "", g != failed)]
  }

  method TripwireChecks(guardrails: seq<Guardrail>, failed: Guardrail, reasoning: string, input: string)
    returns (checks: seq<GuardrailCheck>)
    ensures checks == TripwireChecksOf(guardrails, failed, reasoning, input)
  {
    checks := [];
    var k := 0;
    while k < |guardrails|
      invariant 0 <= k <= |guardrails|
      invariant checks == TripwireChecksOf(guardrails[..k], failed, reasoning, input)
    {
      var g := guardrails[k];
      checks := checks + [GuardrailCheck(GuardrailDisplayName(g), input, if g == failed then reasoning else "", g != failed)];
      assert guardrails[..k + 1][..k] == guardrails[..k];
      k := k + 1;
    }
    assert guardrails[..k] == guardrails;
  }

  /** One check per guardrail, in order: it passed exactly when it is not
      the guardrail that tripped, and only the tripped one has reasoning. */
  lemma {:induction false} TripwireChecksSpec(guardrails: seq<Guardrail>, failed: Guardrail, reasoning: string, input: string)
    ensures var c := TripwireChecksOf(guardrails, failed, reasoning, input);
      && |c| == |guardrails|
      && forall k | 0 <= k < |c| ::
        && c[k].name == GuardrailDisplayName(guardrails[k])
        && c[k].input == input
        && (c[k].passed <==> guardrails[k] != failed)
        && c[k].reasoning == (if guardrails[k] == failed then reasoning else "")
  {
    if guardrails != [] {
      var init := guardrails[..|guardrails| - 1];
      TripwireChecksSpec(init, failed, reasoning, input);
      forall k | 0 <= k < |init| ensures init[k] == guardrails[k] {
      }
    }
  }

  /** `next((gc for gc in checks if gc.name == name), None)`. */
  function FindCheck(checks: seq<GuardrailCheck>, name: string): (r: Option<GuardrailCheck>)
    ensures r.Some? ==> r.value in checks && r.value.name == name
    ensures r.None? ==> forall k | 0 <= k < |checks| :: checks[k].name != name
  {
    if checks == [] then None
    else if checks[0].name == name then Some(checks[0])
    else FindCheck(checks[1..], name)
  }

  /** The final checks: an earlier check of the same name is reused, any
      other guardrail gets a passed check with no reasoning. */
  function FinalChecksOf(guardrails: seq<Guardrail>, earlier: seq<GuardrailCheck>, input: string): seq<GuardrailCheck> {
    if guardrails == [] then []
    else
      var name := GuardrailDisplayName(guardrails[|guardrails| - 1]);
      FinalChecksOf(guardrails[..|guardrails| - 1], earlier, input)
        + [FindCheck(earlier, name).GetOr(GuardrailCheck(name, input, "", true))]
  }

  method FinalGuardrails(guardrails: seq<Guardrail>, earlier: seq<GuardrailCheck>, input: string)
    returns (checks: seq<GuardrailCheck>)
    ensures checks == FinalChecksOf(guardrails, earlier, input)
  {
    checks := [];
    var k := 0;
    while k < |guardrails|
      invariant 0 <= k <= |guardrails|
      invariant checks == FinalChecksOf(guardrails[..k], earlier, input)
    {
      var name := GuardrailDisplayName(guardrails[k]);
      var found := FindCheck(earlier, name);
      if found.Some? {
        checks := checks + [found.value];
      } else {
        checks := checks + [GuardrailCheck(name, input, "", true)];
      }
      assert guardrails[..k + 1][..k] == guardrails[..k];
      k := k + 1;
    }
    assert guardrails[..k] == guardrails;
  }

  /** With no earlier checks, as on the endpoint's success path, every
      guardrail of the final agent is reported passed, without reasoning. */
  lemma {:induction false} FinalChecksAllPassed(guardrails: seq<Guardrail>, input: string)
    ensures var c := FinalChecksOf(guardrails, [], input);
      && |c| == |guardrails|
      && forall k | 0 <= k < |c| :: c[k] == GuardrailCheck(GuardrailDisplayName(guardrails[k]), input, "", true)
  {
    if guardrails != [] {
      var init := guardrails[..|guardrails| - 1];
      FinalChecksAllPassed(init, input);
      forall k | 0 <= k < |init| ensures init[k] == guardrails[k] {
      }
    }
  }

  // ---------------------------------------------------------------------
  // One turn, as a value
  // ---------------------------------------------------------------------

  /** `main_reply`: the content of the last message, or "". */
  function MainReply(messages: seq<MessageResponse>): string {
    if messages == [] then "" else messages[|messages| - 1].content
  }

  predicate AnySupport(messages: seq<MessageResponse>) {
    exists k | 0 <= k < |messages| :: MentionsSupport(messages[k].content)
  }

  function EmptyResponse(id: string): ChatResponse {
    ChatResponse(id, Name(Triage), [], [], InitialContext(), [], "", false)
  }

  function TripwireResponse(id: string, agent: AgentId, context: Context, failed: Guardrail, reasoning: string, message: string): ChatResponse {
    ChatResponse(id, Name(agent), [MessageResponse(Refusal, Refusal, Name(agent))], [], context,
      TripwireChecksOf(InputGuardrails(agent), failed, reasoning, message), Refusal, false)
  }

  function TripwireRecord(id: string, req: ChatRequest, agent: AgentId, context: Context, failed: Guardrail): Option<HistoryRecord> {
    if Truthy(req.userId) then
      Some(HistoryRecord(id, req.userId.value, req.message, Refusal, Name(agent), context, GuardrailFailed(GuardrailDisplayName(failed))))
    else None
  }

  function CompletedRecord(id: string, req: ChatRequest, messages: seq<MessageResponse>, context: Context, events: seq<AgentEvent>): Option<HistoryRecord> {
    var reply := MainReply(messages);
    if Truthy(req.userId) && reply != "" then
      Some(HistoryRecord(id, req.userId.value, req.message, reply, messages[|messages| - 1].agent, context, TurnEvents(events)))
    else None
  }

  /** What the turn does once the session is known: the response, the
      record, the session's contents afterwards, and whether it is saved. */
  datatype StepResult = StepResult(answer: Result<ChatResponse, HttpError>, record: Option<HistoryRecord>, after: SessionState, saved: bool)

  /** The run and what follows it, for the session `prior` filed under `id`. */
  function Step(id: string, prior: SessionState, req: ChatRequest, runner: Runner, parse: string -> Option<Json>): StepResult {
    var agent := GetAgentByName(prior.currentAgent);
    var items := prior.inputItems + [UserInput(req.message)];
    match runner(agent, items, prior.context)
    case Tripwire(failed, reasoning) =>
      StepResult(
        Success(TripwireResponse(id, agent, prior.context, failed, reasoning, req.message)),
        TripwireRecord(id, req, agent, prior.context, failed),
        SessionState(items + [AssistantInput(Refusal)], prior.context, prior.currentAgent),
        false)
    case Completed(newItems, inputList, ctx) =>
      var current := FinalAgent(agent, newItems);
      var messages := MessagesOf(newItems);
      var events := EventsOf(newItems, parse) + ContextEvent(prior.context, ctx, current);
      StepResult(
        Success(ChatResponse(id, Name(current), messages, events, ctx,
          FinalChecksOf(InputGuardrails(current), [], req.message), MainReply(messages), AnySupport(messages))),
        CompletedRecord(id, req, messages, ctx, events),
        SessionState(inputList, ctx, Name(current)),
        true)
    case Raised =>
      StepResult(Failure(ServerError), None, SessionState(items, prior.context, prior.currentAgent), false)
  }

  /** What one turn answers, which history record it writes, and the store's
      contents afterwards. */
  datatype TurnResult = TurnResult(answer: Result<ChatResponse, HttpError>, record: Option<HistoryRecord>, store: map<string, SessionState>)

  /** The request starts a new conversation: no id, or one the store lacks. */
  predicate IsNew(view: map<string, SessionState>, req: ChatRequest) {
    !Truthy(req.conversationId) || req.conversationId.value !in view
  }

  /** The session a turn starts from. */
  function Prior(view: map<string, SessionState>, req: ChatRequest): SessionState {
    if IsNew(view, req) then NewSessionState() else view[req.conversationId.value]
  }

  /** The turn runs an agent: it is not the blank first message. */
  predicate Runs(view: map<string, SessionState>, req: ChatRequest) {
    !(IsNew(view, req) && Strip(req.message) == "")
  }

  /** `chat_endpoint` on the store's contents. A session that is not saved
      still changes in the store when it was already there. */
  function Turn(view: map<string, SessionState>, req: ChatRequest, freshId: string, runner: Runner, parse: string -> Option<Json>): TurnResult {
    if !Runs(view, req) then
      TurnResult(Success(EmptyResponse(freshId)), None, view[freshId := NewSessionState()])
    else
      var id := if IsNew(view, req) then freshId else req.conversationId.value;
      var st := Step(id, Prior(view, req), req, runner, parse);
      TurnResult(st.answer, st.record, if st.saved || !IsNew(view, req) then view[id := st.after] else view)
  }

  /** A turn leaves the session's current agent an agent's name. */
  lemma StepKeepsAgentName(id: string, prior: SessionState, req: ChatRequest, runner: Runner, parse: string -> Option<Json>)
    requires IsAgentName(prior.currentAgent)
    ensures IsAgentName(Step(id, prior, req, runner, parse).after.currentAgent)
  {
    var agent := GetAgentByName(prior.currentAgent);
    var o := runner(agent, prior.inputItems + [UserInput(req.message)], prior.context);
    if o.Completed? {
      assert Step(id, prior, req, runner, parse).after.currentAgent == Name(FinalAgent(agent, o.newItems));
    }
  }

  // ---------------------------------------------------------------------
  // The endpoint
  // ---------------------------------------------------------------------

  /** The run and what follows it, on the session object. */
  method RunTurn(session: Session, id: string, req: ChatRequest, runner: Runner, parse: string -> Option<Json>)
    returns (answer: Result<ChatResponse, HttpError>, record: Option<HistoryRecord>, saved: bool)
    modifies session
    ensures Step(id, old(session.State()), req, runner, parse) == StepResult(answer, record, session.State(), saved)
  {
    var agent := GetAgentByName(session.currentAgent);
    session.inputItems := session.inputItems + [UserInput(req.message)];
    var outcome := runner(agent, session.inputItems, session.context);
    match outcome {
      case Tripwire(failed, reasoning) =>
        var response;
        response, record := OnTripwire(session, id, req, agent, failed, reasoning);
        answer, saved := Success(response), false;
      case Completed(newItems, inputList, ctx) =>
        var response;
        response, record := OnCompleted(session, id, req, agent, newItems, inputList, ctx, parse);
        answer, saved := Success(response), true;
      case Raised =>
        answer, record, saved := Failure(ServerError), None, false;
    }
  }

  /** The `except InputGuardrailTripwireTriggered` branch: the refusal is
      appended to the session's input and nothing else of it changes. */
  method OnTripwire(session: Session, id: string, req: ChatRequest, agent: AgentId, failed: Guardrail, reasoning: string)
    returns (response: ChatResponse, record: Option<HistoryRecord>)
    modifies session
    ensures response == TripwireResponse(id, agent, old(session.context), failed, reasoning, req.message)
    ensures record == TripwireRecord(id, req, agent, old(session.context), failed)
    ensures session.State() == SessionState(old(session.inputItems) + [AssistantInput(Refusal)], old(session.context), old(session.currentAgent))
  {
    var checks := TripwireChecks(InputGuardrails(agent), failed, reasoning, req.message);
    session.inputItems := session.inputItems + [AssistantInput(Refusal)];
    if Truthy(req.userId) {
      record := Some(HistoryRecord(id, req.userId.value, req.message, Refusal, Name(agent), session.context,
        GuardrailFailed(GuardrailDisplayName(failed))));
    } else {
      record := None;
    }
    response := ChatResponse(id, Name(agent), [MessageResponse(Refusal, Refusal, Name(agent))], [], session.context, checks, Refusal, false);
  }

  /** The success path: the context, the input list and the current agent
      are replaced by what the run returned. */
  method OnCompleted(session: Session, id: string, req: ChatRequest, agent: AgentId,
                     newItems: seq<RunItem>, inputList: seq<InputItem>, ctx: Context, parse: string -> Option<Json>)
    returns (response: ChatResponse, record: Option<HistoryRecord>)
    modifies session
    ensures var current := FinalAgent(agent, newItems);
      var messages := MessagesOf(newItems);
      var events := EventsOf(newItems, parse) + ContextEvent(old(session.context), ctx, current);
      && response == ChatResponse(id, Name(current), messages, events, ctx,
           FinalChecksOf(InputGuardrails(current), [], req.message), MainReply(messages), AnySupport(messages))
      && record == CompletedRecord(id, req, messages, ctx, events)
    ensures session.State() == SessionState(inputList, ctx, Name(FinalAgent(agent, newItems)))
  {
    var oldContext := session.context;
    session.context := ctx;
    var messages, events, current := ProcessItems(newItems, agent, parse);
    var changes := Diff(oldContext, ctx);
    if changes != [] {
      events := events + [AgentEvent(ContextUpdateEvent, Name(current), "", ContextChanges(changes))];
    }
    assert events == EventsOf(newItems, parse) + ContextEvent(oldContext, ctx, current);
    session.inputItems := inputList;
    session.currentAgent := Name(current);
    var finalChecks := FinalGuardrails(InputGuardrails(current), [], req.message);
    var mainReply := if messages != [] then messages[|messages| - 1].content else "";
    if Truthy(req.userId) && mainReply != "" {
      record := Some(HistoryRecord(id, req.userId.value, req.message, mainReply, messages[|messages| - 1].agent, ctx, TurnEvents(events)));
    } else {
      record := None;
    }
    var flag := messages != [] && AnySupport(messages);
    response := ChatResponse(id, Name(current), messages, events, ctx, finalChecks, mainReply, flag);
  }

  /** The session a turn works on: the stored one for a known id, else a
      new one under the fresh id. */
  method ResolveSession(store: ConversationStore, req: ChatRequest, freshId: string)
    returns (id: string, session: Session, isNew: bool)
    ensures isNew == IsNew(store.View(), req)
    ensures id == if isNew then freshId else req.conversationId.value
    ensures isNew ==> fresh(session) && session.State() == NewSessionState()
    ensures !isNew ==> id in store.conversations && store.conversations[id] == session
  {
    isNew := true;
    id := freshId;
    if Truthy(req.conversationId) {
      var found := store.Get(req.conversationId.value);
      if found.Some? {
        isNew := false;
        session := found.value;
        id := req.conversationId.value;
      }
    }
    if isNew {
      session := new Session();
    }
  }

  /** `chat_endpoint`: one turn against the store. */
  method ChatEndpoint(store: ConversationStore, req: ChatRequest, freshId: string, runner: Runner, parse: string -> Option<Json>)
    returns (answer: Result<ChatResponse, HttpError>, record: Option<HistoryRecord>)
    requires store.Valid()
    modifies store, store.conversations.Values
    ensures store.Valid()
    ensures var t := Turn(old(store.View()), req, freshId, runner, parse);
      answer == t.answer && record == t.record && store.View() == t.store
  {
    ghost var view := store.View();
    ghost var before := store.conversations;
    var id, session, isNew := ResolveSession(store, req, freshId);
    // The session is a fresh object or the one filed under `id`, so it is
    // none of the sessions under the other ids.
    assert forall k | k in before && before[k] != session :: k != id || isNew;
    assert forall k | k in before && k != id :: before[k] != session;
    assert forall k | k in before :: before[k] in old(store.conversations.Values);
    assert session.State() == Prior(view, req);
    answer, record := Answer(store, id, session, isNew, req, freshId, runner, parse, view);
  }

  /** The turn on the resolved session: a blank first message is filed and
      answered at once, any other message goes through the run. */
  method Answer(store: ConversationStore, id: string, session: Session, isNew: bool, req: ChatRequest, freshId: string,
                runner: Runner, parse: string -> Option<Json>, ghost view: map<string, SessionState>)
    returns (answer: Result<ChatResponse, HttpError>, record: Option<HistoryRecord>)
    requires isNew == IsNew(view, req)
    requires id == if isNew then freshId else req.conversationId.value
    requires session.State() == Prior(view, req)
    requires Distinct(store.conversations)
    requires forall k | k in store.conversations && k != id :: store.conversations[k] != session
    requires !isNew ==> id in store.conversations && store.conversations[id] == session
    requires isNew ==> forall k | k in store.conversations :: store.conversations[k] != session
    requires store.conversations.Keys == view.Keys
    requires forall k | k in store.conversations && store.conversations[k] != session :: store.conversations[k].State() == view[k]
    requires AgentNames(view)
    requires IsAgentName(session.currentAgent)
    modifies store, session
    ensures store.Valid()
    ensures var t := Turn(view, req, freshId, runner, parse);
      answer == t.answer && record == t.record && store.View() == t.store
  {
    if isNew && Strip(req.message) == "" {
      assert Turn(view, req, freshId, runner, parse) == TurnResult(Success(EmptyResponse(id)), None, view[id := NewSessionState()]);
      answer := Success(EmptyResponse(id));
      record := None;
      File(store, id, session, true, view);
      return;
    }
    assert Runs(view, req);
    var saved;
    answer, record, saved := RunPath(store, id, session, isNew, req, runner, parse, view);
    TurnOfStep(view, req, freshId, runner, parse, id, StepResult(answer, record, session.State(), saved));
  }

  /** The run on `session`, then `conversation_store.save` on success; a
      session already in the store is filed there either way. */
  method RunPath(store: ConversationStore, id: string, session: Session, isNew: bool, req: ChatRequest,
                 runner: Runner, parse: string -> Option<Json>, ghost view: map<string, SessionState>)
    returns (answer: Result<ChatResponse, HttpError>, record: Option<HistoryRecord>, saved: bool)
    requires Distinct(store.conversations)
    requires forall k | k in store.conversations && k != id :: store.conversations[k] != session
    requires !isNew ==> id in store.conversations && store.conversations[id] == session
    requires isNew ==> forall k | k in store.conversations :: store.conversations[k] != session
    requires store.conversations.Keys == view.Keys
    requires forall k | k in store.conversations && store.conversations[k] != session :: store.conversations[k].State() == view[k]
    requires AgentNames(view)
    requires IsAgentName(session.currentAgent)
    modifies store, session
    ensures Step(id, old(session.State()), req, runner, parse) == StepResult(answer, record, session.State(), saved)
    ensures store.Valid()
    ensures store.View() == if saved || !isNew then view[id := session.State()] else view
  {
    StepKeepsAgentName(id, session.State(), req, runner, parse);
    answer, record, saved := RunTurn(session, id, req, runner, parse);
    if saved || !isNew {
      File(store, id, session, saved, view);
    } else {
      assert store.View() == view;
    }
  }

  /** What a turn that runs leaves in the store, given what its step did. */
  lemma TurnOfStep(view: map<string, SessionState>, req: ChatRequest, freshId: string, runner: Runner, parse: string -> Option<Json>,
                   id: string, st: StepResult)
    requires Runs(view, req)
    requires id == if IsNew(view, req) then freshId else req.conversationId.value
    requires Step(id, Prior(view, req), req, runner, parse) == st
    ensures Turn(view, req, freshId, runner, parse) ==
      TurnResult(st.answer, st.record, if st.saved || !IsNew(view, req) then view[id := st.after] else view)
  {
  }

  /** Files `session` under `id` (with `conversation_store.save` when `write`,
      else it is the session already there): the store's contents become
      `view` with `id` bound to the session's contents. */
  method File(store: ConversationStore, id: string, session: Session, write: bool, ghost view: map<string, SessionState>)
    requires Distinct(store.conversations)
    requires forall k | k in store.conversations && k != id :: store.conversations[k] != session
    requires !write ==> id in store.conversations && store.conversations[id] == session
    requires forall k | k in view && k != id :: k in store.conversations
    requires forall k | k in store.conversations && k != id :: k in view && store.conversations[k].State() == view[k]
    requires AgentNames(view)
    requires IsAgentName(session.currentAgent)
    modifies store
    ensures store.conversations == old(store.conversations)[id := session]
    ensures store.Valid()
    ensures store.View() == view[id := session.State()]
  {
    if write {
      store.Save(id, session);
    }
    assert store.conversations == old(store.conversations)[id := session];
    assert store.conversations.Keys == view.Keys + {id};
    forall k | k in view && k != id ensures store.conversations[k].State() == view[k] {
      assert store.conversations[k] == old(store.conversations[k]);
    }
    ViewFiled(store, view, id, session);
    DistinctUpdated(old(store.conversations), id, session);
    AgentNamesUpdated(view, id, session.State());
  }

  /** A store that holds `session` under `id` and states equal to `view`
      under every other id shows `view` with `id` bound to the session's state. */
  lemma ViewFiled(store: ConversationStore, view: map<string, SessionState>, id: string, session: Session)
    requires id in store.conversations && store.conversations[id] == session
    requires store.conversations.Keys == view.Keys + {id}
    requires forall k | k in view && k != id :: store.conversations[k].State() == view[k]
    ensures store.View() == view[id := session.State()]
  {
    MapUpdated(store.View(), view, id, session.State());
  }

  /** Filing a session that no other id holds keeps sessions distinct. */
  lemma DistinctUpdated(conversations: map<string, Session>, id: string, s: Session)
    requires Distinct(conversations)
    requires forall k | k in conversations && k != id :: conversations[k] != s
    ensures Distinct(conversations[id := s])
  {
  }

  /** Binding an id to a state that names an agent keeps every state naming one. */
  lemma AgentNamesUpdated(view: map<string, SessionState>, id: string, st: SessionState)
    requires AgentNames(view)
    requires IsAgentName(st.currentAgent)
    ensures AgentNames(view[id := st])
  {
  }

  /** A map that agrees with `m` off `id`, has `id` and maps it to `v` is
      `m` with `id` bound to `v`. */
  lemma MapUpdated<K, V>(n: map<K, V>, m: map<K, V>, id: K, v: V)
    requires n.Keys == m.Keys + {id}
    requires n[id] == v
    requires forall k | k in m && k != id :: n[k] == m[k]
    ensures n == m[id := v]
  {
  }

  // ---------------------------------------------------------------------
  // Properties of a turn
  // ---------------------------------------------------------------------

  /** The refusal itself mentions "hỗ trợ" ("support"). */
  lemma RefusalMentionsSupport()
    ensures MentionsSupport(Refusal)
  {
    assert |RefusalHead| == 24 && |HoTro| == 6;
    assert Refusal[24..30] == HoTro;
    var l := Lower(Refusal);
    forall i | 24 <= i < 30 ensures l[i] == Refusal[i] {
      assert LowerChar(Refusal[i]) == Refusal[i];
    }
    assert l[24..30] == HoTro;
    assert OccursAt(l, HoTro, 24);
    ContainsIff(Lower(Refusal), HoTro);
  }

  /** A new conversation is answered under the fresh id, whatever unknown id
      the request carried; an existing one keeps its id. */
  lemma TurnConversationId(view: map<string, SessionState>, req: ChatRequest, freshId: string, runner: Runner, parse: string -> Option<Json>)
    ensures var a := Turn(view, req, freshId, runner, parse).answer;
      a.Success? ==> a.value.conversationId == if IsNew(view, req) then freshId else req.conversationId.value
    ensures var t := Turn(view, req, freshId, runner, parse);
      (IsNew(view, req) ==> freshId in t.store || t.store == view)
  {
    if Runs(view, req) {
      var id := if IsNew(view, req) then freshId else req.conversationId.value;
      StepAnswersUnderId(id, Prior(view, req), req, runner, parse);
    }
  }

  /** A step answers under the id it was given. */
  lemma StepAnswersUnderId(id: string, prior: SessionState, req: ChatRequest, runner: Runner, parse: string -> Option<Json>)
    ensures var a := Step(id, prior, req, runner, parse).answer;
      a.Success? ==> a.value.conversationId == id
  {
    var agent := GetAgentByName(prior.currentAgent);
    match runner(agent, prior.inputItems + [UserInput(req.message)], prior.context)
    case Tripwire(failed, reasoning) =>
    case Completed(newItems, inputList, ctx) =>
    case Raised =>
  }

  /** A new conversation with a blank message is saved and answered at once:
      nothing is run, the answer is empty and no record is written. An
      existing conversation never takes this shortcut. */
  lemma EmptyMessageShortcut(view: map<string, SessionState>, req: ChatRequest, freshId: string, runner: Runner, parse: string -> Option<Json>)
    requires IsNew(view, req) && AllSpace(req.message)
    ensures var t := Turn(view, req, freshId, runner, parse);
      && t.answer == Success(ChatResponse(freshId, "Triage Agent", [], [], Context(None, None, None), [], "", false))
      && t.record == None
      && t.store == view[freshId := SessionState([], Context(None, None, None), "Triage Agent")]
  {
    StripEmptyIff(req.message);
  }

  /** The outcome of the run, from the agent and input the runner is given. */
  function RunOf(view: map<string, SessionState>, req: ChatRequest, runner: Runner): RunOutcome {
    var p := Prior(view, req);
    runner(GetAgentByName(p.currentAgent), p.inputItems + [UserInput(req.message)], p.context)
  }

  /** A session left with the price agent or a support agent is run by
      triage on its next turn: the runner is given the agent the lookup
      falls back to, and the history with the new user message appended. */
  lemma ExistingRunsWithStoredAgent(view: map<string, SessionState>, req: ChatRequest, runner: Runner)
    requires !IsNew(view, req)
    ensures var p := view[req.conversationId.value];
      RunOf(view, req, runner) == runner(
        if p.currentAgent == Name(Info) then Info else Triage,
        p.inputItems + [UserInput(req.message)],
        p.context)
  {
  }

  /** On a tripwire: the refusal is the one message and the reply, there are
      no events, the agent does not move, and the support flag stays off
      though the refusal mentions "hỗ trợ". The session is not saved: an
      existing conversation still ends with the message and the refusal,
      because its dict was changed in place; a new one is lost. */
  lemma TripwireTurn(view: map<string, SessionState>, req: ChatRequest, freshId: string, runner: Runner, parse: string -> Option<Json>)
    requires Runs(view, req) && RunOf(view, req, runner).Tripwire?
    ensures var t := Turn(view, req, freshId, runner, parse);
      var p := Prior(view, req);
      var agent := GetAgentByName(p.currentAgent);
      && t.answer.value.events == []
      && t.answer.value.messages == [MessageResponse(Refusal, Refusal, Name(agent))]
      && t.answer.value.reply == Refusal && MentionsSupport(t.answer.value.reply) && !t.answer.value.requiresSupportForm
      && t.answer.value.currentAgent == Name(agent)
      && (IsNew(view, req) ==> t.store == view)
      && (!IsNew(view, req) ==> t.store == view[req.conversationId.value :=
            SessionState(p.inputItems + [UserInput(req.message), AssistantInput(Refusal)], p.context, p.currentAgent)])
      && (t.record.Some? <==> Truthy(req.userId))
  {
    RefusalMentionsSupport();
    var p := Prior(view, req);
    assert p.inputItems + [UserInput(req.message)] + [AssistantInput(Refusal)]
        == p.inputItems + [UserInput(req.message), AssistantInput(Refusal)];
  }

  /** On a tripwire the checks are relevance then jailbreak, and exactly the
      guardrail that tripped failed, with its reasoning. */
  lemma TripwireGuardrails(view: map<string, SessionState>, req: ChatRequest, freshId: string, runner: Runner, parse: string -> Option<Json>)
    requires Runs(view, req) && RunOf(view, req, runner).Tripwire?
    ensures var t := Turn(view, req, freshId, runner, parse);
      var o := RunOf(view, req, runner);
      var c := t.answer.value.guardrails;
      && |c| == 2
      && c[0].name == "Relevance Guardrail" && c[1].name == "Jailbreak Guardrail"
      && (c[0].passed <==> o.failed != RelevanceGuardrail)
      && (c[1].passed <==> o.failed != JailbreakGuardrail)
      && (forall k | 0 <= k < 2 :: c[k].input == req.message)
      && (forall k | 0 <= k < 2 :: c[k].reasoning == if c[k].passed then "" else o.reasoning)
  {
    var o := RunOf(view, req, runner);
    var agent := GetAgentByName(Prior(view, req).currentAgent);
    TripwireChecksSpec(InputGuardrails(agent), o.failed, o.reasoning, req.message);
  }

  /** Any other exception from the run escapes the handler: the caller gets
      a 500 and no record is written. The user message was appended to the
      session's input before the run, so an existing conversation keeps it,
      unanswered, through the dict shared with the store; a new one is lost. */
  lemma RaisedTurn(view: map<string, SessionState>, req: ChatRequest, freshId: string, runner: Runner, parse: string -> Option<Json>)
    requires Runs(view, req) && RunOf(view, req, runner).Raised?
    ensures var t := Turn(view, req, freshId, runner, parse);
      var p := Prior(view, req);
      && t.answer == Failure(ServerError)
      && t.record == None
      && (IsNew(view, req) ==> t.store == view)
      && (!IsNew(view, req) ==> t.store == view[req.conversationId.value :=
            SessionState(p.inputItems + [UserInput(req.message)], p.context, p.currentAgent)])
  {
  }

  /** A turn is answered with a response unless the run raised something
      other than the tripwire. */
  lemma AnsweredUnlessRaised(view: map<string, SessionState>, req: ChatRequest, freshId: string, runner: Runner, parse: string -> Option<Json>)
    ensures Turn(view, req, freshId, runner, parse).answer.Failure? <==> Runs(view, req) && RunOf(view, req, runner).Raised?
  {
  }

  /** On a completed run: messages and events as the items dictate, the
      agent of the last handoff saved and returned, the run's input list and
      context saved, and every final guardrail reported passed. */
  lemma CompletedTurn(view: map<string, SessionState>, req: ChatRequest, freshId: string, runner: Runner, parse: string -> Option<Json>)
    requires Runs(view, req) && RunOf(view, req, runner).Completed?
    ensures var t := Turn(view, req, freshId, runner, parse);
      var o := RunOf(view, req, runner);
      var start := GetAgentByName(Prior(view, req).currentAgent);
      var id := if IsNew(view, req) then freshId else req.conversationId.value;
      && t.answer.value.messages == MessagesOf(o.newItems)
      && (forall k | IsLastHandoff(o.newItems, k) :: t.answer.value.currentAgent == Name(o.newItems[k].target))
      && ((forall k | 0 <= k < |o.newItems| :: !o.newItems[k].HandoffOutput?) ==> t.answer.value.currentAgent == Name(start))
      && t.store == view[id := SessionState(o.inputList, o.context, t.answer.value.currentAgent)]
      && |t.answer.value.guardrails| == 2
      && (forall k | 0 <= k < 2 :: t.answer.value.guardrails[k].passed && t.answer.value.guardrails[k].reasoning == "")
  {
    var o := RunOf(view, req, runner);
    var start := GetAgentByName(Prior(view, req).currentAgent);
    FinalAgentIsLastHandoff(start, o.newItems);
    FinalChecksAllPassed(InputGuardrails(FinalAgent(start, o.newItems)), req.message);
  }

  /** At most one context_update event: it comes after every item's event,
      is attributed to the final agent, and lists exactly the changed
      fields; it is there exactly when the context changed. */
  lemma ContextUpdatePlacement(view: map<string, SessionState>, req: ChatRequest, freshId: string, runner: Runner, parse: string -> Option<Json>)
    requires Runs(view, req) && RunOf(view, req, runner).Completed?
    ensures var t := Turn(view, req, freshId, runner, parse);
      var o := RunOf(view, req, runner);
      var e := t.answer.value.events;
      && (forall k | 0 <= k < |e| - 1 :: e[k].kind != ContextUpdateEvent)
      && (e != [] && e[|e| - 1].kind == ContextUpdateEvent <==> Prior(view, req).context != o.context)
      && (e != [] && e[|e| - 1].kind == ContextUpdateEvent ==>
            e[|e| - 1] == AgentEvent(ContextUpdateEvent, t.answer.value.currentAgent, "", ContextChanges(Diff(Prior(view, req).context, o.context))))
  {
    var o := RunOf(view, req, runner);
    NoContextEventFromItems(o.newItems, parse);
    DiffEmptyIff(Prior(view, req).context, o.context);
    var itemEvents := EventsOf(o.newItems, parse);
    var e := Turn(view, req, freshId, runner, parse).answer.value.events;
    forall k | 0 <= k < |e| - 1 ensures e[k].kind != ContextUpdateEvent {
      assert e[k] == itemEvents[k];
    }
    if e != [] && Prior(view, req).context == o.context {
      assert e[|e| - 1] == itemEvents[|itemEvents| - 1];
    }
  }

  /** A record is written exactly when the request has a user id and the
      last message is non-empty; it holds that message and its agent. The
      support flag is set exactly when some message mentions support. */
  lemma CompletedRecordAndFlag(view: map<string, SessionState>, req: ChatRequest, freshId: string, runner: Runner, parse: string -> Option<Json>)
    requires Runs(view, req) && RunOf(view, req, runner).Completed?
    ensures var t := Turn(view, req, freshId, runner, parse);
      var m := t.answer.value.messages;
      && (t.record.Some? <==> Truthy(req.userId) && m != [] && m[|m| - 1].content != "")
      && (t.record.Some? ==> t.record.value.answer == m[|m| - 1].content && t.record.value.agent == m[|m| - 1].agent
                             && t.record.value.question == req.message && t.record.value.userId == req.userId.value)
      && (t.answer.value.requiresSupportForm <==> exists k | 0 <= k < |m| :: MentionsSupport(m[k].content))
      && t.answer.value.reply == (if m == [] then "" else m[|m| - 1].content)
  {
  }

  /** Every turn keeps each stored session's current agent an agent's name. */
  lemma TurnKeepsAgentNames(view: map<string, SessionState>, req: ChatRequest, freshId: string, runner: Runner, parse: string -> Option<Json>)
    requires forall id | id in view :: IsAgentName(view[id].currentAgent)
    ensures var t := Turn(view, req, freshId, runner, parse);
      forall id | id in t.store :: IsAgentName(t.store[id].currentAgent)
  {
    var t := Turn(view, req, freshId, runner, parse);
    assert IsAgentName(Name(Triage));
    forall id | id in t.store ensures IsAgentName(t.store[id].currentAgent) {
      if id !in view {
        var a :| t.store[id].currentAgent == Name(a) by {
          if Runs(view, req) && RunOf(view, req, runner).Completed? {
            var o := RunOf(view, req, runner);
            assert t.store[id].currentAgent == Name(FinalAgent(GetAgentByName(Prior(view, req).currentAgent), o.newItems));
          } else {
            assert t.store[id].currentAgent == Name(Triage);
          }
        }
      } else if Runs(view, req) && RunOf(view, req, runner).Completed? && id == (if IsNew(view, req) then freshId else req.conversationId.value) {
        var o := RunOf(view, req, runner);
        assert t.store[id].currentAgent == Name(FinalAgent(GetAgentByName(Prior(view, req).currentAgent), o.newItems));
      }
    }
  }

  // ---------------------------------------------------------------------
  // A written record, read back
  // ---------------------------------------------------------------------

  /** The document `save_chat` stores for a record, at a given time. */
  function Stored(r: HistoryRecord, timestamp: int): StoredRecord {
    StoredRecord(Some(r.question), Some(r.answer), Some(timestamp), Some(r.conversationId), Some(r.agent))
  }

  /** A written turn, read back by the conversation view, shows the question
      then the answer under the turn's agent, and the answer as the reply. */
  lemma WrittenTurnReadsBack(r: HistoryRecord, timestamp: int)
    ensures var b := ConversationResponse(r.conversationId, [Stored(r, timestamp)]);
      && |b.history| == 2
      && b.history[0].role == User && b.history[0].content == r.question && b.history[0].agent == r.agent
      && b.history[1].role == Assistant && b.history[1].content == r.answer && b.history[1].agent == r.agent
      && b.summary.Some? && b.summary.value.reply == r.answer
  {
    ExpandedAt([Stored(r, timestamp)], false);
  }

  // ---------------------------------------------------------------------
  // GET /history/conversation/{conversation_id} of this router
  // ---------------------------------------------------------------------

  const InvalidConversationId: string := "Conversation ID không hợp lệ"

  /** The bodies this router's conversation view returns. It answers errors
      in the body, never with an error status. */
  datatype ViewBody =
    | ViewError(error: string)
    | ViewEmpty(conversationId: string)
    | ViewPage(history: seq<Entry>, conversationId: string, totalMessages: nat, reply: string, requiresSupportForm: bool)

  function ConversationView(conversationId: string, fetch: string -> seq<StoredRecord>): ViewBody {
    if Strip(conversationId) == "" then ViewError(InvalidConversationId)
    else
      var records := fetch(conversationId);
      if records == [] then ViewEmpty(conversationId)
      else
        var history := Expanded(records, false);
        var reply := LastAssistant(history);
        ViewPage(history, conversationId, |history|, reply, SupportFlag(reply))
  }

  /** `get_conversation_history` of chat.py, which is the one served at this
      path because chat.py's router is registered first. */
  method GetConversationView(conversationId: string, fetch: string -> seq<StoredRecord>) returns (body: ViewBody)
    ensures body == ConversationView(conversationId, fetch)
  {
    if conversationId == "" || Strip(conversationId) == "" {
      assert Strip(conversationId) == "";
      return ViewError(InvalidConversationId);
    }
    var records := fetch(conversationId);
    if records == [] {
      return ViewEmpty(conversationId);
    }
    var history := ExpandRecords(records, false);
    var reply := ScanReply(history);
    var flag := reply != "" && (Contains(Lower(reply), Support) || Contains(Lower(reply), HoTro));
    assert flag == SupportFlag(reply);
    body := ViewPage(history, conversationId, |history|, reply, flag);
  }

  /** The served view refuses an all-white-space id in its body; otherwise
      it shows what the shadowed chat-history handler would, except that an
      empty result carries no `total_messages`. */
  lemma ConversationViewAgrees(conversationId: string, fetch: string -> seq<StoredRecord>)
    ensures AllSpace(conversationId) ==> ConversationView(conversationId, fetch) == ViewError(InvalidConversationId)
    ensures !AllSpace(conversationId) && fetch(conversationId) != [] ==>
      var v := ConversationView(conversationId, fetch);
      var h := ChatHistory.ConversationResponse(conversationId, fetch(conversationId));
      && v.ViewPage? && v.history == h.history && v.totalMessages == h.totalMessages == 2 * |fetch(conversationId)|
      && h.summary == Some(ReplyInfo(v.reply, v.requiresSupportForm))
  {
    StripEmptyIff(conversationId);
    ExpandedAt(fetch(conversationId), false);
  }
}
