/**
 * The agent registry: the five agents of app/agent/, their input guardrails,
 * the handoff graph that app/agent/triage_agent.py wires at import time, and
 * the two lookups of app/router/chat.py (`_get_agent_by_name`,
 * `_get_guardrail_name`).
 */
module Agents {
  import opened Wrappers
  import opened Text

  datatype AgentId = Triage | Info | Price | SupportError | SupportTechnical

  /** The `name` each agent is constructed with. */
  function Name(a: AgentId): string {
    match a
    case Triage => "Triage Agent"
    case Info => "Company Info Agent"
    case Price => "Company Price Agent"
    case SupportError => "Company Support Error Agent"
    case SupportTechnical => "Company Support Technical Agent"
  }

  predicate IsAgentName(s: string) {
    exists a :: Name(a) == s
  }

  /** `_get_agent_by_name`: the lookup table holds only the triage and the
      info agent; every other name, registered agent or not, gives triage. */
  function GetAgentByName(name: string): (a: AgentId)
    ensures a == Info <==> name == Name(Info)
    ensures a != Info ==> a == Triage
  {
    var agents := map[Name(Triage) := Triage, Name(Info) := Info];
    if name in agents then agents[name] else Triage
  }

  /** A session saved under the price or either support agent resumes at
      triage on its next turn; triage and info resume where they were. */
  lemma ResumeAgent(a: AgentId)
    ensures GetAgentByName(Name(a)) == if a == Info then Info else Triage
  {
  }

  // ---------------------------------------------------------------------
  // Guardrails
  // ---------------------------------------------------------------------

  datatype Guardrail = RelevanceGuardrail | JailbreakGuardrail

  /** `input_guardrails` of each agent: relevance, then jailbreak. */
  function InputGuardrails(a: AgentId): seq<Guardrail> {
    [RelevanceGuardrail, JailbreakGuardrail]
  }

  /** What `_get_guardrail_name` can see of a guardrail object: its `name`
      attribute (None when absent, not a string), the `__name__` of its
      `guardrail_function` (None when there is none), its own `__name__`, and
      `str(g)`. */
  datatype GuardrailObject = GuardrailObject(
    nameAttr: Option<string>,
    functionName: Option<string>,
    ownName: Option<string>,
    repr: string)

  /** A Python identifier shown as words: `relevance_guardrail` becomes
      `Relevance Guardrail`. */
  function Humanise(identifier: string): string {
    Title(ReplaceChar(identifier, '_', ' '))
  }

  /** `_get_guardrail_name`: the first of name, function name, own name and
      `str(g)` that applies. */
  function GuardrailName(g: GuardrailObject): string {
    if g.nameAttr.Some? && g.nameAttr.value != "" then g.nameAttr.value
    else if g.functionName.Some? then Humanise(g.functionName.value)
    else if g.ownName.Some? && g.ownName.value != "" then Humanise(g.ownName.value)
    else g.repr
  }

  /** A name derived from an identifier keeps its length and has no `_`:
      each `_` becomes a space, other non-letters stay, and each word starts
      with a capital followed by lower-case letters. */
  lemma HumaniseShape(identifier: string)
    ensures |Humanise(identifier)| == |identifier|
    ensures forall i | 0 <= i < |identifier| :: Humanise(identifier)[i] != '_'
    ensures forall i | 0 <= i < |identifier| && identifier[i] == '_' :: Humanise(identifier)[i] == ' '
    ensures forall i | 0 <= i < |identifier| && !IsAsciiLetter(identifier[i]) && identifier[i] != '_' ::
      Humanise(identifier)[i] == identifier[i]
    ensures forall i | 0 <= i < |identifier| && IsAsciiLetter(identifier[i]) ::
      Humanise(identifier)[i] ==
        if i > 0 && IsAsciiLetter(identifier[i - 1]) then AsciiLower(identifier[i]) else AsciiUpper(identifier[i])
  {
    var spaced := ReplaceChar(identifier, '_', ' ');
    forall i | 0 <= i < |identifier| ensures Humanise(identifier)[i] != '_' {
      assert spaced[i] != '_';
      if !IsAsciiLetter(spaced[i]) {
        assert Humanise(identifier)[i] == spaced[i];
      } else {
        assert IsAsciiLetter(Humanise(identifier)[i]);
      }
    }
    forall i | 0 <= i < |identifier| && IsAsciiLetter(identifier[i])
      ensures Humanise(identifier)[i] ==
        if i > 0 && IsAsciiLetter(identifier[i - 1]) then AsciiLower(identifier[i]) else AsciiUpper(identifier[i])
    {
      assert spaced[i] == identifier[i];
      if i > 0 {
        assert IsAsciiLetter(spaced[i - 1]) == IsAsciiLetter(identifier[i - 1]);
      }
    }
  }

  /** The objects `@input_guardrail(name=...)` builds in app/agent/guardrail.py. */
  function GuardrailObjectOf(g: Guardrail): GuardrailObject {
    match g
    case RelevanceGuardrail =>
      GuardrailObject(Some("Relevance Guardrail"), Some("relevance_guardrail"), None, "InputGuardrail")
    case JailbreakGuardrail =>
      GuardrailObject(Some("Jailbreak Guardrail"), Some("jailbreak_guardrail"), None, "InputGuardrail")
  }

  function GuardrailDisplayName(g: Guardrail): string {
    GuardrailName(GuardrailObjectOf(g))
  }

  /** The two guardrails are told apart by name, so a check found by name is
      the check of that guardrail. */
  lemma GuardrailDisplayNameInjective(g: Guardrail, h: Guardrail)
    ensures GuardrailDisplayName(g) == GuardrailDisplayName(h) <==> g == h
  {
    if g != h {
      assert GuardrailDisplayName(g)[0] != GuardrailDisplayName(h)[0];
    }
  }

  // ---------------------------------------------------------------------
  // Handoff graph
  // ---------------------------------------------------------------------

  const Specialists: seq<AgentId> := [Info, Price, SupportError, SupportTechnical]
  const AllAgents: set<AgentId> := {Triage, Info, Price, SupportError, SupportTechnical}

  lemma AllAgentsComplete(a: AgentId)
    ensures a in AllAgents
  {
    match a
    case Triage =>
    case Info =>
    case Price =>
    case SupportError =>
    case SupportTechnical =>
  }

  /** The agents' `handoffs` lists, which triage_agent.py extends in place. */
  class AgentGraph {
    var handoffs: map<AgentId, seq<AgentId>>

    ghost predicate Valid()
      reads this
    {
      handoffs.Keys == AllAgents
    }

    /** The lists as the agent constructors leave them: triage hands off to
        the four specialists, the specialists to nobody. */
    constructor ()
      ensures Valid()
      ensures handoffs[Triage] == Specialists
      ensures forall s | s in Specialists :: handoffs[s] == []
    {
      handoffs := map[Triage := Specialists, Info := [], Price := [], SupportError := [], SupportTechnical := []];
    }

    /** The module-level appends: `<specialist>.handoffs.append(triage_agent)`. */
    method LinkBackToTriage()
      requires Valid()
      modifies this
      ensures Valid()
      ensures handoffs[Triage] == old(handoffs[Triage])
      ensures forall s | s in Specialists :: handoffs[s] == old(handoffs[s]) + [Triage]
    {
      handoffs := handoffs[Info := handoffs[Info] + [Triage]];
      handoffs := handoffs[Price := handoffs[Price] + [Triage]];
      handoffs := handoffs[SupportError := handoffs[SupportError] + [Triage]];
      handoffs := handoffs[SupportTechnical := handoffs[SupportTechnical] + [Triage]];
    }
  }

  /** The graph once triage_agent.py has been imported. */
  function Topology(): map<AgentId, seq<AgentId>> {
    map[Triage := Specialists, Info := [Triage], Price := [Triage],
        SupportError := [Triage], SupportTechnical := [Triage]]
  }

  method BuildTopology() returns (g: AgentGraph)
    ensures fresh(g) && g.Valid()
    ensures g.handoffs == Topology()
  {
    g := new AgentGraph();
    g.LinkBackToTriage();
    assert g.handoffs.Keys == Topology().Keys;
    assert forall a | a in AllAgents :: g.handoffs[a] == Topology()[a] by {
      assert Info in Specialists && Price in Specialists;
      assert SupportError in Specialists && SupportTechnical in Specialists;
    }
  }

  /** Triage hands off to each specialist and each specialist only back to
      triage: the graph is a cycle through triage and has no self-loop. */
  lemma TopologyShape()
    ensures Topology()[Triage] == [Info, Price, SupportError, SupportTechnical]
    ensures forall s | s in Specialists :: Topology()[s] == [Triage]
    ensures forall a, b | a in Topology() && b in Topology()[a] :: a != b
    ensures forall a: AgentId :: a in Topology()
  {
    forall a: AgentId ensures a in Topology() {
      AllAgentsComplete(a);
    }
  }
}
