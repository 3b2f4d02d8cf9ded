/**
 * app/agent/triage_agent.py: the separator rule of `SmartTriageAgent.run`,
 * which sends a query that names several things at once to the
 * multi-intent path and every other query to the agent's ordinary run.
 * The handoff graph wired at the bottom of that file is in module Agents.
 */
module Triage {
  import opened Text
  import opened MultiIntent

  /** The separators whose occurrences `run` adds up. */
  const Separators: seq<string> := ["và", "với", ",", "cùng"]

  /** `sum(query.count(sep) for sep in seps)`. */
  function CountAll(query: string, seps: seq<string>): nat
    requires forall k | 0 <= k < |seps| :: seps[k] != []
  {
    if seps == [] then 0 else Count(query, seps[0]) + CountAll(query, seps[1..])
  }

  function SeparatorCount(query: string): nat {
    CountAll(query, Separators)
  }

  /** `SmartTriageAgent.run`: two or more separators select the multi-intent
      path; otherwise the inherited run, given here as `base`, answers. */
  function Run(query: string, base: string -> string, call: (Intent, string) -> AgentReply): string {
    if SeparatorCount(query) >= 2 then MergedAnswer(query, call) else base(query)
  }

  /** The total is the four separate non-overlapping counts added up. */
  lemma SeparatorCountIsSum(query: string)
    ensures SeparatorCount(query) ==
      Count(query, "và") + Count(query, "với") + Count(query, ",") + Count(query, "cùng")
  {
    var s1, s2, s3 := ["với", ",", "cùng"], [",", "cùng"], ["cùng"];
    assert Separators[1..] == s1 && s1[1..] == s2 && s2[1..] == s3 && s3[1..] == [];
    assert CountAll(query, s3) == Count(query, "cùng");
    assert CountAll(query, s2) == Count(query, ",") + CountAll(query, s3);
    assert CountAll(query, s1) == Count(query, "với") + CountAll(query, s2);
  }

  /** A separator that occurs is counted at least once. */
  lemma OccurringSeparatorCounts(query: string, k: nat)
    requires k < |Separators| && Contains(query, Separators[k])
    ensures SeparatorCount(query) >= 1
  {
    SeparatorCountIsSum(query);
    CountPositiveIff(query, Separators[k]);
  }

  /** A query in which no separator occurs goes to the ordinary run. */
  lemma NoSeparatorDefers(query: string, base: string -> string, call: (Intent, string) -> AgentReply)
    requires forall k | 0 <= k < |Separators| :: !Contains(query, Separators[k])
    ensures Run(query, base, call) == base(query)
  {
    SeparatorCountIsSum(query);
    CountPositiveIff(query, Separators[0]);
    CountPositiveIff(query, Separators[1]);
    CountPositiveIff(query, Separators[2]);
    CountPositiveIff(query, Separators[3]);
  }

  /** Two different separators that both occur select the multi-intent path. */
  lemma TwoSeparatorsGoMulti(query: string, j: nat, k: nat, base: string -> string, call: (Intent, string) -> AgentReply)
    requires j < k < |Separators|
    requires Contains(query, Separators[j]) && Contains(query, Separators[k])
    ensures Run(query, base, call) == MergedAnswer(query, call)
  {
    SeparatorCountIsSum(query);
    CountPositiveIff(query, Separators[j]);
    CountPositiveIff(query, Separators[k]);
  }

  /** One separator used twice, without overlap, also selects the
      multi-intent path: the threshold is on the total count, not on the
      number of different separators. */
  lemma SeparatorTwiceGoesMulti(query: string, k: nat, i: int, j: int, base: string -> string, call: (Intent, string) -> AgentReply)
    requires k < |Separators|
    requires OccursAt(query, Separators[k], i) && OccursAt(query, Separators[k], j) && i + |Separators[k]| <= j
    ensures Run(query, base, call) == MergedAnswer(query, call)
  {
    SeparatorCountIsSum(query);
    CountTwoDisjoint(query, Separators[k], i, j);
  }

  /** "a, b, c" has two commas and no other separator, and goes to the
      multi-intent path. */
  lemma CommaListGoesMulti(base: string -> string, call: (Intent, string) -> AgentReply)
    ensures Run("a, b, c", base, call) == MergedAnswer("a, b, c", call)
  {
    var q := "a, b, c";
    assert q[1..2] == "," && q[4..5] == ",";
    assert Separators[2] == ",";
    SeparatorTwiceGoesMulti(q, 2, 1, 4, base, call);
  }

  /** The multi-intent path apologises for a query with separators but no
      keyword, instead of deferring to the ordinary run. */
  lemma SeparatorsWithoutKeywordApologise(query: string, base: string -> string, call: (Intent, string) -> AgentReply)
    requires SeparatorCount(query) >= 2
    requires forall i :: !Triggered(i, query)
    ensures Run(query, base, call) == Apology
  {
    NoIntentGivesApology(query, call);
  }
}
