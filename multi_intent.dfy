/**
 * app/agent/multi_intent_agent.py: keyword classification of a query into
 * an ordered list of (intent, sub-query) pairs, and the sequential calls to
 * the specialist agents whose answers are merged into one reply.
 */
module MultiIntent {
  import opened Text

  datatype Intent = CompanyInfo | CompanyPrice | CompanySupportError | CompanySupportTechnical

  function Key(i: Intent): string {
    match i
    case CompanyInfo => "company_info"
    case CompanyPrice => "company_price"
    case CompanySupportError => "company_support_error"
    case CompanySupportTechnical => "company_support_technical"
  }

  /** The order in which `split_intents` tests the keyword groups. */
  const Order: seq<Intent> := [CompanyInfo, CompanyPrice, CompanySupportError, CompanySupportTechnical]

  function Rank(i: Intent): nat {
    match i
    case CompanyInfo => 0
    case CompanyPrice => 1
    case CompanySupportError => 2
    case CompanySupportTechnical => 3
  }

  function Keywords(i: Intent): seq<string> {
    match i
    case CompanyInfo => ["tên công ty", "địa chỉ", "lịch sử", "fiine là gì"]
    case CompanyPrice => ["gói dịch vụ", "giá", "bao nhiêu", "phí", "chi phí"]
    case CompanySupportError => ["lỗi", "sự cố", "không vào được", "bị treo"]
    case CompanySupportTechnical => ["cách dùng", "tạo công việc", "hướng dẫn", "tính năng"]
  }

  const InfoQuestion: string := "Công ty tên là gì và làm gì?"
  const PriceQuestion: string := "Fiine đang cung cấp các gói dịch vụ nào và mức giá là bao nhiêu?"

  /** `any(kw in text for kw in keywords)`. */
  predicate MatchesAny(text: string, keywords: seq<string>) {
    exists k | 0 <= k < |keywords| :: Contains(text, keywords[k])
  }

  /** An intent is raised when the lower-cased query contains one of its keywords. */
  predicate Triggered(i: Intent, query: string) {
    MatchesAny(Lower(query), Keywords(i))
  }

  /** The text sent to the intent's agent: a canned question for info and
      price, the original (not lower-cased) query for the two support intents. */
  function SubQueryText(i: Intent, query: string): string {
    match i
    case CompanyInfo => InfoQuestion
    case CompanyPrice => PriceQuestion
    case _ => query
  }

  datatype SubQuery = SubQuery(intent: Intent, text: string)

  /** The intents a query raises, as a test. */
  function Raised(query: string): Intent -> bool {
    i => Triggered(i, query)
  }

  /** The pair one intent contributes: one if it is raised, else none. */
  function Pick(i: Intent, raised: Intent -> bool, query: string): seq<SubQuery> {
    if raised(i) then [SubQuery(i, SubQueryText(i, query))] else []
  }

  /** The pairs for the intents of `candidates` that pass `raised`, in the
      order of `candidates`. */
  function Collect(candidates: seq<Intent>, raised: Intent -> bool, query: string): seq<SubQuery> {
    if candidates == [] then [] else Pick(candidates[0], raised, query) + Collect(candidates[1..], raised, query)
  }

  function Intents(query: string): seq<SubQuery> {
    Collect(Order, Raised(query), query)
  }

  /** The four keyword tests one after the other. */
  lemma IntentsUnfold(query: string)
    ensures var raised := Raised(query);
      Intents(query) ==
        Pick(CompanyInfo, raised, query) + Pick(CompanyPrice, raised, query)
        + Pick(CompanySupportError, raised, query) + Pick(CompanySupportTechnical, raised, query)
  {
    CollectOrderUnfold(Raised(query), query);
  }

  /** `Collect` over the fixed order, for any test of which intents are raised. */
  lemma CollectOrderUnfold(raised: Intent -> bool, query: string)
    ensures Collect(Order, raised, query) ==
      Pick(CompanyInfo, raised, query) + Pick(CompanyPrice, raised, query)
      + Pick(CompanySupportError, raised, query) + Pick(CompanySupportTechnical, raised, query)
  {
    var o1, o2, o3 := [CompanyPrice, CompanySupportError, CompanySupportTechnical], [CompanySupportError, CompanySupportTechnical], [CompanySupportTechnical];
    assert Order[1..] == o1 && o1[1..] == o2 && o2[1..] == o3 && o3[1..] == [];
    assert Collect(o3, raised, query) == Pick(CompanySupportTechnical, raised, query);
    assert Collect(o2, raised, query) == Pick(CompanySupportError, raised, query) + Collect(o3, raised, query);
    assert Collect(o1, raised, query) == Pick(CompanyPrice, raised, query) + Collect(o2, raised, query);
    assert Collect(Order, raised, query) == Pick(CompanyInfo, raised, query) + Collect(o1, raised, query);
  }

  /** Some pair of `r` is for intent `i`. */
  predicate HasIntent(r: seq<SubQuery>, i: Intent) {
    exists k | 0 <= k < |r| :: r[k].intent == i
  }

  lemma HasIntentAppend(a: seq<SubQuery>, b: seq<SubQuery>, i: Intent)
    ensures HasIntent(a + b, i) <==> HasIntent(a, i) || HasIntent(b, i)
  {
    if HasIntent(a + b, i) {
      var k :| 0 <= k < |a + b| && (a + b)[k].intent == i;
      if k >= |a| {
        assert b[k - |a|].intent == i;
      }
    }
    if HasIntent(a, i) {
      var k :| 0 <= k < |a| && a[k].intent == i;
      assert (a + b)[k].intent == i;
    }
    if HasIntent(b, i) {
      var k :| 0 <= k < |b| && b[k].intent == i;
      assert (a + b)[|a| + k].intent == i;
    }
  }

  /** An intent has a pair exactly when it is a candidate that passes `raised`. */
  lemma {:induction false} CollectMembers(candidates: seq<Intent>, raised: Intent -> bool, query: string, i: Intent)
    ensures HasIntent(Collect(candidates, raised, query), i) <==> i in candidates && raised(i)
  {
    if candidates != [] {
      var rest := candidates[1..];
      CollectMembers(rest, raised, query, i);
      HasIntentAppend(Pick(candidates[0], raised, query), Collect(rest, raised, query), i);
      assert candidates == [candidates[0]] + rest;
      assert HasIntent(Pick(candidates[0], raised, query), i) <==> candidates[0] == i && raised(i) by {
        if raised(candidates[0]) {
          assert Pick(candidates[0], raised, query)[0].intent == candidates[0];
        }
      }
    }
  }

  /** Each pair carries its intent's text, and there is at most one pair per candidate. */
  lemma {:induction false} CollectTexts(candidates: seq<Intent>, raised: Intent -> bool, query: string)
    ensures var r := Collect(candidates, raised, query);
      && |r| <= |candidates|
      && (forall k | 0 <= k < |r| :: r[k].text == SubQueryText(r[k].intent, query))
  {
    if candidates != [] {
      CollectTexts(candidates[1..], raised, query);
      var head := Pick(candidates[0], raised, query);
      var tail := Collect(candidates[1..], raised, query);
      assert Collect(candidates, raised, query) == head + tail;
    }
  }

  /** Pairs come in the order of strictly ranked candidates. */
  lemma {:induction false} CollectOrdered(candidates: seq<Intent>, raised: Intent -> bool, query: string)
    requires forall a, b | 0 <= a < b < |candidates| :: Rank(candidates[a]) < Rank(candidates[b])
    ensures var r := Collect(candidates, raised, query);
      forall a, b | 0 <= a < b < |r| :: Rank(r[a].intent) < Rank(r[b].intent)
  {
    if candidates != [] {
      var rest := candidates[1..];
      CollectOrdered(rest, raised, query);
      var tail := Collect(rest, raised, query);
      var head := Pick(candidates[0], raised, query);
      assert Collect(candidates, raised, query) == head + tail;
      forall k | 0 <= k < |tail| ensures Rank(candidates[0]) < Rank(tail[k].intent) {
        var i := tail[k].intent;
        CollectMembers(rest, raised, query, i);
        assert HasIntent(tail, i);
        var j :| 0 <= j < |rest| && rest[j] == i;
        assert candidates[j + 1] == rest[j];
      }
      var r := head + tail;
      assert |head| <= 1 && (head != [] ==> head[0].intent == candidates[0]);
      forall a, b | 0 <= a < b < |r| ensures Rank(r[a].intent) < Rank(r[b].intent) {
        if a < |head| {
          assert r[a] == head[0] && r[b] == tail[b - |head|];
        } else {
          assert r[a] == tail[a - |head|] && r[b] == tail[b - |head|];
        }
      }
    }
  }

  lemma OrderComplete(i: Intent)
    ensures i in Order
  {
    match i
    case CompanyInfo => assert Order[0] == i;
    case CompanyPrice => assert Order[1] == i;
    case CompanySupportError => assert Order[2] == i;
    case CompanySupportTechnical => assert Order[3] == i;
  }

  /** Each intent appears exactly when one of its keywords occurs in the
      lower-cased query, at most once, in the fixed group order, with its
      canned question or the original query; a query with no keyword gives
      an empty list. */
  lemma IntentsSpec(query: string)
    ensures var r := Intents(query);
      && |r| <= 4
      && (forall i :: HasIntent(r, i) <==> Triggered(i, query))
      && (forall k | 0 <= k < |r| :: r[k].text == SubQueryText(r[k].intent, query))
      && (forall a, b | 0 <= a < b < |r| :: Rank(r[a].intent) < Rank(r[b].intent))
      && (forall a, b | 0 <= a < b < |r| :: r[a].intent != r[b].intent)
      && (r == [] <==> forall i :: !Triggered(i, query))
  {
    var r := Intents(query);
    CollectTexts(Order, Raised(query), query);
    CollectOrdered(Order, Raised(query), query);
    forall i ensures HasIntent(r, i) <==> Triggered(i, query) {
      OrderComplete(i);
      CollectMembers(Order, Raised(query), query, i);
    }
    if r != [] {
      assert HasIntent(r, r[0].intent);
    }
  }

  /** `split_intents`: the four keyword tests, each appending at most one pair. */
  method SplitIntents(query: string) returns (subQueries: seq<SubQuery>)
    ensures subQueries == Intents(query)
  {
    IntentsUnfold(query);
    var lowered := Lower(query);
    subQueries := [];
    if MatchesAny(lowered, Keywords(CompanyInfo)) {
      subQueries := subQueries + [SubQuery(CompanyInfo, InfoQuestion)];
    }
    if MatchesAny(lowered, Keywords(CompanyPrice)) {
      subQueries := subQueries + [SubQuery(CompanyPrice, PriceQuestion)];
    }
    if MatchesAny(lowered, Keywords(CompanySupportError)) {
      subQueries := subQueries + [SubQuery(CompanySupportError, query)];
    }
    if MatchesAny(lowered, Keywords(CompanySupportTechnical)) {
      subQueries := subQueries + [SubQuery(CompanySupportTechnical, query)];
    }
  }

  // ---------------------------------------------------------------------
  // call_agents_for_query
  // ---------------------------------------------------------------------

  /** What `agent.run(sub_query)` did: returned a string, returned None, or
      raised an exception with the given `str(e)`. */
  datatype AgentReply = Replied(text: string) | NoReply | Raised(message: string)

  const Apology: string := "Xin lỗi, tôi không thể xác định được yêu cầu của bạn. Bạn vui lòng nói rõ hơn nhé."
  const Separator: string := "\n\n"

  function ErrorText(i: Intent, message: string): string {
    "[Lỗi khi gọi " + Key(i) + "]: " + message
  }

  /** The entry one sub-query adds to `responses`: a falsy result adds none,
      an exception adds its error text. */
  function ResponseFor(sq: SubQuery, call: (Intent, string) -> AgentReply): seq<string> {
    match call(sq.intent, sq.text)
    case Replied(t) => if t != "" then [t] else []
    case NoReply => []
    case Raised(m) => [ErrorText(sq.intent, m)]
  }

  /** `responses` after the loop has handled the sub-queries in order. */
  function Responses(subQueries: seq<SubQuery>, call: (Intent, string) -> AgentReply): seq<string> {
    if subQueries == [] then []
    else Responses(subQueries[..|subQueries| - 1], call) + ResponseFor(subQueries[|subQueries| - 1], call)
  }

  /** The responses of a concatenation are the concatenated responses: each
      sub-query's answer keeps its place in the intent order. */
  lemma {:induction false} ResponsesAppend(a: seq<SubQuery>, b: seq<SubQuery>, call: (Intent, string) -> AgentReply)
    ensures Responses(a + b, call) == Responses(a, call) + Responses(b, call)
    decreases |b|
  {
    if b != [] {
      var b' := b[..|b| - 1];
      assert (a + b)[..|a + b| - 1] == a + b';
      ResponsesAppend(a, b', call);
    } else {
      assert a + b == a;
    }
  }

  /** No response survives exactly when every agent returned nothing truthy
      and none raised. */
  lemma {:induction false} ResponsesEmptyIff(subQueries: seq<SubQuery>, call: (Intent, string) -> AgentReply)
    ensures Responses(subQueries, call) == [] <==> forall k | 0 <= k < |subQueries| :: ResponseFor(subQueries[k], call) == []
    ensures |Responses(subQueries, call)| <= |subQueries|
  {
    if subQueries != [] {
      var init := subQueries[..|subQueries| - 1];
      var last := subQueries[|subQueries| - 1];
      ResponsesEmptyIff(init, call);
      assert Responses(subQueries, call) == Responses(init, call) + ResponseFor(last, call);
      assert |ResponseFor(last, call)| <= 1;
      forall k | 0 <= k < |init| ensures init[k] == subQueries[k] {
      }
    }
  }

  /** The merged reply: the apology when nothing was collected, otherwise the
      responses joined by a blank line. */
  function Merge(responses: seq<string>): string {
    if responses == [] then Apology else Join(responses, Separator)
  }

  function MergedAnswer(query: string, call: (Intent, string) -> AgentReply): string {
    Merge(Responses(Intents(query), call))
  }

  /** `call_agents_for_query`, with the four agents' `run` given as `call`. */
  method CallAgentsForQuery(query: string, call: (Intent, string) -> AgentReply) returns (answer: string)
    ensures answer == MergedAnswer(query, call)
  {
    var subQueries := SplitIntents(query);
    var responses: seq<string> := [];
    var k := 0;
    while k < |subQueries|
      invariant 0 <= k <= |subQueries|
      invariant responses == Responses(subQueries[..k], call)
    {
      var sq := subQueries[k];
      var reply := call(sq.intent, sq.text);
      match reply {
        case Replied(t) =>
          if t != "" {
            responses := responses + [t];
          }
        case NoReply =>
        case Raised(m) =>
          responses := responses + [ErrorText(sq.intent, m)];
      }
      assert subQueries[..k + 1][..k] == subQueries[..k];
      k := k + 1;
    }
    assert subQueries[..k] == subQueries;
    if responses == [] {
      answer := Apology;
    } else {
      answer := Join(responses, Separator);
    }
  }

  /** A query that raises no intent is answered with the apology, whatever
      the agents would have said. */
  lemma NoIntentGivesApology(query: string, call: (Intent, string) -> AgentReply)
    requires forall i :: !Triggered(i, query)
    ensures MergedAnswer(query, call) == Apology
  {
    IntentsSpec(query);
  }

  /** A single intent whose agent raises yields exactly its error text. */
  lemma SingleFailureText(query: string, call: (Intent, string) -> AgentReply)
    requires |Intents(query)| == 1
    requires call(Intents(query)[0].intent, Intents(query)[0].text).Raised?
    ensures MergedAnswer(query, call) ==
      ErrorText(Intents(query)[0].intent, call(Intents(query)[0].intent, Intents(query)[0].text).message)
  {
    var subs := Intents(query);
    var sq := subs[0];
    assert subs == [sq];
    ResponsesSingle(sq, call);
  }

  /** With at least one response, the merged answer holds every response in
      order, each at its offset and each but the last followed by a blank
      line; `MergedAnswer` is this merge of the sub-queries' responses. */
  lemma MergeParts(rs: seq<string>)
    requires rs != []
    ensures forall k | 0 <= k < |rs| ::
      PartOffset(rs, Separator, k) + |rs[k]| <= |Merge(rs)|
      && Merge(rs)[PartOffset(rs, Separator, k)..PartOffset(rs, Separator, k) + |rs[k]|] == rs[k]
    ensures forall k | 0 <= k < |rs| - 1 ::
      PartOffset(rs, Separator, k) + |rs[k]| + |Separator| <= |Merge(rs)|
      && Merge(rs)[PartOffset(rs, Separator, k) + |rs[k]|..PartOffset(rs, Separator, k) + |rs[k]| + |Separator|] == Separator
  {
    assert Merge(rs) == Join(rs, Separator);
    JoinParts(rs, Separator);
  }

  lemma ResponsesSingle(sq: SubQuery, call: (Intent, string) -> AgentReply)
    ensures Responses([sq], call) == ResponseFor(sq, call)
  {
    assert [sq][..0] == [];
  }
}
