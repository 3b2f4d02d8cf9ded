/**
 * The conversation context record of app/agent/formatter_agent.py
 * (`CompanyAgentContext`: three optional fields) and the field-by-field
 * comparison the chat endpoint makes of it before and after an agent run.
 */
module AgentContext {
  import opened Wrappers

  datatype Context = Context(customerName: Option<string>, customerEmail: Option<string>, topic: Option<string>)

  /** `create_initial_context()`: every field unset. */
  function InitialContext(): (c: Context)
    ensures forall f :: Get(c, f) == None
  {
    Context(None, None, None)
  }

  datatype Field = CustomerName | CustomerEmail | Topic

  /** The position of a field in `model_dump()`. */
  function Rank(f: Field): nat {
    match f
    case CustomerName => 0
    case CustomerEmail => 1
    case Topic => 2
  }

  function FieldName(f: Field): string {
    match f
    case CustomerName => "customer_name"
    case CustomerEmail => "customer_email"
    case Topic => "topic"
  }

  function Get(c: Context, f: Field): Option<string> {
    match f
    case CustomerName => c.customerName
    case CustomerEmail => c.customerEmail
    case Topic => c.topic
  }

  /** One entry of the `changes` dict: a field and its new value. */
  datatype Change = Change(field: Field, value: Option<string>)

  predicate Differs(before: Context, after: Context, f: Field) {
    Get(before, f) != Get(after, f)
  }

  /** The entry for `f` if its value differs, else nothing. */
  function ChangeOf(before: Context, after: Context, f: Field): seq<Change> {
    if Differs(before, after, f) then [Change(f, Get(after, f))] else []
  }

  /** `{k: new[k] for k in new if old.get(k) != new[k]}`, keys in field order. */
  function Diff(before: Context, after: Context): seq<Change> {
    ChangeOf(before, after, CustomerName) + ChangeOf(before, after, CustomerEmail) + ChangeOf(before, after, Topic)
  }

  /** The changes name exactly the fields whose value differs, each once,
      with its new value, in field order. */
  lemma DiffExact(before: Context, after: Context)
    ensures var d := Diff(before, after);
      && (forall f :: Differs(before, after, f) <==> exists k :: 0 <= k < |d| && d[k].field == f)
      && (forall k | 0 <= k < |d| :: d[k].value == Get(after, d[k].field))
      && (forall i, j | 0 <= i < j < |d| :: Rank(d[i].field) < Rank(d[j].field))
  {
    var d := Diff(before, after);
    forall f | Differs(before, after, f) ensures exists k :: 0 <= k < |d| && d[k].field == f {
      var a, b := ChangeOf(before, after, CustomerName), ChangeOf(before, after, CustomerEmail);
      match f
      case CustomerName => assert d[0].field == f;
      case CustomerEmail => assert d[|a|].field == f;
      case Topic => assert d[|a| + |b|].field == f;
    }
  }

  /** No change is reported exactly when the context is unchanged. */
  lemma DiffEmptyIff(before: Context, after: Context)
    ensures Diff(before, after) == [] <==> before == after
  {
    DiffExact(before, after);
    if before != after {
      var f :| Differs(before, after, f) by {
        if before.customerName != after.customerName { assert Differs(before, after, CustomerName); }
        else if before.customerEmail != after.customerEmail { assert Differs(before, after, CustomerEmail); }
        else { assert Differs(before, after, Topic); }
      }
    }
  }
}
