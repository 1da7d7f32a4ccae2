/** The `operators` table of the dice plugin: six tokens, five integer comparisons. */
module Operators {
  import opened Results

  datatype Op = Eq | Lt | Gt | Le | Ge

  /** The comparison an operator applies to two totals. */
  function Holds(op: Op, a: int, b: int): bool {
    match op
    case Eq => a == b
    case Lt => a < b
    case Gt => a > b
    case Le => a <= b
    case Ge => a >= b
  }

  /**
   * An entry of the table. `name` is the JavaScript `name` of the arrow
   * function, which is the property key it was defined under, so `=` and
   * `==` compare alike but are displayed as written.
   */
  datatype Operator = Operator(op: Op, name: string)

  /** The keys of the table, in declaration order. */
  const OperatorTokens: seq<string> := ["=", "==", "<", ">", "<=", ">="]

  /** `operators[op]`: the entry for a token, or None when the table has no such key. */
  function LookupOperator(token: string): (r: Option<Operator>)
    ensures r.Some? ==> r.value.name == token
  {
    if token == "=" || token == "==" then Some(Operator(Eq, token))
    else if token == "<" then Some(Operator(Lt, token))
    else if token == ">" then Some(Operator(Gt, token))
    else if token == "<=" then Some(Operator(Le, token))
    else if token == ">=" then Some(Operator(Ge, token))
    else None
  }

  /** Exactly the six keys of the table are operators. */
  lemma KnownTokens(token: string)
    ensures LookupOperator(token).Some? <==> token in OperatorTokens
  {
  }

  /**
   * Each key compares as its JavaScript arrow function does: `=` and `==`
   * both test equality, the others the usual orderings.
   */
  lemma TokenMeaning(a: int, b: int)
    ensures Holds(LookupOperator("=").value.op, a, b) == (a == b)
    ensures Holds(LookupOperator("==").value.op, a, b) == (a == b)
    ensures Holds(LookupOperator("<").value.op, a, b) == (a < b)
    ensures Holds(LookupOperator(">").value.op, a, b) == (a > b)
    ensures Holds(LookupOperator("<=").value.op, a, b) == (a <= b)
    ensures Holds(LookupOperator(">=").value.op, a, b) == (a >= b)
  {
  }

  /** A run of `<`, `>` and `=` of length three or more is never an operator. */
  lemma LongRunsUnknown(token: string)
    requires |token| >= 3
    ensures LookupOperator(token).None?
  {
  }

  /** The two-character runs the grammar accepts that are not operators. */
  lemma UnknownPairs()
    ensures LookupOperator("=<").None? && LookupOperator("=>").None?
    ensures LookupOperator("<<").None? && LookupOperator(">>").None?
    ensures LookupOperator("<>").None? && LookupOperator("><").None?
  {
  }
}
