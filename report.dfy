/**
 * The reply of the dice command as the sequence of pieces appended to its
 * markdown text, and the errors it throws.
 */
module Report {
  import opened JointTable

  datatype Error =
    | InvalidCommand
    | BadDefinition(message: string)     // thrown by the roll definition constructor
    | UnknownOperator(op: string)
    | TooManyDice

  /** The text of the `Error` the command throws: an unknown operator is named after a fixed prefix, a definition's own message is passed on. */
  function Message(e: Error): (m: string)
    ensures e.UnknownOperator? ==> |m| >= |UnknownOperatorPrefix| && m[|UnknownOperatorPrefix|..] == e.op
    ensures e.BadDefinition? ==> m == e.message
  {
    match e
    case InvalidCommand => "Invalid command"
    case BadDefinition(m) => m
    case UnknownOperator(op) => UnknownOperatorPrefix + op
    case TooManyDice => "Too Many Dice : Board is flooded"
  }

  const UnknownOperatorPrefix := "Unknown Operator: "

  /** The fixed messages differ from each other and from every unknown-operator message, which also tell their operators apart. */
  lemma MessagesDistinct(a: string, b: string)
    ensures Message(InvalidCommand) != Message(TooManyDice)
    ensures Message(UnknownOperator(a)) != Message(InvalidCommand)
    ensures Message(UnknownOperator(a)) != Message(TooManyDice)
    ensures Message(UnknownOperator(a)) == Message(UnknownOperator(b)) ==> a == b
  {
    assert Message(UnknownOperator(a))[0] == 'U';
    assert Message(InvalidCommand)[0] == 'I';
    assert Message(TooManyDice)[0] == 'T';
  }

  /**
   * One piece of a view's reply. `Description` is the text `showDef` and
   * `showDefScalar` start from (`showDefDef` starts from the empty text);
   * every other section is appended. The heading and table of a roll,
   * the "## Roll:" heading and table of a pair, and the heading, graph
   * directive and table of the joint distribution are one section each.
   * Descriptions, expectations and probabilities of comparisons are produced
   * by the roll definition engine, so a section records which of them is
   * asked for, about which definition and operator; only the joint table's
   * rows carry the probabilities themselves.
   */
  datatype Section =
    | Description(def: string)                                   // def.description()
    | Expectation(def: string)                                   // ", expecting **…**"
    | DiceListing(result: int, columns: seq<int>, dice: seq<int>) // "Roll: **result**" and the per-die table
    | Aggregate(total: int)                                      // "Roll: **sum**"
    | ScalarProbability(def: string, op: string, scalar: int)
    | ScalarVerdict(sum: int, yes: bool)
    | PairProbability(left: string, op: string, right: string)
    | PairVerdict(left: string, op: string, right: string, sa: int, yes: bool, sb: int)
    | Distribution(def: string)                                  // "## Distribution:" and the engine's table
    | JointDistribution(left: string, right: string, rows: seq<Row>)

  /** The place of a section in the reply: heading, probability, roll, table. */
  function Rank(s: Section): nat {
    match s
    case Description(_) => 0
    case Expectation(_) | ScalarProbability(_, _, _) | PairProbability(_, _, _) => 1
    case DiceListing(_, _, _) | Aggregate(_) | ScalarVerdict(_, _) | PairVerdict(_, _, _, _, _, _) => 2
    case Distribution(_) | JointDistribution(_, _, _) => 3
  }

  /** Sections come in the order of their ranks, at most one of each rank. */
  ghost predicate Ordered(md: seq<Section>) {
    forall i, j :: 0 <= i < j < |md| ==> Rank(md[i]) < Rank(md[j])
  }
}
