/**
 * `onCommand` of the dice plugin: match the command, derive the option
 * flags, build the left roll definition, look up the operator, decide
 * between a scalar and a second definition, and render the chosen view.
 */
module Plugin {
  import opened Results
  import opened CommandGrammar
  import opened OptionWords
  import opened Operators
  import opened Scalars
  import opened Dice
  import opened Report
  import opened Views

  /** The view `onCommand` chose, with its operands. */
  datatype Request =
    | SingleView(options: Options, def: RollDef)
    | ScalarView(options: Options, def: RollDef, operator: Operator, scalar: int)
    | PairView(options: Options, left: RollDef, operator: Operator, right: RollDef)
  {
    /** The definition built from the left group, which every view receives. */
    function Left(): RollDef {
      match this
      case SingleView(_, def) => def
      case ScalarView(_, def, _, _) => def
      case PairView(_, left, _, _) => left
    }
  }

  /**
   * The matched groups reach a view: the left definition builds, and an
   * inequation has a known operator and a right token that is a number or
   * builds as a definition.
   */
  predicate Builds(g: Groups, parse: DefParser) {
    && parse(g.left).Ok?
    && (g.inequation.Some? ==>
          && LookupOperator(g.inequation.value.op).Some?
          && (ParseScalar(g.inequation.value.right).Some? || parse(g.inequation.value.right).Ok?))
  }

  /** The error of a definition that does not build: the left one, or else a right token that is not a number. */
  predicate DefinitionFails(g: Groups, parse: DefParser, message: string) {
    || parse(g.left) == Err(message)
    || (&& parse(g.left).Ok? && g.inequation.Some?
        && LookupOperator(g.inequation.value.op).Some?
        && ParseScalar(g.inequation.value.right).None?
        && parse(g.inequation.value.right) == Err(message))
  }

  /**
   * The decisions of `onCommand` up to the call of a view, in the order the
   * source makes them: the command must match, the left definition is built
   * before the operator is looked up, and the right token is built as a
   * definition only when it is not a number.
   */
  function Dispatch(args: string, parse: DefParser): (r: Result<Request, Error>)
    ensures r == Err(InvalidCommand) <==> MatchCommand(args).None?
    ensures r.Ok? ==> r.value.options == DeriveOptions(MatchCommand(args).value.options)
    ensures r.Err? && r.error.UnknownOperator? ==> LookupOperator(r.error.op).None?
    ensures MatchCommand(args).Some? ==> (r.Ok? <==> Builds(MatchCommand(args).value, parse))
    ensures r.Ok? ==> parse(MatchCommand(args).value.left) == Ok(r.value.Left())
    ensures r.Err? && r.error.BadDefinition? ==>
      MatchCommand(args).Some? && DefinitionFails(MatchCommand(args).value, parse, r.error.message)
  {
    Decide(MatchCommand(args), parse)
  }

  /**
   * The decisions of `Dispatch` once the command has been matched (or not):
   * a failed match is the only way to "Invalid command"; a matched command
   * reaches a view exactly when its definitions build and its operator is
   * known; the request carries the flags of the matched options and the
   * definition built from the left group; an unknown operator is a token
   * the table lacks; a definition error is the message of the build that
   * failed.
   */
  function Decide(m: Option<Groups>, parse: DefParser): (r: Result<Request, Error>)
    ensures r == Err(InvalidCommand) <==> m.None?
    ensures r.Ok? ==> m.Some? && r.value.options == DeriveOptions(m.value.options)
    ensures r.Err? && r.error.UnknownOperator? ==> m.Some? && LookupOperator(r.error.op).None?
    ensures m.Some? ==> (r.Ok? <==> Builds(m.value, parse))
    ensures r.Ok? ==> parse(m.value.left) == Ok(r.value.Left())
    ensures r.Err? && r.error.BadDefinition? ==> m.Some? && DefinitionFails(m.value, parse, r.error.message)
    ensures m.Some? && parse(m.value.left).Err? ==> r == Err(BadDefinition(parse(m.value.left).error))
    ensures m.Some? && parse(m.value.left).Ok? && m.value.inequation.Some?
      && LookupOperator(m.value.inequation.value.op).Some?
      && ParseScalar(m.value.inequation.value.right).None?
      && parse(m.value.inequation.value.right).Err?
      ==> r == Err(BadDefinition(parse(m.value.inequation.value.right).error))
  {
    match m
    case None => Err(InvalidCommand)
    case Some(g) =>
      var options := DeriveOptions(g.options);
      match parse(g.left)
      case Err(m) => Err(BadDefinition(m))
      case Ok(left) =>
        match g.inequation
        case None => Ok(SingleView(options, left))
        case Some(Inequation(op, right)) =>
          match LookupOperator(op)
          case None => Err(UnknownOperator(op))
          case Some(operator) =>
            match ParseScalar(right)
            case Some(x) => Ok(ScalarView(options, left, operator, x))
            case None =>
              match parse(right)
              case Err(m) => Err(BadDefinition(m))
              case Ok(rightDef) => Ok(PairView(options, left, operator, rightDef))
  }

  /** "Invalid command" is thrown exactly for the commands no split of the pattern covers. */
  lemma InvalidCommandExactly(args: string, parse: DefParser)
    ensures Dispatch(args, parse) == Err(InvalidCommand) <==> forall c :: !Splits(args, c)
  {
    MatchCommandSpec(args);
  }

  /**
   * Once the command matches and its left definition is built, an operator
   * token outside the table, and only such a token, throws "Unknown Operator".
   */
  lemma UnknownOperatorExactly(args: string, parse: DefParser)
    requires MatchCommand(args).Some? && MatchCommand(args).value.inequation.Some?
    requires parse(MatchCommand(args).value.left).Ok?
    ensures var op := MatchCommand(args).value.inequation.value.op;
      Dispatch(args, parse) == Err(UnknownOperator(op)) <==> op !in OperatorTokens
  {
    KnownTokens(MatchCommand(args).value.inequation.value.op);
  }

  /** A left definition that cannot be built throws first, whatever the operator. */
  lemma LeftDefinitionFirst(args: string, parse: DefParser)
    requires MatchCommand(args).Some? && parse(MatchCommand(args).value.left).Err?
    ensures Dispatch(args, parse) == Err(BadDefinition(parse(MatchCommand(args).value.left).error))
  {
  }

  /**
   * Once the left definition is built and the operator is known, a right
   * token that is not a number and cannot be built throws the builder's own
   * message.
   */
  lemma RightDefinitionError(args: string, parse: DefParser)
    requires MatchCommand(args).Some? && MatchCommand(args).value.inequation.Some?
    requires parse(MatchCommand(args).value.left).Ok?
    requires LookupOperator(MatchCommand(args).value.inequation.value.op).Some?
    requires ParseScalar(MatchCommand(args).value.inequation.value.right).None?
    requires parse(MatchCommand(args).value.inequation.value.right).Err?
    ensures Dispatch(args, parse) == Err(BadDefinition(parse(MatchCommand(args).value.inequation.value.right).error))
  {
  }

  /**
   * The chosen view follows the groups of the match: no operator, the single
   * view; a signed decimal right token, the scalar view with its value;
   * any other right token, the two-definition view.
   */
  lemma ViewSelection(args: string, parse: DefParser)
    requires Dispatch(args, parse).Ok?
    ensures MatchCommand(args).Some?
    ensures var g := MatchCommand(args).value;
      var req := Dispatch(args, parse).value;
      && parse(g.left) == Ok(req.Left())
      && (req.SingleView? <==> g.inequation.None?)
      && (req.ScalarView? <==> g.inequation.Some? && IsSignedDecimal(g.inequation.value.right))
      && (req.PairView? <==> g.inequation.Some? && !IsSignedDecimal(g.inequation.value.right))
      && (!req.SingleView? ==> Some(req.operator) == LookupOperator(g.inequation.value.op))
      && (req.ScalarView? ==> Some(req.scalar) == ParseScalar(g.inequation.value.right))
      && (req.PairView? ==> parse(g.inequation.value.right) == Ok(req.right))
  {
    var m := MatchCommand(args);
    assert Dispatch(args, parse) == Decide(m, parse);
    DecideSelection(m, parse);
  }

  lemma DecideSelection(m: Option<Groups>, parse: DefParser)
    requires Decide(m, parse).Ok?
    ensures m.Some?
    ensures var g := m.value;
      var req := Decide(m, parse).value;
      && parse(g.left) == Ok(req.Left())
      && req.options == DeriveOptions(g.options)
      && (req.SingleView? <==> g.inequation.None?)
      && (req.ScalarView? <==> g.inequation.Some? && IsSignedDecimal(g.inequation.value.right))
      && (req.PairView? <==> g.inequation.Some? && !IsSignedDecimal(g.inequation.value.right))
      && (!req.SingleView? ==> Some(req.operator) == LookupOperator(g.inequation.value.op))
      && (req.ScalarView? ==> Some(req.scalar) == ParseScalar(g.inequation.value.right))
      && (req.PairView? ==> parse(g.inequation.value.right) == Ok(req.right))
  {
  }

  /** The flags of every request are the words of the options group, as `OptionFlags` reads them. */
  lemma RequestOptions(args: string, parse: DefParser)
    requires Dispatch(args, parse).Ok?
    ensures MatchCommand(args).Some?
    ensures var w := Words(MatchCommand(args).value.options);
      var o := Dispatch(args, parse).value.options;
      && (o.all <==> "all" in w)
      && (o.roll <==> "all" in w || "roll" in w)
      && (o.distrib <==> "all" in w || "roll" !in w || SomeStartsWith(w, "dist"))
  {
    var m := MatchCommand(args);
    assert Dispatch(args, parse) == Decide(m, parse);
    DecideSelection(m, parse);
    MatchedOptionsAreWords(args);
    OptionFlags(m.value.options);
  }

  /** A request with its view's reply; `roll`, `sumA` and `sumB` are the random draws the view consumes. */
  ghost predicate Replied(req: Request, roll: RolledDice, sumA: int, sumB: int, r: Result<seq<Section>, Error>) {
    match req
    case SingleView(o, d) => SingleShown(d, o, roll, sumA, r)
    case ScalarView(o, d, op, x) => r.Ok? && ScalarSections(d, op, x, o, sumA, r.value)
    case PairView(o, a, op, b) => r.Ok? && PairSections(a, op, b, o, sumA, sumB, r.value)
  }

  /**
   * `onCommand`: the reply to a command, or the error it throws. Only the
   * single view can fail once a request is formed, and only with `roll` on
   * more than 50000 dice.
   */
  method OnCommand(args: string, parse: DefParser, roll: RolledDice, sumA: int, sumB: int)
    returns (r: Result<seq<Section>, Error>)
    ensures Dispatch(args, parse).Err? ==> r == Err(Dispatch(args, parse).error)
    ensures Dispatch(args, parse).Ok? ==> Replied(Dispatch(args, parse).value, roll, sumA, sumB, r)
  {
    var request := Dispatch(args, parse);
    if request.Err? {
      return Err(request.error);
    }
    match request.value
    case SingleView(options, def) =>
      r := ShowDef(def, options, roll, sumA);
    case ScalarView(options, def, operator, scalar) =>
      var md := ShowDefScalar(def, operator, scalar, options, sumA);
      r := Ok(md);
    case PairView(options, left, operator, right) =>
      var md := ShowDefDef(left, operator, right, options, sumA, sumB);
      r := Ok(md);
  }
}
