/**
 * The three views of the dice plugin, `showDef`, `showDefScalar` and
 * `showDefDef`, and the resource guards that decide which sections they
 * produce.
 */
module Views {
  import opened Results
  import opened Operators
  import opened OptionWords
  import opened Dice
  import opened JointTable
  import opened Report

  /** Above this many dice, rolling them is refused. */
  const MaxRolledDice := 50000
  /** Up to this many dice, every die is listed. */
  const MaxListedDice := 30
  /** `N*S` must stay strictly below this for the plain view's table. */
  const PlainTableLimit := 10000
  /** `N*S` must not exceed this for the scalar view's table. */
  const ScalarTableLimit := 5000
  /** The joint table's value range `max-min` must not exceed this. */
  const JointRangeLimit := 500

  /** The columns `1..k` of the per-die table. */
  function Columns(k: nat): (c: seq<int>)
    ensures |c| == k && forall i :: 0 <= i < k ==> c[i] == i + 1
  {
    seq(k, i => i + 1)
  }

  predicate PlainTableShown(def: RollDef, o: Options) {
    o.distrib && def.n > 1 && def.n * def.s < PlainTableLimit
  }

  predicate ScalarTableShown(def: RollDef, o: Options) {
    o.distrib && def.n > 1 && def.n * def.s <= ScalarTableLimit
  }

  /** `Math.min` of the two smallest totals. */
  function JointLow(a: RollDef, b: RollDef): int {
    if a.minV <= b.minV then a.minV else b.minV
  }

  /** `Math.max` of the two largest totals. */
  function JointHigh(a: RollDef, b: RollDef): int {
    if a.maxV >= b.maxV then a.maxV else b.maxV
  }

  predicate JointTableShown(a: RollDef, b: RollDef, o: Options) {
    o.distrib && a.n > 1 && b.n > 1 && JointHigh(a, b) - JointLow(a, b) <= JointRangeLimit
  }

  /**
   * What `showDef` returns: rolling more than 50000 dice throws; otherwise
   * the description and expectation, then with `roll` either every die
   * (at most 30 dice) or only the total, then the table when its guard holds.
   */
  ghost predicate SingleShown(def: RollDef, o: Options, roll: RolledDice, sum: int, r: Result<seq<Section>, Error>) {
    && (r.Err? <==> o.roll && def.n > MaxRolledDice)
    && (r.Err? ==> r.error == TooManyDice)
    && (r.Ok? ==> SingleSections(def, o, roll, sum, r.value))
  }

  ghost predicate SingleSections(def: RollDef, o: Options, roll: RolledDice, sum: int, md: seq<Section>) {
    var listing := DiceListing(roll.result, Columns(|roll.dice|), roll.dice);
    && Ordered(md)
    && |md| >= 2 && md[0] == Description(def.token) && md[1] == Expectation(def.token)
    && (listing in md <==> o.roll && def.n <= MaxListedDice)
    && (Aggregate(sum) in md <==> o.roll && MaxListedDice < def.n)
    && (Distribution(def.token) in md <==> PlainTableShown(def, o))
    && forall k :: 0 <= k < |md| ==>
         md[k] in {Description(def.token), Expectation(def.token), listing, Aggregate(sum), Distribution(def.token)}
  }

  /**
   * What `showDefScalar` returns: the description and the probability of
   * `def op scalar` always, the verdict of the sampled `sum` under `op`
   * with `roll`, and the table when its (non-strict) guard holds.
   */
  ghost predicate ScalarSections(def: RollDef, operator: Operator, scalar: int, o: Options, sum: int, md: seq<Section>) {
    var question := ScalarProbability(def.token, operator.name, scalar);
    var verdict := ScalarVerdict(sum, Holds(operator.op, sum, scalar));
    && Ordered(md)
    && |md| >= 2 && md[0] == Description(def.token) && md[1] == question
    && (verdict in md <==> o.roll)
    && (Distribution(def.token) in md <==> ScalarTableShown(def, o))
    && forall k :: 0 <= k < |md| ==> md[k] in {Description(def.token), question, verdict, Distribution(def.token)}
  }

  /**
   * What `showDefDef` returns: the probability of `a op b` always, the
   * verdict of the two sampled sums with `roll`, and the joint table when
   * its guard holds, with rows as `RowsSpec` promises over `[min, max]`.
   */
  ghost predicate PairSections(a: RollDef, operator: Operator, b: RollDef, o: Options, sa: int, sb: int, md: seq<Section>) {
    var question := PairProbability(a.token, operator.name, b.token);
    var verdict := PairVerdict(a.token, operator.name, b.token, sa, Holds(operator.op, sa, sb), sb);
    && Ordered(md)
    && |md| >= 1 && md[0] == question
    && (verdict in md <==> o.roll)
    && ((exists k :: 0 <= k < |md| && md[k].JointDistribution?) <==> JointTableShown(a, b, o))
    && forall k :: 0 <= k < |md| ==>
         || md[k] in {question, verdict}
         || (&& md[k].JointDistribution? && md[k].left == a.token && md[k].right == b.token
             && RowsSpec(md[k].rows, JointLow(a, b), JointHigh(a, b), a.probability, b.probability))
  }

  /** `showDef`: one definition on its own; `roll` holds the value of `def.roll()`, `sum` that of `def.sum()`. */
  method ShowDef(def: RollDef, options: Options, roll: RolledDice, sum: int) returns (r: Result<seq<Section>, Error>)
    ensures SingleShown(def, options, roll, sum, r)
  {
    var md := [Description(def.token)];
    md := md + [Expectation(def.token)];
    if options.roll {
      if def.n > MaxRolledDice {
        return Err(TooManyDice);
      }
      if def.n <= MaxListedDice {
        md := md + [DiceListing(roll.result, Columns(|roll.dice|), roll.dice)];
      } else {
        md := md + [Aggregate(sum)];
      }
    }
    if options.distrib && def.n > 1 && def.n * def.s < PlainTableLimit {
      md := md + [Distribution(def.token)];
    }
    return Ok(md);
  }

  /** `showDefScalar`: a definition compared with a number; `sum` is the value of `def.sum()`. */
  method ShowDefScalar(def: RollDef, operator: Operator, scalar: int, options: Options, sum: int) returns (md: seq<Section>)
    ensures ScalarSections(def, operator, scalar, options, sum, md)
  {
    md := [Description(def.token)];
    md := md + [ScalarProbability(def.token, operator.name, scalar)];
    if options.roll {
      md := md + [ScalarVerdict(sum, Holds(operator.op, sum, scalar))];
    }
    if options.distrib && def.n > 1 && def.n * def.s <= ScalarTableLimit {
      md := md + [Distribution(def.token)];
    }
  }

  /** `showDefDef`: two definitions compared; `sa` and `sb` are the values of `defA.sum()` and `defB.sum()`. */
  method ShowDefDef(a: RollDef, operator: Operator, b: RollDef, options: Options, sa: int, sb: int) returns (md: seq<Section>)
    ensures PairSections(a, operator, b, options, sa, sb, md)
  {
    md := [];
    md := md + [PairProbability(a.token, operator.name, b.token)];
    if options.roll {
      md := md + [PairVerdict(a.token, operator.name, b.token, sa, Holds(operator.op, sa, sb), sb)];
    }
    if options.distrib && a.n > 1 && b.n > 1 {
      var lo := JointLow(a, b);
      var hi := JointHigh(a, b);
      if hi - lo <= JointRangeLimit {
        var rows := BuildJointRows(lo, hi, a.probability, b.probability);
        md := md + [JointDistribution(a.token, b.token, rows)];
        assert md[|md| - 1].JointDistribution?;
      }
    }
  }

  /**
   * The two single-definition table guards differ only for `N*S` in
   * `(5000, 10000)`, where the plain view shows the table and the scalar
   * view does not; a table the scalar view shows, the plain view shows too.
   */
  lemma TableGuardsDiffer(def: RollDef, o: Options)
    ensures ScalarTableShown(def, o) ==> PlainTableShown(def, o)
    ensures PlainTableShown(def, o) && !ScalarTableShown(def, o) <==>
      o.distrib && def.n > 1 && ScalarTableLimit < def.n * def.s < PlainTableLimit
  {
  }
}
