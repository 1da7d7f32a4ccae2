# Dice command front-end: a Dafny model

This project models the front-end of the `!!dice` command of the miaou chat
server's dice plugin (`plugins/dice/plugin.js`). A command such as
`roll 3d6+2 >= 10` is handled in these steps:

- it is matched against the plugin's command pattern, which has four groups:
  options, left roll definition, operator and right token;
- the `all`, `roll` and `distrib` flags are derived from the option words;
- the left roll definition is built;
- the operator is looked up in the six-entry `operators` table;
- the request goes to one of three views: a definition on its own
  (`showDef`), compared with a number (`showDefScalar`), or compared with a
  second definition (`showDefDef`);
- each view builds its markdown reply by appending sections. Integer
  resource guards decide which sections appear. The joint view's table comes
  from a loop over the totals `[min, max]`.

The dice engine (`DiceRollDefinition.js`) is not part of this model. A parsed
roll definition is an abstract record `Dice.RollDef`: its token, `N`, `S`, the
smallest and largest total, and a probability function. A parser passed in as
a parameter produces it, and the constructor's exceptions become a `Result`.
Random draws (`roll()`, `sum()`) are inputs of the views. A reply is a
sequence of `Report.Section` values, one per piece of the reply: the
description `showDef` and `showDefScalar` start from (`showDefDef` starts
from the empty text), then each piece a view appends. A roll's line
and per-die table, the pair view's "## Roll:" heading and table, and the
joint table's heading and table are one section each. A
section records what is shown: which definition, operator, sampled values and
table rows. It does not hold the final markdown text. Descriptions,
expectations and the probabilities of comparisons are the engine's, so their
sections name what is asked for. The exception is the joint table: its rows
carry the values of `probability(v)` for both definitions.

Modules, leaves first:

- `Results`: `Option` and `Result`.
- `Chars`: the regular-expression character classes, and greedy runs
  (`SkipWhile`).
- `CommandGrammar` (`cmdArgRegex`):
  - a recognizer `Splits(s, cuts)` saying which positions cut the text into
    the pattern's pieces;
  - the match the regular expression engine reports. Backtracking from the
    longest letter/space prefix means the options group is the longest one
    that lets the rest match.
- `OptionWords`: the flag derivation, using the `\b` word tests as written,
  and its reading as "which words occur".
- `Operators`: the `operators` table.
- `Scalars`: the test `right==+right` for signed decimal tokens.
- `Dice`, `Report`: the abstract engine interface; the reply sections and
  errors.
- `JointTable`: the joint-table row loop, with a specification
  (`RowsSpec`) and a reference definition (`JointRows`) that it determines.
- `Views`: `showDef`, `showDefScalar`, `showDefDef` and their guards.
- `Plugin`: `onCommand`.

Three details of the code decide the model's behaviour:

- The scalar test is JavaScript loose equality `right==+right`, not a round
  trip. It holds whenever the token converts to a number, so `007` and `+7`
  are the scalar 7 (`Scalars.LooseEquality`).
- The word tests on the options (`/\ball\b/`, `/\broll\b/`, `/\bdist/`) have
  no `i` flag. The command pattern is case-insensitive, but the flags are not:
  `ALL` is an option word that sets nothing (`OptionWords.CaseSensitive`).
- The operator's displayed name is the table key it was found under. So `=`
  and `==` compare alike but are shown as typed (`Operators.LookupOperator`).

## Model

| member | source | states |
|---|---|---|
| `Chars.SkipWhile` | plugins/dice/plugin.js:19-27 | a greedy `p*` consumes a run of class `p` that cannot be extended, and nothing else |
| `Chars.SkipWhileUnique` | plugins/dice/plugin.js:19-27 | any run that cannot be extended is exactly the one the greedy scan takes |
| `CommandGrammar.Scan` | plugins/dice/plugin.js:20-27 | the scan after an options prefix yields only genuine splits of the whole text with that prefix |
| `CommandGrammar.ScanComplete` | plugins/dice/plugin.js:20-27 | every split of the text is found by the scan for its options length |
| `CommandGrammar.SplitsUnique` | plugins/dice/plugin.js:20-27 | once the options group is fixed, the left definition, operator and right token are determined |
| `CommandGrammar.Search` | plugins/dice/plugin.js:19 | backtracking the options group from length k yields a split whose options are no longer than k |
| `CommandGrammar.SearchComplete` | plugins/dice/plugin.js:19 | backtracking from k finds a split whenever one with options of length at most k exists, and one at least as long |
| `CommandGrammar.SplitSpec` | plugins/dice/plugin.js:18-28 | the pattern matches iff some split exists, and the reported split has the longest options group of all splits |
| `CommandGrammar.MatchCommandSpec` | plugins/dice/plugin.js:18-28 | `match` returns nothing exactly when no split exists, and otherwise the groups of the greedy split |
| `CommandGrammar.MatchCommand` | plugins/dice/plugin.js:105 | `ct.args.match(cmdArgRegex)`: a match's options group is a prefix of the command; `MatchCommandSpec` states which match it is |
| `CommandGrammar.MatchedOptionsAreWords` | plugins/dice/plugin.js:19 | the captured options group holds only letters and spaces |
| `CommandGrammar.GreedyOptionsExample` | plugins/dice/plugin.js:19-20 | `roll d6` has two splits; the match takes options `roll ` and left `d6` |
| `OptionWords.DeriveOptions` | plugins/dice/plugin.js:109-111 | `all` implies both `roll` and `distrib`; without `roll` the distribution is always requested |
| `OptionWords.WholeWordIsWord` | plugins/dice/plugin.js:109-110 | on letters-and-spaces text, `/\bw\b/` matches iff `w` is one of the space-separated words |
| `OptionWords.WordStartIsPrefix` | plugins/dice/plugin.js:111 | on letters-and-spaces text, `/\bw/` matches iff some word starts with `w` |
| `OptionWords.OptionFlags` | plugins/dice/plugin.js:109-111 | `all` iff word `all`; `roll` iff `all` or word `roll`; `distrib` iff `all`, or no `roll`, or a word starting with `dist` |
| `OptionWords.NoOptionWords` | plugins/dice/plugin.js:109-111 | with no option words: not `all`, not `roll`, `distrib` |
| `OptionWords.CaseSensitive` | plugins/dice/plugin.js:109-111 | `ALL roll` gives `roll` only: the word tests ignore upper-case `ALL`, and `roll` without `dist` turns the distribution off |
| `Operators.LookupOperator` | plugins/dice/plugin.js:4-11 | a found operator's displayed name is the token it was looked up with |
| `Operators.KnownTokens` | plugins/dice/plugin.js:4-11 | exactly the six tokens `=`, `==`, `<`, `>`, `<=`, `>=` are operators |
| `Operators.TokenMeaning` | plugins/dice/plugin.js:5-10 | `Holds`, applied to each key's operator: `=` and `==` test integer equality; `<`, `>`, `<=`, `>=` the usual orderings |
| `Operators.LongRunsUnknown` | plugins/dice/plugin.js:115-116 | no token of three or more characters is an operator, so runs such as `<<=`, which the pattern's `[<>=]+` accepts, are unknown operators |
| `Operators.UnknownPairs` | plugins/dice/plugin.js:115-116 | `=<`, `=>`, `<<`, `>>`, `<>`, `><` are not operators |
| `Scalars.ParseScalar` | plugins/dice/plugin.js:117-118 | a right token is a scalar iff it is an optional sign and decimal digits; the sign decides the sign of the value |
| `Scalars.ScalarRoundTrip` | plugins/dice/plugin.js:117-118 | every integer, as JavaScript prints it, is a scalar with that value |
| `Scalars.DigitsRoundTrip` | plugins/dice/plugin.js:118 | the value of an integer's decimal digits is the integer |
| `Scalars.DiceTokensAreNotScalars` | plugins/dice/plugin.js:117-121 | in the model's signed-decimal domain, a token containing a letter, such as `2d6`, is not a scalar, so it takes the second-definition branch; JavaScript tokens such as `1e3` or `0x1f` are the exception recorded on the `Scalars.ParseScalar` line under "Left out" |
| `Scalars.LooseEquality` | plugins/dice/plugin.js:117 | `007`, `+7` and `-0` are scalars, though they do not print back as written |
| `JointTable.BuildJointRows` | plugins/dice/plugin.js:87-93 | the loop's rows strictly increase, lie in `[min,max]`, carry their totals' probabilities, omit a total iff `pa+pb<1e-10`, and number at most `max-min+1` |
| `JointTable.RowsSpecUnique` | plugins/dice/plugin.js:87-93 | rows with those properties are exactly the reference table `JointRows` |
| `JointTable.JointRowsMeetSpec` | plugins/dice/plugin.js:87-93 | the reference table has those properties |
| `JointTable.RowsSpecExactly` | plugins/dice/plugin.js:87-93 | rows have those properties iff they are the reference table |
| `JointTable.RowsBound` | plugins/dice/plugin.js:85-93 | rows with those properties number at most `max-min+1` (none when `min>max`) |
| `Views.ShowDef` | plugins/dice/plugin.js:31-51 | with `roll` and `N>50000` it throws "Too Many Dice"; else description and expectation; with `roll`, every die with columns `1..k` if `N<=30`, only the total if `30<N`; the table iff `distrib ∧ N>1 ∧ N*S<10000`; nothing else, in that order |
| `Views.ShowDefScalar` | plugins/dice/plugin.js:53-65 | never throws; description and the probability of `def op scalar` always; with `roll`, the verdict "yes" iff `op(sum, scalar)`; the table iff `distrib ∧ N>1 ∧ N*S<=5000`; nothing else |
| `Views.ShowDefDef` | plugins/dice/plugin.js:67-102 | never throws; the probability of `A op B` always; with `roll`, the verdict "yes" iff `op(sa, sb)`; the joint table iff `distrib ∧ A.N>1 ∧ B.N>1 ∧ max-min<=500`, where `min`/`max` are the smaller minimum and larger maximum; its rows as `BuildJointRows` promises; nothing else |
| `Views.TableGuardsDiffer` | plugins/dice/plugin.js:47-61 | a table the scalar view shows, the plain view shows too; they differ exactly for `5000<N*S<10000` |
| `Report.Message` | plugins/dice/plugin.js:35-116 | the thrown texts: "Too Many Dice : Board is flooded" (line 35), "Invalid command", "Unknown Operator: " followed by the operator, and a definition's own error passed on unchanged |
| `Report.MessagesDistinct` | plugins/dice/plugin.js:35-116 | the three fixed texts differ from each other and from every "Unknown Operator" text, and that text names its operator uniquely |
| `Plugin.Decide` | plugins/dice/plugin.js:106-122 | the decision chain after the match: only a failed match gives "Invalid command"; a matched command reaches a view iff its left definition builds and, with an inequation, its operator is known and its right token is a number or builds; the request carries the options' flags and the built left definition; "Unknown Operator" names a token the table lacks; a left definition that fails to build gives exactly its builder's message, and so does a right token that is not a number and fails to build once the operator is known; any definition error is one of those two messages |
| `Plugin.Dispatch` | plugins/dice/plugin.js:105-122 | the decision chain of `onCommand` up to the view: "Invalid command" iff the pattern does not match; a matched command yields a request iff its left definition builds and, with an inequation, its operator is known and its right token is a number or builds; the request carries the options' flags and the built left definition; "Unknown Operator" only for tokens outside the table; a definition error is exactly the message of the failed left build, or of the failed right build at the pair branch, and never arises otherwise |
| `Plugin.InvalidCommandExactly` | plugins/dice/plugin.js:105-106 | "Invalid command" is thrown iff no split of the pattern covers the command text |
| `Plugin.LeftDefinitionFirst` | plugins/dice/plugin.js:112-116 | a left definition that cannot be built throws before the operator is looked up |
| `Plugin.RightDefinitionError` | plugins/dice/plugin.js:117-121 | once the left definition builds and the operator is known, a right token that is not a number and cannot be built throws exactly the builder's message |
| `Plugin.UnknownOperatorExactly` | plugins/dice/plugin.js:115-116 | after a match and a built left definition, "Unknown Operator: op" is thrown iff `op` is not one of the six tokens |
| `Plugin.ViewSelection` | plugins/dice/plugin.js:114-125 | every view receives the built left definition; no operator: single view; signed decimal right token: scalar view with its value; any other right token: definition pair with the parsed right definition |
| `Plugin.RequestOptions` | plugins/dice/plugin.js:107-111 | the request's flags are read off the words of the captured options group |
| `Plugin.OnCommand` | plugins/dice/plugin.js:104-125 | the reply is the dispatch error, or the chosen view's reply as `ShowDef`, `ShowDefScalar` or `ShowDefDef` state it |

## Left out

- The `rex` template tag that builds the command pattern (plugins/dice/plugin.js:18) is not part of this model. The model assumes it removes the comments and the layout between the groups but keeps the space inside `[a-z ]`; without that space the options could not span words, and `roll dist d6` would match only from `dist`.
- `DiceRollDefinition.js` is not part of this model. Not modelled: parsing dice tokens, `description()`, `str()`, `expect()`, `roll()`, `sum()`, `distribution()`, `compareToScalar`, `compareToDistribution`, the table `md()`, `minPossibleValue()`, `maxPossibleValue()`, `probability()`. They enter only as the abstract `RollDef` record, the parser parameter and the sampled values.
- Sections record which probability, expectation or description is shown, not its value. The engine computes those values.
- `CommandGrammar.MatchCommand`: tries the pattern at the start of the text only. The pattern has no `^`, so JavaScript also tries later starting positions. For example, `!2d6` matches from its second character in the source but is an invalid command in the model.
- `Scalars.ParseScalar`: accepts only signed decimal integers. JavaScript's number conversion also accepts hexadecimal, binary and octal literals (`0x1f`, `0b1`, `0o7`), exponents (`1e3`) and `Infinity`. The source sends these to the scalar view; the model sends them to the two-definition view.
- Integers are unbounded. JavaScript numbers are doubles, so `N*S`, `max-min` and `+right` lose precision above 2^53. That is not modelled.
- Probabilities are exact reals, and the `1e-10` cutoff is compared exactly. Floating-point rounding is not modelled.
- Markdown and formatting: the markdown text itself, `fmt.float` percentages, `fmt.tbl` tables and the `#graph(hideTable,compare)` directive.
- I/O and registration glue: the duration line from `ct.end()`, `ct.reply` and its length flag, the async `init`, `registerCommands` and the help texts.
- `src/page-js/pad.mob.js` (mobile page UI) is not part of this model.
