/**
 * What the plugin sees of a roll definition. The engine that parses dice
 * tokens, convolves distributions and draws random rolls is not part of
 * this model: a parsed definition is an abstract record, and random draws
 * arrive as inputs.
 */
module Dice {
  import opened Results

  /**
   * A parsed roll definition: its token, the number of dice `n` (`def.N`),
   * the number of sides `s` (`def.S`), the smallest and largest possible
   * totals of its distribution, and the probability of each total.
   */
  datatype RollDef = RollDef(token: string, n: int, s: int, minV: int, maxV: int, probability: int -> real)

  /** `new DiceRollDefinition(token)`: a definition, or the message the constructor throws. */
  type DefParser = string -> Result<RollDef, string>

  /** The value of `def.roll()`: the total and every die, in order. */
  datatype RolledDice = RolledDice(result: int, dice: seq<int>)
}
