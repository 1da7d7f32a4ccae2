/**
 * The command pattern of the dice plugin,
 *   ([a-z ]*)(\d*\s*d\s*[\d+-]+)(?:\s*([<>=]+)\s*([\w+-]+))?\s*$   (flag i)
 * as a recognizer over cut positions, and the match a backtracking engine
 * reports when it tries the pattern at the start of the text.
 */
module CommandGrammar {
  import opened Results
  import opened Chars

  /** Positions of the optional inequation: operator `s[opStart..opEnd]`, right token `s[rightStart..rightEnd]`. */
  datatype TailCuts = Bare | Compared(opStart: nat, opEnd: nat, rightStart: nat, rightEnd: nat)

  /**
   * Positions splitting a command: options `s[..optionsEnd]`, count digits
   * `s[optionsEnd..countEnd]`, spaces, the die letter at `dieAt`, spaces,
   * sides and modifier `s[sidesStart..leftEnd]`, then the tail.
   */
  datatype Cuts = Cuts(optionsEnd: nat, countEnd: nat, dieAt: nat, sidesStart: nat, leftEnd: nat, tail: TailCuts)

  datatype Inequation = Inequation(op: string, right: string)

  /** The capture groups of a match: options, left roll definition, operator and right token. */
  datatype Groups = Groups(options: string, left: string, inequation: Option<Inequation>)

  /** `c` splits the whole of `s` into the pieces the pattern asks for. */
  ghost predicate Splits(s: string, c: Cuts) {
    Run(s, 0, c.optionsEnd, IsOptionChar) && LeftSplits(s, c) && TailSplits(s, c.leftEnd, c.tail)
  }

  /** The left roll definition `\d*\s*d\s*[\d+-]+` occupies `s[c.optionsEnd..c.leftEnd]`. */
  ghost predicate LeftSplits(s: string, c: Cuts) {
    && Run(s, c.optionsEnd, c.countEnd, IsDigit)
    && Run(s, c.countEnd, c.dieAt, IsSpace)
    && c.dieAt < |s| && IsDieLetter(s[c.dieAt])
    && Run(s, c.dieAt + 1, c.sidesStart, IsSpace)
    && c.sidesStart < c.leftEnd
    && Run(s, c.sidesStart, c.leftEnd, IsLeftTailChar)
  }

  /** From `leftEnd` on, `s` is the optional inequation followed by trailing white space. */
  ghost predicate TailSplits(s: string, leftEnd: nat, t: TailCuts) {
    match t
    case Bare => Run(s, leftEnd, |s|, IsSpace)
    case Compared(f, g, h, m) =>
      && Run(s, leftEnd, f, IsSpace)
      && f < g && Run(s, f, g, IsOperatorChar)
      && Run(s, g, h, IsSpace)
      && h < m && Run(s, h, m, IsRightChar)
      && Run(s, m, |s|, IsSpace)
  }

  /** The capture groups a split yields. */
  function GroupsOf(s: string, c: Cuts): (g: Groups)
    requires Splits(s, c)
    ensures s == g.options + s[c.optionsEnd..]
    ensures g.inequation.None? <==> c.tail.Bare?
  {
    Groups(s[..c.optionsEnd], s[c.optionsEnd..c.leftEnd],
      match c.tail
      case Bare => None
      case Compared(f, g, h, m) => Some(Inequation(s[f..g], s[h..m])))
  }

  /**
   * Matches everything after an options prefix of length `k`. Every part of
   * the pattern after the options group is forced to be maximal (the class
   * that follows it never shares a character with it), so a greedy scan
   * finds the only split with this options prefix, if there is one.
   */
  function Scan(s: string, k: nat): (r: Option<Cuts>)
    requires Run(s, 0, k, IsOptionChar)
    ensures r.Some? ==> Splits(s, r.value) && r.value.optionsEnd == k
  {
    match ScanLeft(s, k)
    case None => None
    case Some(c) =>
      match ScanTail(s, c.leftEnd)
      case None => None
      case Some(t) => Some(c.(tail := t))
  }

  /** The left roll definition starting at `k`, with a placeholder tail. */
  function ScanLeft(s: string, k: nat): (r: Option<Cuts>)
    requires k <= |s|
    ensures r.Some? ==> LeftSplits(s, r.value) && r.value.optionsEnd == k
  {
    var a := SkipWhile(s, k, IsDigit);
    var b := SkipWhile(s, a, IsSpace);
    if b == |s| || !IsDieLetter(s[b]) then None
    else
      var c := SkipWhile(s, b + 1, IsSpace);
      var e := SkipWhile(s, c, IsLeftTailChar);
      if e == c then None else Some(Cuts(k, a, b, c, e, Bare))
  }

  /** The optional inequation and trailing white space from `e` to the end of `s`. */
  function ScanTail(s: string, e: nat): (r: Option<TailCuts>)
    requires e <= |s|
    ensures r.Some? ==> TailSplits(s, e, r.value)
  {
    var f := SkipWhile(s, e, IsSpace);
    if f == |s| then Some(Bare)
    else
      var g := SkipWhile(s, f, IsOperatorChar);
      var h := SkipWhile(s, g, IsSpace);
      var m := SkipWhile(s, h, IsRightChar);
      var n := SkipWhile(s, m, IsSpace);
      if g == f || m == h || n < |s| then None
      else Some(Compared(f, g, h, m))
  }

  /** The options prefix is backtracked from length `k` down to 0; the first length that lets the rest match wins. */
  function Search(s: string, k: nat): (r: Option<Cuts>)
    requires Run(s, 0, k, IsOptionChar)
    ensures r.Some? ==> Splits(s, r.value) && r.value.optionsEnd <= k
    decreases k
  {
    match Scan(s, k)
    case Some(c) => Some(c)
    case None => if k == 0 then None else Search(s, k - 1)
  }

  /** The split the regular expression engine picks: the greedy options group starts from the longest letter/space prefix. */
  function Split(s: string): Option<Cuts> {
    Search(s, SkipWhile(s, 0, IsOptionChar))
  }

  /** `ct.args.match(cmdArgRegex)`, as capture groups, or None when the command does not match. */
  function MatchCommand(s: string): (r: Option<Groups>)
    ensures r.Some? ==> r.value.options <= s
  {
    match Split(s)
    case None => None
    case Some(c) => Some(GroupsOf(s, c))
  }

  /** Every split is the one the scanner finds for its options length. */
  lemma ScanComplete(s: string, c: Cuts)
    requires Splits(s, c)
    ensures Scan(s, c.optionsEnd) == Some(c)
  {
    TailStartsClean(s, c.leftEnd, c.tail);
    ScanLeftComplete(s, c);
    ScanTailComplete(s, c.leftEnd, c.tail);
  }

  /** The tail never starts with a character the left roll definition could have taken. */
  lemma TailStartsClean(s: string, e: nat, t: TailCuts)
    requires TailSplits(s, e, t)
    ensures e == |s| || !IsLeftTailChar(s[e])
  {
    match t
    case Bare =>
      assert e < |s| ==> IsSpace(s[e]);
    case Compared(f, g, h, m) =>
      assert e < f ==> IsSpace(s[e]);
      assert e == f ==> IsOperatorChar(s[e]);
  }

  lemma ScanLeftComplete(s: string, c: Cuts)
    requires LeftSplits(s, c)
    requires c.leftEnd == |s| || !IsLeftTailChar(s[c.leftEnd])
    ensures ScanLeft(s, c.optionsEnd) == Some(c.(tail := Bare))
  {
    SkipWhileUnique(s, c.optionsEnd, c.countEnd, IsDigit);
    SkipWhileUnique(s, c.countEnd, c.dieAt, IsSpace);
    SkipWhileUnique(s, c.dieAt + 1, c.sidesStart, IsSpace);
    SkipWhileUnique(s, c.sidesStart, c.leftEnd, IsLeftTailChar);
  }

  lemma ScanTailComplete(s: string, e: nat, t: TailCuts)
    requires TailSplits(s, e, t)
    ensures ScanTail(s, e) == Some(t)
  {
    match t
    case Bare =>
      SkipWhileUnique(s, e, |s|, IsSpace);
    case Compared(f, g, h, m) =>
      SkipWhileUnique(s, e, f, IsSpace);
      SkipWhileUnique(s, f, g, IsOperatorChar);
      SkipWhileUnique(s, g, h, IsSpace);
      SkipWhileUnique(s, h, m, IsRightChar);
      SkipWhileUnique(s, m, |s|, IsSpace);
  }

  /** Two splits with the same options group are the same split. */
  lemma SplitsUnique(s: string, c1: Cuts, c2: Cuts)
    requires Splits(s, c1) && Splits(s, c2)
    requires c1.optionsEnd == c2.optionsEnd
    ensures c1 == c2
  {
    ScanComplete(s, c1);
    ScanComplete(s, c2);
  }

  /** Backtracking from `k` finds a split at least as long as any split within reach. */
  lemma {:induction false} SearchComplete(s: string, k: nat, c: Cuts)
    requires Run(s, 0, k, IsOptionChar)
    requires Splits(s, c) && c.optionsEnd <= k
    ensures Search(s, k).Some?
    ensures c.optionsEnd <= Search(s, k).value.optionsEnd
    decreases k
  {
    if c.optionsEnd == k {
      ScanComplete(s, c);
    } else {
      SearchStep(s, k);
      if Scan(s, k).None? {
        SearchComplete(s, k - 1, c);
      }
    }
  }

  /** One step of backtracking: without a match at `k`, the search goes on at `k - 1`. */
  lemma SearchStep(s: string, k: nat)
    requires Run(s, 0, k, IsOptionChar) && 0 < k
    ensures Run(s, 0, k - 1, IsOptionChar)
    ensures Search(s, k) == if Scan(s, k).Some? then Scan(s, k) else Search(s, k - 1)
  {
  }

  /** No split has a longer options group than the longest letter/space prefix. */
  lemma OptionsWithinPrefix(s: string, c: Cuts)
    requires Splits(s, c)
    ensures c.optionsEnd <= SkipWhile(s, 0, IsOptionChar)
  {
    SkipWhileLongest(s, 0, c.optionsEnd, IsOptionChar);
  }

  /**
   * The command matches exactly when some split exists, and then the match
   * is a split whose options group is the longest among all splits.
   */
  lemma SplitSpec(s: string)
    ensures Split(s).None? <==> forall c :: !Splits(s, c)
    ensures Split(s).Some? ==> Splits(s, Split(s).value)
    ensures Split(s).Some? ==> forall c :: Splits(s, c) ==> c.optionsEnd <= Split(s).value.optionsEnd
  {
    var k := SkipWhile(s, 0, IsOptionChar);
    forall c | Splits(s, c)
      ensures Split(s).Some? && c.optionsEnd <= Split(s).value.optionsEnd
    {
      OptionsWithinPrefix(s, c);
      SearchComplete(s, k, c);
    }
  }

  /** `MatchCommand` fails exactly on commands the pattern rejects, and otherwise reports the groups of the greedy split. */
  lemma MatchCommandSpec(s: string)
    ensures MatchCommand(s).None? <==> forall c :: !Splits(s, c)
    ensures MatchCommand(s).Some? ==>
      exists c :: Splits(s, c) && MatchCommand(s).value == GroupsOf(s, c)
        && forall c' :: Splits(s, c') ==> c'.optionsEnd <= c.optionsEnd
  {
    SplitSpec(s);
    if Split(s).Some? {
      var c := Split(s).value;
      assert Splits(s, c) && MatchCommand(s).value == GroupsOf(s, c);
    }
  }

  /** The options group of a match holds only letters and spaces. */
  lemma MatchedOptionsAreWords(s: string)
    requires MatchCommand(s).Some?
    ensures Run(MatchCommand(s).value.options, 0, |MatchCommand(s).value.options|, IsOptionChar)
  {
    SplitSpec(s);
  }

  /** In `roll d6` the letter/space prefix is `roll d`. */
  lemma ExamplePrefix()
    ensures SkipWhile("roll d6", 0, IsOptionChar) == 6
  {
    SkipWhileUnique("roll d6", 0, 6, IsOptionChar);
  }

  /** With options `roll d`, the left definition would have no die letter. */
  lemma ExampleScanSix()
    ensures Scan("roll d6", 6).None?
  {
    SkipWhileUnique("roll d6", 6, 7, IsDigit);
    SkipWhileUnique("roll d6", 7, 7, IsSpace);
  }

  /** With options `roll `, the rest is the left definition `d6`. */
  lemma ExampleScanFive()
    ensures Scan("roll d6", 5) == Some(Cuts(5, 5, 5, 6, 7, Bare))
  {
    var s := "roll d6";
    SkipWhileUnique(s, 5, 5, IsDigit);
    SkipWhileUnique(s, 5, 5, IsSpace);
    SkipWhileUnique(s, 6, 6, IsSpace);
    SkipWhileUnique(s, 6, 7, IsLeftTailChar);
    SkipWhileUnique(s, 7, 7, IsSpace);
  }

  /**
   * In `roll d6` the options group could end before or after the space; the
   * greedy group keeps the space, and the left definition is `d6`.
   */
  lemma GreedyOptionsExample()
    ensures Splits("roll d6", Cuts(4, 4, 5, 6, 7, Bare))
    ensures MatchCommand("roll d6") == Some(Groups("roll ", "d6", None))
  {
    var s := "roll d6";
    assert Splits(s, Cuts(4, 4, 5, 6, 7, Bare));
    ExamplePrefix();
    ExampleScanSix();
    ExampleScanFive();
    SearchStep(s, 6);
    assert Split(s) == Some(Cuts(5, 5, 5, 6, 7, Bare));
    assert s[..5] == "roll " && s[5..7] == "d6";
  }
}
