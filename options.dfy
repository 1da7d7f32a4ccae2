/**
 * The option flags of a dice command, derived from the options group with
 * the regular expressions `/\ball\b/`, `/\broll\b/` and `/\bdist/` (no `i`
 * flag, so the tests are case-sensitive), and their reading as words.
 */
module OptionWords {
  import opened Chars

  /** `\b` at position `i`: exactly one of the two characters around `i` is a word character. */
  predicate Boundary(s: string, i: int)
    requires 0 <= i <= |s|
  {
    (0 < i && IsWordChar(s[i - 1])) != (i < |s| && IsWordChar(s[i]))
  }

  /** `\bw\b` matches `s` at position `i`. */
  predicate WholeWordAt(s: string, w: string, i: int) {
    0 <= i && i + |w| <= |s| && s[i..i + |w|] == w && Boundary(s, i) && Boundary(s, i + |w|)
  }

  /** `\bw` matches `s` at position `i`. */
  predicate WordStartAt(s: string, w: string, i: int) {
    0 <= i && i + |w| <= |s| && s[i..i + |w|] == w && Boundary(s, i)
  }

  /** `/\bw\b/.test(s)` */
  predicate TestWholeWord(s: string, w: string) {
    exists i | 0 <= i <= |s| :: WholeWordAt(s, w, i)
  }

  /** `/\bw/.test(s)` */
  predicate TestWordStart(s: string, w: string) {
    exists i | 0 <= i <= |s| :: WordStartAt(s, w, i)
  }

  datatype Options = Options(all: bool, roll: bool, distrib: bool)

  /** The flags of `onCommand`: `all` turns on both other flags, and without `roll` the distribution is always shown. */
  function DeriveOptions(words: string): (o: Options)
    ensures o.all ==> o.roll && o.distrib
    ensures !o.roll ==> o.distrib
  {
    var all := TestWholeWord(words, "all");
    var roll := all || TestWholeWord(words, "roll");
    var distrib := all || !roll || TestWordStart(words, "dist");
    Options(all, roll, distrib)
  }

  predicate IsNotBlank(c: char) { c != ' ' }

  /** The space-separated words of `s`, in order. */
  function Words(s: string): seq<string>
    decreases |s|
  {
    if s == [] then []
    else if s[0] == ' ' then Words(s[1..])
    else
      var j := SkipWhile(s, 0, IsNotBlank);
      [s[..j]] + Words(s[j..])
  }

  /** Text the options group can capture: letters and spaces. */
  ghost predicate IsOptionText(s: string) {
    Run(s, 0, |s|, IsOptionChar)
  }

  /** A non-empty run of letters, such as `all`, `roll` or `dist`. */
  ghost predicate IsLetters(w: string) {
    |w| > 0 && Run(w, 0, |w|, IsLetter)
  }

  /** Positions past a non-word character `s[d-1]` see the same `\b` in `s` and in `s[d..]`. */
  lemma ShiftBoundary(s: string, d: nat, i: nat)
    requires 0 < d <= i <= |s|
    requires i > d || !IsWordChar(s[d - 1])
    ensures Boundary(s, i) == Boundary(s[d..], i - d)
  {
    var t := s[d..];
    if i > d {
      assert t[i - d - 1] == s[i - 1];
    }
    if i < |s| {
      assert t[i - d] == s[i];
    }
  }

  lemma ShiftWholeWord(s: string, d: nat, w: string, i: nat)
    requires 0 < d <= i <= |s| && |w| > 0
    requires i > d || !IsWordChar(s[d - 1])
    ensures WholeWordAt(s, w, i) <==> WholeWordAt(s[d..], w, i - d)
  {
    if i + |w| <= |s| {
      assert s[d..][i - d..i - d + |w|] == s[i..i + |w|];
      ShiftBoundary(s, d, i);
      ShiftBoundary(s, d, i + |w|);
    }
  }

  lemma ShiftWordStart(s: string, d: nat, w: string, i: nat)
    requires 0 < d <= i <= |s| && |w| > 0
    requires i > d || !IsWordChar(s[d - 1])
    ensures WordStartAt(s, w, i) <==> WordStartAt(s[d..], w, i - d)
  {
    if i + |w| <= |s| {
      assert s[d..][i - d..i - d + |w|] == s[i..i + |w|];
      ShiftBoundary(s, d, i);
    }
  }

  /** A match of a letter word cannot start on a space. */
  lemma NotAtBlank(s: string, w: string, i: nat)
    requires IsLetters(w) && i < |s| && s[i] == ' '
    ensures !WordStartAt(s, w, i) && !WholeWordAt(s, w, i)
  {
    assert i + |w| <= |s| ==> s[i..i + |w|][0] == s[i];
  }

  /** Inside a run of letters there is no `\b`. */
  lemma NoBoundaryInWord(s: string, j: nat)
    requires Run(s, 0, j, IsLetter)
    ensures forall k :: 0 < k < j ==> !Boundary(s, k)
  {
  }

  /** A letter word matched at the start of `s` lies within the first word `s[..j]`. */
  lemma WithinFirstWord(s: string, j: nat, w: string)
    requires Run(s, 0, j, IsLetter) && (j < |s| ==> s[j] == ' ')
    requires IsLetters(w) && |w| <= |s| && s[..|w|] == w
    ensures |w| <= j && w <= s[..j]
  {
    assert forall k :: 0 <= k < |w| ==> w[k] == s[k];
  }

  /** Facts about the first word of an option text that starts with a letter. */
  lemma FirstWord(s: string) returns (j: nat)
    requires IsOptionText(s) && s != [] && s[0] != ' '
    ensures j == SkipWhile(s, 0, IsNotBlank) && 0 < j <= |s|
    ensures Words(s) == [s[..j]] + Words(s[j..])
    ensures Run(s, 0, j, IsLetter)
    ensures j < |s| ==> s[j] == ' '
    ensures IsOptionText(s[j..])
  {
    j := SkipWhile(s, 0, IsNotBlank);
    assert forall k :: 0 <= k < j ==> IsNotBlank(s[k]) && IsOptionChar(s[k]);
    assert j < |s| ==> IsOptionChar(s[j]);
    var t := s[j..];
    assert forall k :: 0 <= k < |t| ==> t[k] == s[j + k];
  }

  lemma TailIsOptionText(s: string)
    requires IsOptionText(s) && s != []
    ensures IsOptionText(s[1..])
  {
    var t := s[1..];
    assert forall k :: 0 <= k < |t| ==> t[k] == s[k + 1];
  }

  /** Some word of `ws` starts with `w`. */
  ghost predicate SomeStartsWith(ws: seq<string>, w: string) {
    exists k :: 0 <= k < |ws| && w <= ws[k]
  }

  lemma SomeStartsWithConcat(x: string, ws: seq<string>, w: string)
    ensures SomeStartsWith([x] + ws, w) <==> w <= x || SomeStartsWith(ws, w)
  {
    var vs := [x] + ws;
    if SomeStartsWith(vs, w) {
      var k :| 0 <= k < |vs| && w <= vs[k];
      if k > 0 {
        assert vs[k] == ws[k - 1];
      }
    }
    if SomeStartsWith(ws, w) {
      var k :| 0 <= k < |ws| && w <= ws[k];
      assert vs[k + 1] == ws[k];
    }
    if w <= x {
      assert vs[0] == x;
    }
  }

  /** Dropping a leading space keeps every whole-word match, shifted by one. */
  lemma BlankWholeStep(s: string, w: string)
    requires IsLetters(w) && s != [] && s[0] == ' '
    ensures TestWholeWord(s, w) <==> TestWholeWord(s[1..], w)
  {
    var t := s[1..];
    NotAtBlank(s, w, 0);
    if TestWholeWord(s, w) {
      var i :| 0 <= i <= |s| && WholeWordAt(s, w, i);
      ShiftWholeWord(s, 1, w, i);
      assert WholeWordAt(t, w, i - 1);
    }
    if TestWholeWord(t, w) {
      var i :| 0 <= i <= |t| && WholeWordAt(t, w, i);
      ShiftWholeWord(s, 1, w, i + 1);
      assert WholeWordAt(s, w, i + 1);
    }
  }

  /** Dropping a leading space keeps every word-start match, shifted by one. */
  lemma BlankStartStep(s: string, w: string)
    requires IsLetters(w) && s != [] && s[0] == ' '
    ensures TestWordStart(s, w) <==> TestWordStart(s[1..], w)
  {
    var t := s[1..];
    NotAtBlank(s, w, 0);
    if TestWordStart(s, w) {
      var i :| 0 <= i <= |s| && WordStartAt(s, w, i);
      ShiftWordStart(s, 1, w, i);
      assert WordStartAt(t, w, i - 1);
    }
    if TestWordStart(t, w) {
      var i :| 0 <= i <= |t| && WordStartAt(t, w, i);
      ShiftWordStart(s, 1, w, i + 1);
      assert WordStartAt(s, w, i + 1);
    }
  }

  /** A whole-word match either is the first word or lies in the rest, after the first word. */
  lemma WholeWordLetterStep(s: string, w: string, j: nat)
    requires IsOptionText(s) && IsLetters(w) && 0 < j <= |s|
    requires Run(s, 0, j, IsLetter) && (j < |s| ==> s[j] == ' ')
    ensures TestWholeWord(s, w) <==> w == s[..j] || TestWholeWord(s[j..], w)
  {
    if TestWholeWord(s, w) {
      WholeWordSplit(s, w, j);
    }
    WholeWordJoin(s, w, j);
  }

  /** A whole-word match in `s` is the first word or a match in the rest. */
  lemma WholeWordSplit(s: string, w: string, j: nat)
    requires IsLetters(w) && 0 < j <= |s|
    requires Run(s, 0, j, IsLetter) && (j < |s| ==> s[j] == ' ')
    requires TestWholeWord(s, w)
    ensures w == s[..j] || TestWholeWord(s[j..], w)
  {
    var t := s[j..];
    NoBoundaryInWord(s, j);
    if j < |s| {
      NotAtBlank(s, w, j);
    }
    var i :| 0 <= i <= |s| && WholeWordAt(s, w, i);
    if i == 0 {
      WithinFirstWord(s, j, w);
    } else {
      ShiftWholeWord(s, j, w, i);
      assert WholeWordAt(t, w, i - j);
    }
  }

  /** The first word, and any whole-word match in the rest, are whole-word matches in `s`. */
  lemma WholeWordJoin(s: string, w: string, j: nat)
    requires IsLetters(w) && 0 < j <= |s|
    requires Run(s, 0, j, IsLetter) && (j < |s| ==> s[j] == ' ')
    ensures w == s[..j] || TestWholeWord(s[j..], w) ==> TestWholeWord(s, w)
  {
    var t := s[j..];
    if w == s[..j] {
      assert WholeWordAt(s, w, 0);
    }
    if TestWholeWord(t, w) {
      if j < |s| {
        NotAtBlank(t, w, 0);
      }
      var i :| 0 <= i <= |t| && WholeWordAt(t, w, i);
      ShiftWholeWord(s, j, w, i + j);
      assert WholeWordAt(s, w, i + j);
    }
  }

  /** A word-start match either starts the first word or lies in the rest, after the first word. */
  lemma WordStartLetterStep(s: string, w: string, j: nat)
    requires IsOptionText(s) && IsLetters(w) && 0 < j <= |s|
    requires Run(s, 0, j, IsLetter) && (j < |s| ==> s[j] == ' ')
    ensures TestWordStart(s, w) <==> w <= s[..j] || TestWordStart(s[j..], w)
  {
    if TestWordStart(s, w) {
      WordStartSplit(s, w, j);
    }
    WordStartJoin(s, w, j);
  }

  /** A word-start match in `s` starts the first word or is a match in the rest. */
  lemma WordStartSplit(s: string, w: string, j: nat)
    requires IsLetters(w) && 0 < j <= |s|
    requires Run(s, 0, j, IsLetter) && (j < |s| ==> s[j] == ' ')
    requires TestWordStart(s, w)
    ensures w <= s[..j] || TestWordStart(s[j..], w)
  {
    var t := s[j..];
    NoBoundaryInWord(s, j);
    if j < |s| {
      NotAtBlank(s, w, j);
    }
    var i :| 0 <= i <= |s| && WordStartAt(s, w, i);
    if i == 0 {
      WithinFirstWord(s, j, w);
    } else {
      ShiftWordStart(s, j, w, i);
      assert WordStartAt(t, w, i - j);
    }
  }

  /** A prefix of the first word, and any word-start match in the rest, are word-start matches in `s`. */
  lemma WordStartJoin(s: string, w: string, j: nat)
    requires IsLetters(w) && 0 < j <= |s|
    requires Run(s, 0, j, IsLetter) && (j < |s| ==> s[j] == ' ')
    ensures w <= s[..j] || TestWordStart(s[j..], w) ==> TestWordStart(s, w)
  {
    var t := s[j..];
    if w <= s[..j] {
      assert s[..|w|] == w;
      assert WordStartAt(s, w, 0);
    }
    if TestWordStart(t, w) {
      if j < |s| {
        NotAtBlank(t, w, 0);
      }
      var i :| 0 <= i <= |t| && WordStartAt(t, w, i);
      ShiftWordStart(s, j, w, i + j);
      assert WordStartAt(s, w, i + j);
    }
  }

  /** On option text, `\bw\b` finds `w` exactly when `w` is one of the words. */
  lemma {:induction false} WholeWordIsWord(s: string, w: string)
    requires IsOptionText(s) && IsLetters(w)
    ensures TestWholeWord(s, w) <==> w in Words(s)
    decreases |s|
  {
    if s == [] {
    } else if s[0] == ' ' {
      TailIsOptionText(s);
      BlankWholeStep(s, w);
      WholeWordIsWord(s[1..], w);
    } else {
      var j := FirstWord(s);
      WholeWordLetterStep(s, w, j);
      WholeWordIsWord(s[j..], w);
    }
  }

  /** On option text, `\bw` finds `w` exactly when some word starts with `w`. */
  lemma {:induction false} WordStartIsPrefix(s: string, w: string)
    requires IsOptionText(s) && IsLetters(w)
    ensures TestWordStart(s, w) <==> SomeStartsWith(Words(s), w)
    decreases |s|
  {
    if s == [] {
    } else if s[0] == ' ' {
      TailIsOptionText(s);
      BlankStartStep(s, w);
      WordStartIsPrefix(s[1..], w);
    } else {
      var j := FirstWord(s);
      WordStartLetterStep(s, w, j);
      WordStartIsPrefix(s[j..], w);
      SomeStartsWithConcat(s[..j], Words(s[j..]), w);
    }
  }

  /**
   * On the text the options group captures: `all` is set exactly when the
   * word `all` is present, `roll` when `all` or `roll` is, and `distrib`
   * when `all` is present, `roll` is absent, or some word starts with `dist`.
   */
  lemma OptionFlags(s: string)
    requires IsOptionText(s)
    ensures DeriveOptions(s).all <==> "all" in Words(s)
    ensures DeriveOptions(s).roll <==> "all" in Words(s) || "roll" in Words(s)
    ensures DeriveOptions(s).distrib <==>
      "all" in Words(s) || "roll" !in Words(s) || SomeStartsWith(Words(s), "dist")
  {
    WholeWordIsWord(s, "all");
    WholeWordIsWord(s, "roll");
    WordStartIsPrefix(s, "dist");
  }

  /** Without option words only the distribution is shown. */
  lemma NoOptionWords(s: string)
    requires IsOptionText(s) && Words(s) == []
    ensures DeriveOptions(s) == Options(false, false, true)
  {
    OptionFlags(s);
  }

  lemma WordsOfRoll()
    ensures Words("roll") == ["roll"]
  {
    SkipWhileUnique("roll", 0, 4, IsNotBlank);
    assert "roll"[..4] == "roll" && "roll"[4..] == "";
  }

  lemma WordsOfCapitalExample()
    ensures Words("ALL roll") == ["ALL", "roll"]
  {
    var s := "ALL roll";
    SkipWhileUnique(s, 0, 3, IsNotBlank);
    assert s[..3] == "ALL" && s[3..] == " roll" && " roll"[1..] == "roll";
    WordsOfRoll();
  }

  /** The word tests are case-sensitive: `ALL roll` rolls, but neither sets `all` nor shows the distribution. */
  lemma CaseSensitive()
    ensures DeriveOptions("ALL roll") == Options(false, true, false)
  {
    var s := "ALL roll";
    assert IsOptionText(s);
    OptionFlags(s);
    WordsOfCapitalExample();
    var w := Words(s);
    assert w == ["ALL", "roll"];
    assert "all" !in w && "roll" in w;
    assert !("dist" <= w[0]) && !("dist" <= w[1]);
  }
}
