/** The rows of the joint distribution table of two roll definitions. */
module JointTable {

  /** A table row: a total and its probability under each definition. */
  datatype Row = Row(value: int, pa: real, pb: real)

  /** `10**-10`: rows whose combined probability falls below this are omitted. */
  const Cutoff: real := 0.0000000001

  predicate Negligible(pa: real, pb: real) {
    pa + pb < Cutoff
  }

  /** Some row of `rows` is for the total `v`. */
  ghost predicate Listed(rows: seq<Row>, v: int) {
    exists i :: 0 <= i < |rows| && rows[i].value == v
  }

  /** Totals strictly increase from row to row. */
  ghost predicate Increasing(rows: seq<Row>) {
    forall i, j :: 0 <= i < j < |rows| ==> rows[i].value < rows[j].value
  }

  /** Every row is for a total of `[lo, hi]` and carries that total's probabilities. */
  ghost predicate RowsFaithful(rows: seq<Row>, lo: int, hi: int, pa: int -> real, pb: int -> real) {
    forall i :: 0 <= i < |rows| ==>
      lo <= rows[i].value <= hi && rows[i].pa == pa(rows[i].value) && rows[i].pb == pb(rows[i].value)
  }

  /** A total of `[lo, hi]` has a row exactly when its combined probability is not negligible. */
  ghost predicate OmitsExactlyNegligible(rows: seq<Row>, lo: int, hi: int, pa: int -> real, pb: int -> real) {
    forall v :: lo <= v <= hi ==> (Listed(rows, v) <==> !Negligible(pa(v), pb(v)))
  }

  /**
   * What the table promises: totals strictly increase, lie in `[lo, hi]`,
   * carry the probabilities of their total, and a total of `[lo, hi]` is
   * omitted exactly when its combined probability is negligible.
   */
  ghost predicate RowsSpec(rows: seq<Row>, lo: int, hi: int, pa: int -> real, pb: int -> real) {
    Increasing(rows) && RowsFaithful(rows, lo, hi, pa, pb) && OmitsExactlyNegligible(rows, lo, hi, pa, pb)
  }

  /** The table defined total by total, from `lo` up. */
  ghost function JointRows(lo: int, hi: int, pa: int -> real, pb: int -> real): seq<Row>
    decreases if lo <= hi then hi - lo + 1 else 0
  {
    if lo > hi then []
    else (if Negligible(pa(lo), pb(lo)) then [] else [Row(lo, pa(lo), pb(lo))]) + JointRows(lo + 1, hi, pa, pb)
  }

  /** A row for total `lo` put before rows for totals above `lo`. */
  lemma ListedCons(r: Row, rest: seq<Row>, v: int)
    ensures Listed([r] + rest, v) <==> r.value == v || Listed(rest, v)
  {
    var rows := [r] + rest;
    if Listed(rows, v) {
      var i :| 0 <= i < |rows| && rows[i].value == v;
      if i > 0 {
        assert rest[i - 1] == rows[i];
      }
    }
    if Listed(rest, v) {
      var i :| 0 <= i < |rest| && rest[i].value == v;
      assert rows[i + 1] == rest[i];
    }
    assert rows[0] == r;
  }

  /** A row put after all the others. */
  lemma ListedSnoc(rows: seq<Row>, r: Row, v: int)
    ensures Listed(rows + [r], v) <==> Listed(rows, v) || r.value == v
  {
    var next := rows + [r];
    if Listed(next, v) {
      var i :| 0 <= i < |next| && next[i].value == v;
      if i < |rows| {
        assert rows[i] == next[i];
      }
    }
    if Listed(rows, v) {
      var i :| 0 <= i < |rows| && rows[i].value == v;
      assert next[i] == rows[i];
    }
    assert next[|rows|] == r;
  }

  /** The first row bounds all the others. */
  lemma FirstRow(rows: seq<Row>, lo: int, hi: int, pa: int -> real, pb: int -> real)
    requires RowsSpec(rows, lo, hi, pa, pb)
    ensures rows != [] ==> lo <= rows[0].value <= hi
    ensures forall i :: 0 < i < |rows| ==> rows[0].value < rows[i].value
  {
  }

  /** Without a row for `lo`, the rows also describe `[lo + 1, hi]`. */
  lemma SkipLow(rows: seq<Row>, lo: int, hi: int, pa: int -> real, pb: int -> real)
    requires RowsSpec(rows, lo, hi, pa, pb) && lo <= hi && !Listed(rows, lo)
    ensures RowsSpec(rows, lo + 1, hi, pa, pb)
  {
    assert forall i :: 0 <= i < |rows| ==> rows[i].value != lo;
  }

  /** With the first row for `lo`, the other rows describe `[lo + 1, hi]`. */
  lemma DropLow(rows: seq<Row>, lo: int, hi: int, pa: int -> real, pb: int -> real)
    requires RowsSpec(rows, lo, hi, pa, pb) && rows != [] && rows[0].value == lo
    ensures RowsSpec(rows[1..], lo + 1, hi, pa, pb)
  {
    var rest := rows[1..];
    assert rows == [rows[0]] + rest;
    forall v | lo + 1 <= v <= hi
      ensures Listed(rest, v) <==> !Negligible(pa(v), pb(v))
    {
      ListedCons(rows[0], rest, v);
    }
  }

  /** A total `lo` that is not negligible has the first row. */
  lemma LeadingRow(rows: seq<Row>, lo: int, hi: int, pa: int -> real, pb: int -> real)
    requires RowsSpec(rows, lo, hi, pa, pb) && lo <= hi && !Negligible(pa(lo), pb(lo))
    ensures rows != [] && rows[0] == Row(lo, pa(lo), pb(lo))
  {
    assert Listed(rows, lo);
    var i :| 0 <= i < |rows| && rows[i].value == lo;
    FirstRow(rows, lo, hi, pa, pb);
  }

  /** The promise determines the table: the only rows that keep it are `JointRows`. */
  lemma {:induction false} RowsSpecUnique(rows: seq<Row>, lo: int, hi: int, pa: int -> real, pb: int -> real)
    requires RowsSpec(rows, lo, hi, pa, pb)
    ensures rows == JointRows(lo, hi, pa, pb)
    decreases if lo <= hi then hi - lo + 1 else 0, 1
  {
    if lo > hi {
      FirstRow(rows, lo, hi, pa, pb);
    } else if Negligible(pa(lo), pb(lo)) {
      UniqueWithoutLow(rows, lo, hi, pa, pb);
    } else {
      UniqueWithLow(rows, lo, hi, pa, pb);
    }
  }

  /** The uniqueness step when total `lo` is negligible. */
  lemma {:induction false} UniqueWithoutLow(rows: seq<Row>, lo: int, hi: int, pa: int -> real, pb: int -> real)
    requires RowsSpec(rows, lo, hi, pa, pb) && lo <= hi && Negligible(pa(lo), pb(lo))
    ensures rows == JointRows(lo, hi, pa, pb)
    decreases hi - lo + 1, 0
  {
    JointRowsStep(lo, hi, pa, pb);
    SkipLow(rows, lo, hi, pa, pb);
    RowsSpecUnique(rows, lo + 1, hi, pa, pb);
  }

  /** The uniqueness step when total `lo` has a row. */
  lemma {:induction false} UniqueWithLow(rows: seq<Row>, lo: int, hi: int, pa: int -> real, pb: int -> real)
    requires RowsSpec(rows, lo, hi, pa, pb) && lo <= hi && !Negligible(pa(lo), pb(lo))
    ensures rows == JointRows(lo, hi, pa, pb)
    decreases hi - lo + 1, 0
  {
    JointRowsStep(lo, hi, pa, pb);
    SplitLow(rows, lo, hi, pa, pb);
    RowsSpecUnique(rows[1..], lo + 1, hi, pa, pb);
  }

  /** With a row for `lo`, the rows are that row before rows that describe `[lo + 1, hi]`. */
  lemma SplitLow(rows: seq<Row>, lo: int, hi: int, pa: int -> real, pb: int -> real)
    requires RowsSpec(rows, lo, hi, pa, pb) && lo <= hi && !Negligible(pa(lo), pb(lo))
    ensures rows != [] && rows == [Row(lo, pa(lo), pb(lo))] + rows[1..]
    ensures RowsSpec(rows[1..], lo + 1, hi, pa, pb)
  {
    LeadingRow(rows, lo, hi, pa, pb);
    DropLow(rows, lo, hi, pa, pb);
    assert rows == [rows[0]] + rows[1..];
  }

  /** One step of `JointRows`. */
  lemma JointRowsStep(lo: int, hi: int, pa: int -> real, pb: int -> real)
    requires lo <= hi
    ensures Negligible(pa(lo), pb(lo)) ==> JointRows(lo, hi, pa, pb) == JointRows(lo + 1, hi, pa, pb)
    ensures !Negligible(pa(lo), pb(lo)) ==> JointRows(lo, hi, pa, pb) == [Row(lo, pa(lo), pb(lo))] + JointRows(lo + 1, hi, pa, pb)
  {
  }

  /** A row for `lo` before rows that describe `[lo + 1, hi]` describes `[lo, hi]`. */
  lemma ConsLow(rest: seq<Row>, lo: int, hi: int, pa: int -> real, pb: int -> real)
    requires RowsSpec(rest, lo + 1, hi, pa, pb) && lo <= hi && !Negligible(pa(lo), pb(lo))
    ensures RowsSpec([Row(lo, pa(lo), pb(lo))] + rest, lo, hi, pa, pb)
  {
    var r := Row(lo, pa(lo), pb(lo));
    var rows := [r] + rest;
    assert forall i :: 0 < i < |rows| ==> rows[i] == rest[i - 1];
    forall v | lo <= v <= hi
      ensures Listed(rows, v) <==> !Negligible(pa(v), pb(v))
    {
      ListedCons(r, rest, v);
    }
  }

  /** Rows that describe `[lo + 1, hi]` also describe `[lo, hi]` when total `lo` is negligible. */
  lemma SkipNegligible(rest: seq<Row>, lo: int, hi: int, pa: int -> real, pb: int -> real)
    requires RowsSpec(rest, lo + 1, hi, pa, pb) && lo <= hi && Negligible(pa(lo), pb(lo))
    ensures RowsSpec(rest, lo, hi, pa, pb)
  {
    assert !Listed(rest, lo);
  }

  /** `JointRows` keeps the promise. */
  lemma {:induction false} JointRowsMeetSpec(lo: int, hi: int, pa: int -> real, pb: int -> real)
    ensures RowsSpec(JointRows(lo, hi, pa, pb), lo, hi, pa, pb)
    decreases if lo <= hi then hi - lo + 1 else 0
  {
    if lo <= hi {
      JointRowsMeetSpec(lo + 1, hi, pa, pb);
      JointRowsStep(lo, hi, pa, pb);
      var rest := JointRows(lo + 1, hi, pa, pb);
      if Negligible(pa(lo), pb(lo)) {
        SkipNegligible(rest, lo, hi, pa, pb);
      } else {
        ConsLow(rest, lo, hi, pa, pb);
      }
    }
  }

  /** The rows keep the promise exactly when they are the table `JointRows` defines. */
  lemma RowsSpecExactly(rows: seq<Row>, lo: int, hi: int, pa: int -> real, pb: int -> real)
    ensures RowsSpec(rows, lo, hi, pa, pb) <==> rows == JointRows(lo, hi, pa, pb)
  {
    JointRowsMeetSpec(lo, hi, pa, pb);
    if RowsSpec(rows, lo, hi, pa, pb) {
      RowsSpecUnique(rows, lo, hi, pa, pb);
    }
  }

  lemma {:induction false} JointRowsLength(lo: int, hi: int, pa: int -> real, pb: int -> real)
    ensures |JointRows(lo, hi, pa, pb)| <= if lo <= hi then hi - lo + 1 else 0
    decreases if lo <= hi then hi - lo + 1 else 0
  {
    if lo <= hi {
      JointRowsLength(lo + 1, hi, pa, pb);
    }
  }

  /** There are at most `hi - lo + 1` rows. */
  lemma RowsBound(rows: seq<Row>, lo: int, hi: int, pa: int -> real, pb: int -> real)
    requires RowsSpec(rows, lo, hi, pa, pb)
    ensures |rows| <= if lo <= hi then hi - lo + 1 else 0
  {
    RowsSpecUnique(rows, lo, hi, pa, pb);
    JointRowsLength(lo, hi, pa, pb);
  }

  /** One turn of the loop: the rows so far describe `[lo, v - 1]`, and total `v` is considered next. */
  lemma AppendRow(rows: seq<Row>, lo: int, v: int, pa: int -> real, pb: int -> real)
    requires RowsSpec(rows, lo, v - 1, pa, pb) && lo <= v
    ensures !Negligible(pa(v), pb(v)) ==> RowsSpec(rows + [Row(v, pa(v), pb(v))], lo, v, pa, pb)
    ensures Negligible(pa(v), pb(v)) ==> RowsSpec(rows, lo, v, pa, pb)
  {
    var r := Row(v, pa(v), pb(v));
    var next := rows + [r];
    assert forall i :: 0 <= i < |rows| ==> next[i] == rows[i];
    forall u | lo <= u <= v
      ensures Listed(next, u) <==> Listed(rows, u) || u == v
    {
      ListedSnoc(rows, r, u);
    }
    assert forall i :: 0 <= i < |rows| ==> rows[i].value != v;
  }

  /** The `for (let v=min; v<=max; v++)` loop of the joint view, skipping negligible totals. */
  method BuildJointRows(lo: int, hi: int, pa: int -> real, pb: int -> real) returns (rows: seq<Row>)
    ensures RowsSpec(rows, lo, hi, pa, pb)
    ensures |rows| <= if lo <= hi then hi - lo + 1 else 0
  {
    rows := [];
    var v := lo;
    while v <= hi
      invariant lo <= v && (v <= hi + 1 || rows == [])
      invariant RowsSpec(rows, lo, v - 1, pa, pb)
      decreases hi - v
    {
      var p, q := pa(v), pb(v);
      AppendRow(rows, lo, v, pa, pb);
      if !Negligible(p, q) {
        rows := rows + [Row(v, p, q)];
      }
      v := v + 1;
    }
    RowsBound(rows, lo, hi, pa, pb);
  }
}
