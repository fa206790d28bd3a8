/**
 * The stroke-width policy of `Particle.show`: a fixed decision table keyed on
 * the equity control and the particle's stroke ratio (stroke * equity). Some
 * regions of the table leave the width `null`; they are `None` here.
 */
module Stroke {
  import opened Wrappers

  /** Every width the table can choose. */
  const Widths: set<int> := {1, 2, 4, 6, 10, 30, 50}

  /** True where the table leaves the width `null`. */
  predicate Unassigned(equity: real, ratio: real) {
    || equity > 10.0
    || (4.0 < equity <= 5.0 && ratio > 5.0)
    || (5.0 < equity <= 7.0 && ratio > 7.1)
  }

  /**
   * The width chosen by `show`, branch by branch. The function's contract
   * says which widths occur, exactly where none is chosen, and what the
   * lowest equity band yields.
   */
  function StrokeWidth(equity: real, ratio: real): (w: Option<int>)
    ensures w.Some? ==> w.value in Widths
    ensures w.None? <==> Unassigned(equity, ratio)
    ensures equity <= 2.0 ==> w.Some? && w.value in {2, 4}
    ensures equity <= 2.0 ==> (w.value == 2 <==> ratio <= 1.5)
  {
    if equity <= 2.0 then
      if ratio <= 1.5 then Some(2) else Some(4)
    else if equity <= 4.0 then
      if ratio <= 1.5 then Some(2)
      else if ratio <= 2.75 then Some(4)
      else if ratio <= 3.0 then Some(10)
      else if ratio <= 3.5 then Some(1)
      else Some(2)
    else if equity <= 5.0 then
      if ratio <= 1.75 then Some(2)
      else if ratio <= 2.75 then Some(4)
      else if ratio <= 3.5 then Some(1)
      else if ratio <= 4.0 then Some(6)
      else if ratio <= 4.05 then Some(10)
      else if ratio <= 5.0 then Some(1)
      else None
    else if equity <= 7.0 then
      if ratio <= 1.75 then Some(2)
      else if ratio <= 2.75 then Some(4)
      else if ratio <= 3.5 then Some(1)
      else if ratio <= 4.0 then Some(6)
      else if ratio <= 4.1 then Some(10)
      else if ratio <= 5.0 then Some(2)
      else if ratio <= 5.01 then Some(30)
      else if ratio <= 6.2 then Some(2)
      else if ratio <= 6.3 then Some(10)
      else if ratio <= 7.1 then Some(1)
      else None
    else if equity <= 9.0 then
      if ratio <= 0.01 then Some(50)
      else if ratio <= 0.1 then Some(10)
      else if ratio <= 1.0 then Some(6)
      else if ratio <= 3.0 then Some(2)
      else Some(1)
    else if equity <= 10.0 then
      if ratio <= 0.004 then Some(50)
      else if ratio <= 0.09 then Some(10)
      else Some(1)
    else
      None
  }

  /**
   * Whenever the particle's stroke lies in [0, 1] and equity is at most 10,
   * the ratio stroke * equity falls inside the table and a width is chosen.
   */
  lemma WidthChosenForUnitStroke(equity: real, stroke: real)
    requires equity <= 10.0 && 0.0 <= stroke <= 1.0
    ensures StrokeWidth(equity, stroke * equity).Some?
    ensures StrokeWidth(equity, stroke * equity).value in Widths
  {
    if equity > 4.0 {
      assert stroke * equity <= 1.0 * equity by {
        assert (1.0 - stroke) * equity >= 0.0;
      }
    }
  }

  /** One row of a band: ratios up to `maxRatio` get `width`. */
  datatype Row = Row(maxRatio: real, width: int)

  /**
   * One equity band: equity up to `maxEquity`; its rows are tried in order,
   * and `otherwise` applies when no row matches.
   */
  datatype Band = Band(maxEquity: real, rows: seq<Row>, otherwise: Option<int>)

  /** The same policy written as data: bands and rows in ascending order. */
  const Table: seq<Band> := [
    Band(2.0, [Row(1.5, 2)], Some(4)),
    Band(4.0, [Row(1.5, 2), Row(2.75, 4), Row(3.0, 10), Row(3.5, 1)], Some(2)),
    Band(5.0, [Row(1.75, 2), Row(2.75, 4), Row(3.5, 1), Row(4.0, 6), Row(4.05, 10), Row(5.0, 1)], None),
    Band(7.0, [Row(1.75, 2), Row(2.75, 4), Row(3.5, 1), Row(4.0, 6), Row(4.1, 10),
               Row(5.0, 2), Row(5.01, 30), Row(6.2, 2), Row(6.3, 10), Row(7.1, 1)], None),
    Band(9.0, [Row(0.01, 50), Row(0.1, 10), Row(1.0, 6), Row(3.0, 2)], Some(1)),
    Band(10.0, [Row(0.004, 50), Row(0.09, 10)], Some(1))
  ]

  /** The first row whose bound admits the ratio, else the fallback. */
  function PickRow(rows: seq<Row>, ratio: real, otherwise: Option<int>): Option<int>
  {
    if rows == [] then otherwise
    else if ratio <= rows[0].maxRatio then Some(rows[0].width)
    else PickRow(rows[1..], ratio, otherwise)
  }

  /** The first band whose bound admits the equity decides; none: no width. */
  function Lookup(bands: seq<Band>, equity: real, ratio: real): Option<int>
  {
    if bands == [] then None
    else if equity <= bands[0].maxEquity then PickRow(bands[0].rows, ratio, bands[0].otherwise)
    else Lookup(bands[1..], equity, ratio)
  }

  /** The branch-by-branch policy and the data table agree on every input. */
  lemma StrokeWidthMatchesTable(equity: real, ratio: real)
    ensures StrokeWidth(equity, ratio) == Lookup(Table, equity, ratio)
  {
    var b := Table;
    assert Lookup(b[0..], equity, ratio) == if equity <= 2.0 then PickRow(b[0].rows, ratio, b[0].otherwise) else Lookup(b[1..], equity, ratio);
    assert Lookup(b[1..], equity, ratio) == if equity <= 4.0 then PickRow(b[1].rows, ratio, b[1].otherwise) else Lookup(b[2..], equity, ratio);
    assert Lookup(b[2..], equity, ratio) == if equity <= 5.0 then PickRow(b[2].rows, ratio, b[2].otherwise) else Lookup(b[3..], equity, ratio);
    assert Lookup(b[3..], equity, ratio) == if equity <= 7.0 then PickRow(b[3].rows, ratio, b[3].otherwise) else Lookup(b[4..], equity, ratio);
    assert Lookup(b[4..], equity, ratio) == if equity <= 9.0 then PickRow(b[4].rows, ratio, b[4].otherwise) else Lookup(b[5..], equity, ratio);
    assert Lookup(b[5..], equity, ratio) == if equity <= 10.0 then PickRow(b[5].rows, ratio, b[5].otherwise) else Lookup(b[6..], equity, ratio);
    assert Lookup(b[6..], equity, ratio) == None;
    BandRows0(ratio);
    BandRows1(ratio);
    BandRows2(ratio);
    BandRows3(ratio);
    BandRows4(ratio);
    BandRows5(ratio);
  }

  /** Band 0 of the table, row by row. */
  lemma BandRows0(ratio: real)
    ensures PickRow(Table[0].rows, ratio, Table[0].otherwise) ==
      if ratio <= 1.5 then Some(2) else Some(4)
  {
    var r := Table[0].rows;
    var o := Table[0].otherwise;
    assert PickRow(r[0..], ratio, o) == if ratio <= 1.5 then Some(2) else PickRow(r[1..], ratio, o);
    assert PickRow(r[1..], ratio, o) == o;
  }

  /** Band 1 of the table, row by row. */
  lemma BandRows1(ratio: real)
    ensures PickRow(Table[1].rows, ratio, Table[1].otherwise) ==
      if ratio <= 1.5 then Some(2) else if ratio <= 2.75 then Some(4) else if ratio <= 3.0 then Some(10) else if ratio <= 3.5 then Some(1) else Some(2)
  {
    var r := Table[1].rows;
    var o := Table[1].otherwise;
    assert PickRow(r[0..], ratio, o) == if ratio <= 1.5 then Some(2) else PickRow(r[1..], ratio, o);
    assert PickRow(r[1..], ratio, o) == if ratio <= 2.75 then Some(4) else PickRow(r[2..], ratio, o);
    assert PickRow(r[2..], ratio, o) == if ratio <= 3.0 then Some(10) else PickRow(r[3..], ratio, o);
    assert PickRow(r[3..], ratio, o) == if ratio <= 3.5 then Some(1) else PickRow(r[4..], ratio, o);
    assert PickRow(r[4..], ratio, o) == o;
  }

  /** Band 2 of the table, row by row. */
  lemma BandRows2(ratio: real)
    ensures PickRow(Table[2].rows, ratio, Table[2].otherwise) ==
      if ratio <= 1.75 then Some(2) else if ratio <= 2.75 then Some(4) else if ratio <= 3.5 then Some(1) else if ratio <= 4.0 then Some(6) else if ratio <= 4.05 then Some(10) else if ratio <= 5.0 then Some(1) else None
  {
    var r := Table[2].rows;
    var o := Table[2].otherwise;
    assert PickRow(r[0..], ratio, o) == if ratio <= 1.75 then Some(2) else PickRow(r[1..], ratio, o);
    assert PickRow(r[1..], ratio, o) == if ratio <= 2.75 then Some(4) else PickRow(r[2..], ratio, o);
    assert PickRow(r[2..], ratio, o) == if ratio <= 3.5 then Some(1) else PickRow(r[3..], ratio, o);
    assert PickRow(r[3..], ratio, o) == if ratio <= 4.0 then Some(6) else PickRow(r[4..], ratio, o);
    assert PickRow(r[4..], ratio, o) == if ratio <= 4.05 then Some(10) else PickRow(r[5..], ratio, o);
    assert PickRow(r[5..], ratio, o) == if ratio <= 5.0 then Some(1) else PickRow(r[6..], ratio, o);
    assert PickRow(r[6..], ratio, o) == o;
  }

  /** Band 3 of the table, row by row. */
  lemma BandRows3(ratio: real)
    ensures PickRow(Table[3].rows, ratio, Table[3].otherwise) ==
      if ratio <= 1.75 then Some(2) else if ratio <= 2.75 then Some(4) else if ratio <= 3.5 then Some(1) else if ratio <= 4.0 then Some(6) else if ratio <= 4.1 then Some(10) else if ratio <= 5.0 then Some(2) else if ratio <= 5.01 then Some(30) else if ratio <= 6.2 then Some(2) else if ratio <= 6.3 then Some(10) else if ratio <= 7.1 then Some(1) else None
  {
    var r := Table[3].rows;
    var o := Table[3].otherwise;
    assert PickRow(r[0..], ratio, o) == if ratio <= 1.75 then Some(2) else PickRow(r[1..], ratio, o);
    assert PickRow(r[1..], ratio, o) == if ratio <= 2.75 then Some(4) else PickRow(r[2..], ratio, o);
    assert PickRow(r[2..], ratio, o) == if ratio <= 3.5 then Some(1) else PickRow(r[3..], ratio, o);
    assert PickRow(r[3..], ratio, o) == if ratio <= 4.0 then Some(6) else PickRow(r[4..], ratio, o);
    assert PickRow(r[4..], ratio, o) == if ratio <= 4.1 then Some(10) else PickRow(r[5..], ratio, o);
    BandRows3Tail(ratio);
  }

  /** The last five rows of band 3. */
  lemma BandRows3Tail(ratio: real)
    ensures PickRow(Table[3].rows[5..], ratio, Table[3].otherwise) ==
      if ratio <= 5.0 then Some(2) else if ratio <= 5.01 then Some(30) else if ratio <= 6.2 then Some(2) else if ratio <= 6.3 then Some(10) else if ratio <= 7.1 then Some(1) else None
  {
    var r := Table[3].rows;
    var o := Table[3].otherwise;
    assert PickRow(r[5..], ratio, o) == if ratio <= 5.0 then Some(2) else PickRow(r[6..], ratio, o);
    assert PickRow(r[6..], ratio, o) == if ratio <= 5.01 then Some(30) else PickRow(r[7..], ratio, o);
    assert PickRow(r[7..], ratio, o) == if ratio <= 6.2 then Some(2) else PickRow(r[8..], ratio, o);
    assert PickRow(r[8..], ratio, o) == if ratio <= 6.3 then Some(10) else PickRow(r[9..], ratio, o);
    assert PickRow(r[9..], ratio, o) == if ratio <= 7.1 then Some(1) else PickRow(r[10..], ratio, o);
    assert PickRow(r[10..], ratio, o) == o;
  }

  /** Band 4 of the table, row by row. */
  lemma BandRows4(ratio: real)
    ensures PickRow(Table[4].rows, ratio, Table[4].otherwise) ==
      if ratio <= 0.01 then Some(50) else if ratio <= 0.1 then Some(10) else if ratio <= 1.0 then Some(6) else if ratio <= 3.0 then Some(2) else Some(1)
  {
    var r := Table[4].rows;
    var o := Table[4].otherwise;
    assert PickRow(r[0..], ratio, o) == if ratio <= 0.01 then Some(50) else PickRow(r[1..], ratio, o);
    assert PickRow(r[1..], ratio, o) == if ratio <= 0.1 then Some(10) else PickRow(r[2..], ratio, o);
    assert PickRow(r[2..], ratio, o) == if ratio <= 1.0 then Some(6) else PickRow(r[3..], ratio, o);
    assert PickRow(r[3..], ratio, o) == if ratio <= 3.0 then Some(2) else PickRow(r[4..], ratio, o);
    assert PickRow(r[4..], ratio, o) == o;
  }

  /** Band 5 of the table, row by row. */
  lemma BandRows5(ratio: real)
    ensures PickRow(Table[5].rows, ratio, Table[5].otherwise) ==
      if ratio <= 0.004 then Some(50) else if ratio <= 0.09 then Some(10) else Some(1)
  {
    var r := Table[5].rows;
    var o := Table[5].otherwise;
    assert PickRow(r[0..], ratio, o) == if ratio <= 0.004 then Some(50) else PickRow(r[1..], ratio, o);
    assert PickRow(r[1..], ratio, o) == if ratio <= 0.09 then Some(10) else PickRow(r[2..], ratio, o);
    assert PickRow(r[2..], ratio, o) == o;
  }
}
