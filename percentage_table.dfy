/**
 * The table of suggested training loads: one row per percentage of the
 * estimated 1RM, in a fixed descending order. Targets are kept as exact
 * reals; the one-decimal display rounding is not modelled.
 */
module PercentageTable {

  /** The percentages the table is built over, in the order of its rows. */
  const Percentages: seq<int> := [90, 80, 70, 60, 50, 40, 30, 20]

  /** One row: a percentage and the load it stands for. */
  datatype Row = Row(percentage: int, target: real)

  /** The load at `p` percent of `oneRM`, multiplied first and divided by 100 after. */
  function Target(oneRM: real, p: int): (r: real)
    ensures p == 100 ==> r == oneRM
    ensures p == 0 ==> r == 0.0
    ensures oneRM >= 0.0 && 0 <= p <= 100 ==> 0.0 <= r <= oneRM
  {
    oneRM * (p as real) / 100.0
  }

  /** The rows for the percentages `ps`, one per entry and in the same order. */
  function MapRows(ps: seq<int>, oneRM: real): (rows: seq<Row>)
    ensures |rows| == |ps|
    ensures forall i :: 0 <= i < |ps| ==> rows[i] == Row(ps[i], Target(oneRM, ps[i]))
  {
    if ps == [] then [] else [Row(ps[0], Target(oneRM, ps[0]))] + MapRows(ps[1..], oneRM)
  }

  /** The table for an estimated 1RM. */
  function Table(oneRM: real): (rows: seq<Row>)
    ensures |rows| == |Percentages| == 8
    ensures forall i :: 0 <= i < |rows| ==> rows[i] == Row(Percentages[i], Target(oneRM, Percentages[i]))
  {
    MapRows(Percentages, oneRM)
  }

  /** The row percentages are 90 down to 20 in steps of ten, strictly descending. */
  lemma TablePercentagesDescend(oneRM: real)
    ensures forall i :: 0 <= i < |Table(oneRM)| ==> Table(oneRM)[i].percentage == 90 - 10 * i
    ensures forall i, j :: 0 <= i < j < |Table(oneRM)| ==> Table(oneRM)[i].percentage > Table(oneRM)[j].percentage
  {
  }

  /** A percentage of a non-negative 1RM is at most a larger percentage of it. */
  lemma TargetMonotone(oneRM: real, p: int, q: int)
    requires oneRM >= 0.0 && p <= q
    ensures Target(oneRM, p) <= Target(oneRM, q)
  {
    assert Target(oneRM, q) - Target(oneRM, p) == oneRM * ((q - p) as real) / 100.0;
  }

  /**
   * For a non-negative 1RM the targets never increase down the table, and
   * each lies between 0 and the 1RM itself.
   */
  lemma TableTargetsBounded(oneRM: real)
    requires oneRM >= 0.0
    ensures forall i, j :: 0 <= i <= j < |Table(oneRM)| ==> Table(oneRM)[i].target >= Table(oneRM)[j].target
    ensures forall i :: 0 <= i < |Table(oneRM)| ==> 0.0 <= Table(oneRM)[i].target <= oneRM
  {
  }

  /** For a 1RM of 100 every target equals its percentage. */
  lemma TableOfHundred()
    ensures forall i :: 0 <= i < |Table(100.0)| ==> Table(100.0)[i].target == Table(100.0)[i].percentage as real
  {
  }

  /**
   * Every row determines the 1RM it was built from: its target times 100
   * over its percentage gives the 1RM back. Hence two different estimates
   * never give the same table.
   */
  lemma TableDeterminesOneRM(oneRM: real, other: real)
    ensures forall i :: 0 <= i < |Table(oneRM)| ==>
      Table(oneRM)[i].target * 100.0 / (Table(oneRM)[i].percentage as real) == oneRM
    ensures Table(oneRM) == Table(other) ==> oneRM == other
  {
  }

  /** Scaling the 1RM scales every target by the same factor. */
  lemma TableScales(k: real, oneRM: real)
    ensures forall i :: 0 <= i < |Table(oneRM)| ==> Table(k * oneRM)[i].target == k * Table(oneRM)[i].target
  {
  }
}
