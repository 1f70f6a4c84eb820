/** deg_to_cardinal (app/sensors/rs485.py, lines 20-27): the eight-point compass label of a
    wind direction in degrees. Degrees are exact reals here. */
module Compass {
  import opened Records

  /** The labels, clockwise from north, one per 45-degree sector. */
  const Dirs: seq<string> := ["N", "NE", "E", "SE", "S", "SW", "W", "NW"]

  /** Python's float modulo by 360: the representative of x in [0, 360) that differs from x
      by a whole number of turns. */
  function Reduce(x: real): (d: real)
    ensures 0.0 <= d < 360.0
    ensures ((x - d) / 360.0).Floor as real == (x - d) / 360.0
  {
    x - 360.0 * ((x / 360.0).Floor as real)
  }

  /** The sector index of a direction: sectors are 45 degrees wide and centred on the labels,
      so north covers [337.5, 360) and [0, 22.5). */
  function CardinalIndex(x: real): (k: int)
    ensures 0 <= k < 8
  {
    ((Reduce(x) + 22.5) / 45.0).Floor % 8
  }

  /** deg_to_cardinal: "-" when `float()` rejects the value, otherwise the label of its sector. */
  function DegToCardinal(deg: Option<real>): (s: string)
    ensures deg.None? <==> s == "-"
    ensures deg.Some? ==> s == Dirs[CardinalIndex(deg.value)]
  {
    match deg
    case None => "-"
    case Some(x) => Dirs[CardinalIndex(x)]
  }

  /** A reduced direction d lies in the sector of label k. */
  predicate InSector(d: real, k: int) {
    if k == 0 then d < 22.5 || 337.5 <= d
    else 45.0 * (k as real) - 22.5 <= d < 45.0 * (k as real) + 22.5
  }

  /** The index computed by the floor formula is the sector the direction lies in, and no other. */
  lemma CardinalSector(x: real, k: int)
    requires 0 <= k < 8
    ensures CardinalIndex(x) == k <==> InSector(Reduce(x), k)
  {
    var d := Reduce(x);
    var q := ((d + 22.5) / 45.0).Floor;
    assert (q as real) <= (d + 22.5) / 45.0 < (q as real) + 1.0;
    assert 45.0 * (q as real) <= d + 22.5 < 45.0 * (q as real) + 45.0;
    assert 0 <= q <= 8;
  }

  /** Reduction does not change a value already in [0, 360). */
  lemma ReduceInRange(x: real)
    requires 0.0 <= x < 360.0
    ensures Reduce(x) == x
  {
    assert (x / 360.0).Floor == 0;
  }

  /** Whole turns, in either direction, do not change the reduced direction. */
  lemma ReduceTurns(x: real, n: int)
    ensures Reduce(x + 360.0 * (n as real)) == Reduce(x)
  {
    var f := (x / 360.0).Floor;
    assert (x + 360.0 * (n as real)) / 360.0 == x / 360.0 + (n as real);
    assert ((x + 360.0 * (n as real)) / 360.0).Floor == f + n;
  }

  /** A direction and the same direction one turn further have the same label. */
  lemma CardinalPeriodic(x: real)
    ensures DegToCardinal(Some(x + 360.0)) == DegToCardinal(Some(x))
  {
    ReduceTurns(x, 1);
  }

  /** Every result is "-" or one of the eight labels. */
  lemma CardinalIsLabel(deg: Option<real>)
    ensures DegToCardinal(deg) == "-" || DegToCardinal(deg) in Dirs
  {
    if deg.Some? {
      var k := CardinalIndex(deg.value);
      assert Dirs[k] in Dirs;
    }
  }

  /** Labels of sample directions; the lower edge of a sector belongs to it, and 338 wraps
      round to north. */
  lemma CardinalExamples()
    ensures DegToCardinal(Some(0.0)) == "N"
    ensures DegToCardinal(Some(22.4)) == "N"
    ensures DegToCardinal(Some(22.5)) == "NE"
    ensures DegToCardinal(Some(90.0)) == "E"
    ensures DegToCardinal(Some(337.4)) == "NW"
    ensures DegToCardinal(Some(337.5)) == "N"
    ensures DegToCardinal(Some(-45.0)) == "NW"
    ensures DegToCardinal(Some(22.0)) == "N" && DegToCardinal(Some(23.0)) == "NE"
    ensures DegToCardinal(Some(45.0)) == "NE" && DegToCardinal(Some(337.0)) == "NW"
    ensures DegToCardinal(Some(338.0)) == "N"
    ensures DegToCardinal(None) == "-"
  {
    ReduceInRange(0.0);
    assert ((0.0 + 22.5) / 45.0).Floor == 0;
    ReduceInRange(22.4);
    assert ((22.4 + 22.5) / 45.0).Floor == 0;
    ReduceInRange(22.5);
    assert ((22.5 + 22.5) / 45.0).Floor == 1;
    ReduceInRange(90.0);
    assert ((90.0 + 22.5) / 45.0).Floor == 2;
    ReduceInRange(337.4);
    assert ((337.4 + 22.5) / 45.0).Floor == 7;
    ReduceInRange(337.5);
    assert ((337.5 + 22.5) / 45.0).Floor == 8;
    ReduceInRange(22.0);
    assert ((22.0 + 22.5) / 45.0).Floor == 0;
    ReduceInRange(23.0);
    assert ((23.0 + 22.5) / 45.0).Floor == 1;
    ReduceInRange(45.0);
    assert ((45.0 + 22.5) / 45.0).Floor == 1;
    ReduceInRange(337.0);
    assert ((337.0 + 22.5) / 45.0).Floor == 7;
    ReduceInRange(338.0);
    assert ((338.0 + 22.5) / 45.0).Floor == 8;
    assert (-45.0 / 360.0).Floor == -1;
    assert Reduce(-45.0) == 315.0;
    assert ((315.0 + 22.5) / 45.0).Floor == 7;
  }
}
