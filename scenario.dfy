/**
  A worked instance of the pipeline: two watersheds with flowlines, one
  watershed without any, a species whose range holds the centres of all
  three, its curve, and the text a flowline of that species gets.
*/
module Scenario {
  import opened Wrappers
  import opened Flowlines
  import Curve
  import Policy

  /** Four flowlines: two in A (orders 3 and 1), one in B (order 5) and one in B without an order. */
  const Segs: seq<Segment> :=
    [Segment(1, Some("A"), Num(3)), Segment(2, Some("A"), Num(1)), Segment(3, Some("B"), Num(5)), Segment(4, Some("B"), Null)]

  /** `Stats_1` has a row for A holding 3, a row for B holding 5, and no other row. */
  lemma StatsOne()
    ensures MaxByHuc(Segs) == map[Some("A") := 3, Some("B") := 5]
  {
    assert Segs[..1][..0] == [];
    assert MaxByHuc(Segs[..1]) == map[Some("A") := 3];
    assert Segs[..2][..1] == Segs[..1];
    assert MaxByHuc(Segs[..2]) == map[Some("A") := 3];
    assert Segs[..3][..2] == Segs[..2];
    assert MaxByHuc(Segs[..3]) == map[Some("A") := 3, Some("B") := 5];
    assert Segs[..4][..3] == Segs[..3];
    assert Segs[..4] == Segs;
  }

  /** The HUC12 table after the join: A holds 3, B holds 5, C stays null. */
  lemma HucTable()
    ensures Aggregate(Segs, ["A", "B", "C"]) == [Watershed("A", Some(3)), Watershed("B", Some(5)), Watershed("C", None)]
  {
    StatsOne();
  }

  /** A species whose range holds all three centres has threshold 3: the smaller maximum, C's null ignored. */
  lemma SpeciesThreshold()
    ensures Threshold([Watershed("A", Some(3)), Watershed("B", Some(5)), Watershed("C", None)], {"A", "B", "C"}) == Some(3)
  {
    var hucs := [Watershed("A", Some(3)), Watershed("B", Some(5)), Watershed("C", None)];
    ThresholdIsRangeMin(hucs, {"A", "B", "C"});
    assert hucs[0] in hucs && hucs[1] in hucs;
  }

  /** With threshold 3 the curve keeps 0.9 at order 4 and gives 0.45 at order 3. */
  lemma SpeciesCurve()
    ensures Curve.Curve(Some(3))[4] == 0.9 && Curve.Curve(Some(3))[3] == 0.45
  {
    Curve.CurveAboveThreshold(Some(3), 4);
    Curve.CurveAtThreshold(3);
  }

  /** A flowline of order 4 inside the range of that species gets '0.9'; one outside it gets '0'. */
  lemma FlowlineProbability(species: string)
    ensures var pdict := map[species := Policy.CurveTable(Some(3))];
            && Policy.GetProbability(pdict, species, Num(4), 1) == Policy.Returned(Policy.Str(Policy.PyFloat(0.9)))
            && Policy.GetProbability(pdict, species, Num(4), 0) == Policy.Returned(Policy.Zero)
  {
    var pdict := map[species := Policy.CurveTable(Some(3))];
    Policy.GeneratedPolicy(pdict, species, Some(3), Num(4), 1);
    Curve.CurveAboveThreshold(Some(3), 4);
  }
}
