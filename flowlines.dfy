/**
  Flowlines, HUC12 watersheds and the two summary statistics the pipeline
  asks of them: the maximum stream order of every HUC12 (grouped by `HUC_12`)
  and, per species, the minimum of those maxima over the HUC12s whose centre
  lies in the species' range.

  The centre-in-polygon spatial joins are taken as given: a segment arrives
  carrying the `HUC_12` of the polygon that holds its centre (or none), and a
  species' range arrives as the set of HUC12 ids whose centre it holds.
*/
module Flowlines {
  import opened Wrappers

  /** The value of a `StreamOrde` field: null, a float NaN, or a number. */
  datatype StreamOrder = Null | NaN | Num(value: int)

  type HucId = string

  /** A flowline after the spatial join onto the HUC12 polygons. */
  datatype Segment = Segment(comid: int, huc: Option<HucId>, order: StreamOrder)

  /** A HUC12 polygon row of `HUC12FullState` with its joined `MAX_StreamOrde`. */
  datatype Watershed = Watershed(huc: HucId, maxOrder: Option<int>)

  /** The attribute selection '"StreamOrde" IS NOT NULL AND "StreamOrde" > 0'
      (a NaN fails the comparison). */
  predicate Qualifies(o: StreamOrder) {
    o.Num? && o.value > 0
  }

  /** Segment k is selected and has its centre in group h. */
  ghost predicate InGroup(segs: seq<Segment>, k: int, h: Option<HucId>) {
    0 <= k < |segs| && segs[k].huc == h && Qualifies(segs[k].order)
  }

  /** v is the largest selected order among the segments of group h. */
  ghost predicate IsGroupMax(segs: seq<Segment>, h: Option<HucId>, v: int) {
    && (exists k :: InGroup(segs, k, h) && segs[k].order.value == v)
    && (forall k :: InGroup(segs, k, h) ==> segs[k].order.value <= v)
  }

  /** Extending the segments by one more keeps the group-max table correct. */
  lemma MaxByHucStep(segs: seq<Segment>, pre: seq<Segment>, rest: map<Option<HucId>, int>, r: map<Option<HucId>, int>)
    requires |segs| > 0 && pre == segs[..|segs| - 1]
    requires forall h :: h in rest <==> exists k :: InGroup(pre, k, h)
    requires forall h :: h in rest ==> IsGroupMax(pre, h, rest[h])
    requires var s := segs[|segs| - 1];
             r == if !Qualifies(s.order) || (s.huc in rest && rest[s.huc] >= s.order.value) then rest
                  else rest[s.huc := s.order.value]
    ensures forall h :: h in r <==> exists k :: InGroup(segs, k, h)
    ensures forall h :: h in r ==> IsGroupMax(segs, h, r[h])
  {
    var n := |segs| - 1;
    assert forall k, h :: InGroup(pre, k, h) ==> InGroup(segs, k, h);
    assert r.Keys == rest.Keys + (if Qualifies(segs[n].order) then {segs[n].huc} else {});
    forall h ensures h in r <==> exists k :: InGroup(segs, k, h) {
      if h in rest {
        var k :| InGroup(pre, k, h);
        assert InGroup(segs, k, h);
      } else if h in r {
        assert InGroup(segs, n, h);
      }
      if k :| InGroup(segs, k, h) {
        if k < n { assert InGroup(pre, k, h); } else { assert h in r; }
      }
    }
    forall h | h in r ensures IsGroupMax(segs, h, r[h]) {
      if h == segs[n].huc && Qualifies(segs[n].order) {
        assert InGroup(segs, n, h);
        forall k | InGroup(segs, k, h) ensures segs[k].order.value <= r[h] {
          if k < n { assert InGroup(pre, k, h); }
        }
      } else {
        assert !InGroup(segs, n, h);
        forall k | InGroup(segs, k, h) ensures InGroup(pre, k, h) { }
      }
    }
  }

  /**
    The `Stats_1` table: `Statistics(selected flowlines, [["StreamOrde", "MAX"]], "HUC_12")`.
    One row per `HUC_12` value carried by a selected segment (a null `HUC_12`
    is a group of its own), holding the largest selected order of that group.
  */
  function MaxByHuc(segs: seq<Segment>): (stats: map<Option<HucId>, int>)
    ensures forall h :: h in stats <==> exists k :: InGroup(segs, k, h)
    ensures forall h :: h in stats ==> IsGroupMax(segs, h, stats[h])
  {
    if segs == [] then map[]
    else
      var n := |segs| - 1;
      var rest := MaxByHuc(segs[..n]);
      var s := segs[n];
      var r := if !Qualifies(s.order) || (s.huc in rest && rest[s.huc] >= s.order.value) then rest
               else rest[s.huc := s.order.value];
      MaxByHucStep(segs, segs[..n], rest, r);
      r
  }

  /**
    `JoinField(HUC12FullState, "HUC_12", "Stats_1", "HUC_12", ["MAX_StreamOrde"])`:
    every HUC12 row keeps its id and gets the `Stats_1` value of its group, or null.
  */
  function JoinMax(hucs: seq<HucId>, stats: map<Option<HucId>, int>): (rows: seq<Watershed>)
    ensures |rows| == |hucs|
    ensures forall k :: 0 <= k < |hucs| ==> rows[k].huc == hucs[k]
  {
    seq(|hucs|, k requires 0 <= k < |hucs| =>
      Watershed(hucs[k], if Some(hucs[k]) in stats then Some(stats[Some(hucs[k])]) else None))
  }

  /** The HUC12 table after the aggregation step of the pipeline. */
  function Aggregate(segs: seq<Segment>, hucs: seq<HucId>): seq<Watershed> {
    JoinMax(hucs, MaxByHuc(segs))
  }

  /**
    What the aggregation attaches to a watershed: the largest selected order
    among the segments whose centre lies in it, and null exactly when there
    is no such segment; every attached value is at least 1.
  */
  lemma AggregateIsGroupMax(segs: seq<Segment>, hucs: seq<HucId>, k: int)
    requires 0 <= k < |hucs|
    ensures Aggregate(segs, hucs)[k].huc == hucs[k]
    ensures Aggregate(segs, hucs)[k].maxOrder.None? <==>
              forall j :: 0 <= j < |segs| && segs[j].huc == Some(hucs[k]) ==> !Qualifies(segs[j].order)
    ensures Aggregate(segs, hucs)[k].maxOrder.Some? ==>
              IsGroupMax(segs, Some(hucs[k]), Aggregate(segs, hucs)[k].maxOrder.value)
              && Aggregate(segs, hucs)[k].maxOrder.value >= 1
  {
    var stats := MaxByHuc(segs);
    var h := Some(hucs[k]);
    if h in stats {
      var j :| InGroup(segs, j, h) && segs[j].order.value == stats[h];
    } else {
      forall j | 0 <= j < |segs| && segs[j].huc == h ensures !Qualifies(segs[j].order) {
        assert !InGroup(segs, j, h);
      }
    }
  }

  /** Watersheds with a known maximum all have one of at least 1. */
  ghost predicate MaxOrdersPositive(rows: seq<Watershed>) {
    forall k :: 0 <= k < |rows| && rows[k].maxOrder.Some? ==> rows[k].maxOrder.value >= 1
  }

  lemma AggregatePositive(segs: seq<Segment>, hucs: seq<HucId>)
    ensures MaxOrdersPositive(Aggregate(segs, hucs))
  {
    forall k | 0 <= k < |hucs| && Aggregate(segs, hucs)[k].maxOrder.Some?
      ensures Aggregate(segs, hucs)[k].maxOrder.value >= 1
    {
      AggregateIsGroupMax(segs, hucs, k);
    }
  }

  /**
    `SelectLayerByLocation(HUC12 layer, "HAVE_THEIR_CENTER_IN", species layer)`:
    the HUC12 rows whose id is among those whose centre the range holds, in table order.
  */
  function SelectByCentre(hucs: seq<Watershed>, centres: set<HucId>): (selected: seq<Watershed>)
    ensures forall w :: w in selected <==> w in hucs && w.huc in centres
    ensures |selected| <= |hucs|
  {
    if hucs == [] then []
    else (if hucs[0].huc in centres then [hucs[0]] else []) + SelectByCentre(hucs[1..], centres)
  }

  function MaxOrders(rows: seq<Watershed>): (vals: seq<Option<int>>)
    ensures |vals| == |rows|
    ensures forall k :: 0 <= k < |rows| ==> vals[k] == rows[k].maxOrder
  {
    seq(|rows|, k requires 0 <= k < |rows| => rows[k].maxOrder)
  }

  /**
    `Statistics(…, [["MAX_StreamOrde", "MIN"]])` without a case field: the
    minimum of the non-null values, or null when every value is null.
  */
  function MinPresent(vals: seq<Option<int>>): (r: Option<int>)
    ensures r.None? <==> forall k :: 0 <= k < |vals| ==> vals[k].None?
    ensures r.Some? ==> r in vals
    ensures r.Some? ==> forall k :: 0 <= k < |vals| && vals[k].Some? ==> r.value <= vals[k].value
  {
    if vals == [] then None
    else
      var rest := MinPresent(vals[1..]);
      assert forall k :: 1 <= k < |vals| ==> vals[k] == vals[1..][k - 1];
      match vals[0]
      case None => rest
      case Some(v) => if rest.Some? && rest.value < v then rest else Some(v)
  }

  /** The range holds the centre of no HUC12 of the table. */
  ghost predicate NoCentre(hucs: seq<Watershed>, centres: set<HucId>) {
    forall v :: v in hucs ==> v.huc !in centres
  }

  /** Row w is one the statistics summarize: a HUC12 of the range, or any HUC12 when the range holds none. */
  ghost predicate InScope(hucs: seq<Watershed>, centres: set<HucId>, w: Watershed) {
    w in hucs && (w.huc in centres || NoCentre(hucs, centres))
  }

  /**
    The rows a tool on the HUC12 layer processes after the selection by
    location: the selected rows, or, when the selection is empty, every row,
    since a layer without a selection stands for all of its features.
  */
  function SummarizedRows(hucs: seq<Watershed>, centres: set<HucId>): (rows: seq<Watershed>)
    ensures forall w :: w in rows <==> InScope(hucs, centres, w)
  {
    var sel := SelectByCentre(hucs, centres);
    if sel != [] then
      assert sel[0] in sel;
      sel
    else hucs
  }

  /** The `MIN_MAX_StreamOrde` value of a species' `Stats_<species>` table. */
  function Threshold(hucs: seq<Watershed>, centres: set<HucId>): Option<int> {
    MinPresent(MaxOrders(SummarizedRows(hucs, centres)))
  }

  /**
    The species threshold is the minimum of `MAX_StreamOrde` over the
    summarized watersheds that have one (those of the range, or all of
    them when the range holds no centre); it is null exactly when none has.
  */
  lemma ThresholdIsRangeMin(hucs: seq<Watershed>, centres: set<HucId>)
    ensures Threshold(hucs, centres).None? <==>
              forall w :: InScope(hucs, centres, w) ==> w.maxOrder.None?
    ensures Threshold(hucs, centres).Some? ==>
              && (exists w :: InScope(hucs, centres, w) && w.maxOrder == Threshold(hucs, centres))
              && (forall w :: InScope(hucs, centres, w) && w.maxOrder.Some? ==>
                    Threshold(hucs, centres).value <= w.maxOrder.value)
  {
    var sel := SummarizedRows(hucs, centres);
    var vals := MaxOrders(sel);
    var t := MinPresent(vals);
    forall w | InScope(hucs, centres, w)
      ensures w.maxOrder in vals
    {
      assert w in sel;
      var k :| 0 <= k < |sel| && sel[k] == w;
      assert vals[k] == w.maxOrder;
    }
    if t.Some? {
      var k :| 0 <= k < |vals| && vals[k] == t;
      assert sel[k] in sel;
    } else {
      forall w | InScope(hucs, centres, w) ensures w.maxOrder.None? {
        var k :| 0 <= k < |vals| && vals[k] == w.maxOrder;
      }
    }
  }

  /** A selection that holds every row keeps the table as it is. */
  lemma {:induction false} SelectEveryRow(hucs: seq<Watershed>, centres: set<HucId>)
    requires forall v :: v in hucs ==> v.huc in centres
    ensures SelectByCentre(hucs, centres) == hucs
  {
    if hucs != [] {
      assert hucs[0] in hucs;
      forall v | v in hucs[1..] ensures v.huc in centres {
        assert v in hucs;
      }
      SelectEveryRow(hucs[1..], centres);
      assert [hucs[0]] + hucs[1..] == hucs;
    }
  }

  /**
    A range that holds no HUC12 centre summarizes the whole table: its
    threshold is that of a range holding every centre.
  */
  lemma ThresholdEmptySelection(hucs: seq<Watershed>, centres: set<HucId>)
    requires NoCentre(hucs, centres)
    ensures Threshold(hucs, centres) == Threshold(hucs, set v | v in hucs :: v.huc)
  {
    var all := set v | v in hucs :: v.huc;
    SelectEveryRow(hucs, all);
    if hucs != [] {
      assert hucs[0] in SelectByCentre(hucs, all);
    }
  }

  /** With positive watershed maxima the threshold, when present, is at least 1. */
  lemma ThresholdPositive(hucs: seq<Watershed>, centres: set<HucId>)
    requires MaxOrdersPositive(hucs)
    ensures Threshold(hucs, centres).Some? ==> Threshold(hucs, centres).value >= 1
  {
    ThresholdIsRangeMin(hucs, centres);
    if Threshold(hucs, centres).Some? {
      var w :| InScope(hucs, centres, w) && w.maxOrder == Threshold(hucs, centres);
      var k :| 0 <= k < |hucs| && hucs[k] == w;
    }
  }
}
