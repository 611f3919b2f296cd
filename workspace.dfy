/**
  The geodatabase the scripts work on, as the state their geoprocessing
  calls change: feature layers, the HUC12 table, the statistics tables, the
  per-species spatial-join outputs and the accumulating
  `FlowlineProbabilities` table. Each tool call is a method that changes
  only the part of the state it names; what it computes is given by the
  functions of this module and of Flowlines and Policy.
*/
module Workspace {
  import opened Wrappers
  import opened Flowlines
  import opened Policy
  import Codegen

  /** A row of the flowline network: its COMID and its `StreamOrde`. */
  datatype Flowline = Flowline(comid: int, order: StreamOrder)

  /** A row of a per-species spatial join: the flowline and its `Join_Count`. */
  datatype JoinedRow = JoinedRow(comid: int, order: StreamOrder, joinCount: nat)

  /** A text cell; null until CalculateField fills it. */
  type Cell = Option<ProbText>

  /** A per-species spatial-join output: its rows and the text fields added to it. */
  datatype JoinClass = JoinClass(rows: seq<JoinedRow>, fields: map<string, seq<Cell>>)

  /** A row of `FlowlineProbabilities`: the copied flowline and one column per species joined so far. */
  datatype OutRow = OutRow(comid: int, order: StreamOrder, columns: map<string, Cell>)

  /**
    What the spatial layer says about one species: the HUC12s whose centre
    lies in its range (used for the threshold) and, per flowline COMID, the
    number of range polygons holding the flowline's centre (its `Join_Count`).
  */
  datatype SpeciesRange = SpeciesRange(hucCentres: set<HucId>, joinCounts: map<int, nat>)

  /** A species the spatial layer knows nothing about has an empty range. */
  function RangeOf(ranges: map<string, SpeciesRange>, species: string): SpeciesRange {
    if species in ranges then ranges[species] else SpeciesRange({}, map[])
  }

  function JoinCountOf(r: SpeciesRange, comid: int): nat {
    if comid in r.joinCounts then r.joinCounts[comid] else 0
  }

  function HucIds(hucs: seq<Watershed>): (ids: seq<HucId>)
    ensures |ids| == |hucs| && forall k :: 0 <= k < |hucs| ==> ids[k] == hucs[k].huc
  {
    seq(|hucs|, k requires 0 <= k < |hucs| => hucs[k].huc)
  }

  /** `SpatialJoin(flowlines, species, out, "JOIN_ONE_TO_ONE", match_option="HAVE_THEIR_CENTER_IN")`:
      every target flowline is kept, with its join count. */
  function SpatialJoinRows(flowlines: seq<Flowline>, r: SpeciesRange): seq<JoinedRow> {
    seq(|flowlines| , k requires 0 <= k < |flowlines| =>
      JoinedRow(flowlines[k].comid, flowlines[k].order, JoinCountOf(r, flowlines[k].comid)))
  }

  /** `CopyFeatures(flowlines, "FlowlineProbabilities")`: the flowlines with no species column yet. */
  function CopyRows(flowlines: seq<Flowline>): seq<OutRow> {
    seq(|flowlines|, k requires 0 <= k < |flowlines| => OutRow(flowlines[k].comid, flowlines[k].order, map[]))
  }

  /** A fresh text field: null in every row. */
  function NullColumn(n: nat): (c: seq<Cell>)
    ensures |c| == n && forall k :: 0 <= k < n ==> c[k].None?
  {
    seq(n, _ => None)
  }

  /** `getProbability` applied to one joined row. */
  function EvaluateRow(pdict: Pdict, species: string, row: JoinedRow): Evaluation {
    GetProbability(pdict, species, row.order, row.joinCount)
  }

  /**
    `CalculateField(out, field, expression, "Python_9.3", codeblock)`: the
    expression must name a species in the generated shape; the call fills
    every row, or fails as a whole at the first KeyError.
  */
  function FieldCalculation(rows: seq<JoinedRow>, expression: string, pdict: Pdict): (r: Option<seq<Cell>>)
    ensures r.Some? ==> |r.value| == |rows|
  {
    match Codegen.ExpressionSpecies(expression)
    case None => None
    case Some(species) =>
      if forall k :: 0 <= k < |rows| ==> EvaluateRow(pdict, species, rows[k]).Returned?
      then Some(seq(|rows|, k requires 0 <= k < |rows| => Some(EvaluateRow(pdict, species, rows[k]).text)))
      else None
  }

  /** The generated expression makes the calculation fill row k with `getProbability` of that row. */
  lemma FieldCalculationOfExpression(rows: seq<JoinedRow>, species: string, pdict: Pdict)
    ensures FieldCalculation(rows, Codegen.Expression(species), pdict).Some? <==>
              forall k :: 0 <= k < |rows| ==> !EvaluateRow(pdict, species, rows[k]).KeyError?
    ensures FieldCalculation(rows, Codegen.Expression(species), pdict).Some? ==>
              forall k :: 0 <= k < |rows| ==>
                FieldCalculation(rows, Codegen.Expression(species), pdict).value[k] ==
                  Some(EvaluateRow(pdict, species, rows[k]).text)
  {
    Codegen.ExpressionRoundTrip(species);
  }

  /** The index of the first row with the given COMID, or |rows|. */
  function FirstWithComid(rows: seq<JoinedRow>, comid: int): (k: nat)
    ensures k <= |rows|
    ensures k < |rows| ==> rows[k].comid == comid
    ensures forall j :: 0 <= j < k ==> rows[j].comid != comid
  {
    if rows == [] then 0
    else if rows[0].comid == comid then 0
    else 1 + FirstWithComid(rows[1..], comid)
  }

  /** The value JoinField copies for one target COMID: the field of the first matching row, or null. */
  function LookupCell(jc: JoinClass, comid: int, field: string): Cell {
    var k := FirstWithComid(jc.rows, comid);
    if k < |jc.rows| && field in jc.fields && k < |jc.fields[field]| then jc.fields[field][k] else None
  }

  /** `JoinField(FlowlineProbabilities, "COMID", out, "COMID", [field])`. */
  function JoinColumn(output: seq<OutRow>, jc: JoinClass, field: string): seq<OutRow> {
    seq(|output|, k requires 0 <= k < |output| =>
      output[k].(columns := output[k].columns[field := LookupCell(jc, output[k].comid, field)]))
  }

  /**
    Joining a column never drops, adds or reorders a row, never changes a
    row's identity, adds the field to every row and leaves every other
    column as it was.
  */
  lemma JoinColumnKeepsTable(output: seq<OutRow>, jc: JoinClass, field: string)
    ensures |JoinColumn(output, jc, field)| == |output|
    ensures forall k :: 0 <= k < |output| ==>
              && JoinColumn(output, jc, field)[k].comid == output[k].comid
              && JoinColumn(output, jc, field)[k].order == output[k].order
              && JoinColumn(output, jc, field)[k].columns.Keys == output[k].columns.Keys + {field}
              && forall g :: g in output[k].columns && g != field ==>
                   JoinColumn(output, jc, field)[k].columns[g] == output[k].columns[g]
  {
  }

  /** COMIDs identify flowlines. */
  ghost predicate UniqueComids(rows: seq<JoinedRow>) {
    forall i, j :: 0 <= i < j < |rows| ==> rows[i].comid != rows[j].comid
  }

  /**
    When the join output has one row per target row with the same COMIDs,
    and COMIDs are unique, each target row receives the cell of its own
    flowline.
  */
  lemma JoinColumnOwnRow(output: seq<OutRow>, jc: JoinClass, field: string, k: int)
    requires |jc.rows| == |output| && UniqueComids(jc.rows)
    requires forall j :: 0 <= j < |output| ==> jc.rows[j].comid == output[j].comid
    requires field in jc.fields && |jc.fields[field]| == |jc.rows|
    requires 0 <= k < |output|
    ensures JoinColumn(output, jc, field)[k].columns[field] == jc.fields[field][k]
  {
    var f := FirstWithComid(jc.rows, output[k].comid);
    assert jc.rows[k].comid == output[k].comid;
    assert f == k;
  }

  class Geodatabase {
    /** Feature layers that currently exist. */
    var layers: set<string>
    /** `HUC12FullState`, with its `MAX_StreamOrde` column. */
    var hucs: seq<Watershed>
    /** `Stats_1`: `MAX_StreamOrde` per `HUC_12` group. */
    var stats1: map<Option<HucId>, int>
    /** The `Stats_<species>` tables, by name: their `MIN_MAX_StreamOrde` rows. */
    var minStats: map<string, seq<Option<int>>>
    /** Spatial-join outputs, by path. */
    var classes: map<string, JoinClass>
    /** `FlowlineProbabilities`. */
    var output: seq<OutRow>

    constructor (hucTable: seq<Watershed>)
      ensures layers == {} && hucs == hucTable && stats1 == map[] && minStats == map[]
      ensures classes == map[] && output == []
    {
      layers := {};
      hucs := hucTable;
      stats1 := map[];
      minStats := map[];
      classes := map[];
      output := [];
    }

    /** `MakeFeatureLayer(source, name)` */
    method MakeFeatureLayer(name: string)
      modifies this`layers
      ensures layers == old(layers) + {name}
    {
      layers := layers + {name};
    }

    /** `Delete_management(name)` of a layer */
    method DeleteLayer(name: string)
      modifies this`layers
      ensures layers == old(layers) - {name}
    {
      layers := layers - {name};
    }

    /** `Statistics(flowline layer, "Stats_1", [["StreamOrde", "MAX"]], "HUC_12")` on the attribute selection. */
    method StatisticsMaxByHuc(segs: seq<Segment>)
      modifies this`stats1
      ensures stats1 == MaxByHuc(segs)
    {
      stats1 := MaxByHuc(segs);
    }

    /** `JoinField(HUC12FullState, "HUC_12", "Stats_1", "HUC_12", ["MAX_StreamOrde"])`,
        after any earlier `MAX_StreamOrde` column was deleted. */
    method JoinMaxStreamOrder()
      modifies this`hucs
      ensures hucs == JoinMax(HucIds(old(hucs)), stats1)
    {
      hucs := JoinMax(HucIds(hucs), stats1);
    }

    /** `SelectLayerByLocation(HUC12 layer, "HAVE_THEIR_CENTER_IN", species layer)` followed by
        `Statistics(HUC12 layer, "Stats_" + species, [["MAX_StreamOrde", "MIN"]])`: one row. */
    method StatisticsMinForSpecies(species: string, centres: set<HucId>)
      modifies this`minStats
      ensures minStats == old(minStats)[Codegen.StatsTableName(species) := [Threshold(hucs, centres)]]
    {
      minStats := minStats[Codegen.StatsTableName(species) := [Threshold(hucs, centres)]];
    }

    /** `SpatialJoin(flowlines, species, outName, ...)`; an existing output is overwritten. */
    method SpatialJoin(outName: string, flowlines: seq<Flowline>, r: SpeciesRange)
      modifies this`classes
      ensures classes == old(classes)[outName := JoinClass(SpatialJoinRows(flowlines, r), map[])]
    {
      classes := classes[outName := JoinClass(SpatialJoinRows(flowlines, r), map[])];
    }

    /** `AddField(outName, field, "TEXT")` */
    method AddTextField(outName: string, field: string)
      requires outName in classes
      modifies this`classes
      ensures classes == old(classes)[outName := old(classes)[outName].(
                fields := old(classes)[outName].fields[field := NullColumn(|old(classes)[outName].rows|)])]
    {
      var jc := classes[outName];
      classes := classes[outName := jc.(fields := jc.fields[field := NullColumn(|jc.rows|)])];
    }

    /** `CalculateField(outName, field, expression, "Python_9.3", codeblock)`, with the
        dictionary of dictionaries `pdict` that the codeblock defines. */
    method CalculateField(outName: string, field: string, expression: string, pdict: Pdict) returns (ok: bool)
      requires outName in classes
      modifies this`classes
      ensures ok <==> FieldCalculation(old(classes)[outName].rows, expression, pdict).Some?
      ensures ok ==> classes == old(classes)[outName := old(classes)[outName].(
                fields := old(classes)[outName].fields[field :=
                  FieldCalculation(old(classes)[outName].rows, expression, pdict).value])]
      ensures !ok ==> classes == old(classes)
    {
      var jc := classes[outName];
      var cells := FieldCalculation(jc.rows, expression, pdict);
      ok := cells.Some?;
      if ok {
        classes := classes[outName := jc.(fields := jc.fields[field := cells.value])];
      }
    }

    /** `JoinField(FlowlineProbabilities, "COMID", outName, "COMID", [field])` */
    method JoinField(outName: string, field: string)
      requires outName in classes
      modifies this`output
      ensures output == JoinColumn(old(output), classes[outName], field)
    {
      output := JoinColumn(output, classes[outName], field);
    }

    /** `Delete_management(name)` of a feature class */
    method DeleteClass(name: string)
      modifies this`classes
      ensures classes == old(classes) - {name}
    {
      classes := classes - {name};
    }

    /** `CopyFeatures(flowlines, FlowlineProbabilities)` */
    method CopyFeatures(flowlines: seq<Flowline>)
      modifies this`output
      ensures output == CopyRows(flowlines)
    {
      output := CopyRows(flowlines);
    }
  }
}
