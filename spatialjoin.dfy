/**
  spatialjoin.py: `probabilities_dict` attaches the per-HUC12 maximum
  stream order and builds the `getProbability` codeblock; the script then
  copies the flowline network into `FlowlineProbabilities` and, species by
  species, spatially joins the range, fills a probability column and joins
  it into `FlowlineProbabilities` by COMID.
*/
module SpatialJoinScript {
  import opened Flowlines
  import opened Policy
  import Codegen
  import opened Workspace
  import opened Pipeline

  /**
    `probabilities_dict()`: the two layers, the flowline filter, MAX by
    HUC12 and its join onto the HUC12 table, then the codeblock builder
    with this script's header. `segs` is the flowline network spatially
    joined to the HUC12s (`FlowlineSpatialJoin`). The two layers are
    deleted only after the builder returns; a raising statistics tool
    leaves them behind.
  */
  method ProbabilitiesDict(gdb: Geodatabase, segs: seq<Segment>, features: seq<string>,
                           ranges: map<string, SpeciesRange>, failing: set<string>,
                           render: ProbabilityTable -> string) returns (r: Codeblock)
    modifies gdb`layers, gdb`stats1, gdb`hucs, gdb`minStats
    ensures gdb.stats1 == MaxByHuc(segs)
    ensures gdb.hucs == Aggregate(segs, HucIds(old(gdb.hucs)))
    ensures var n := FirstIn(features, failing);
            && (r.ThresholdFailed? <==> n < |features|)
            && (r.ThresholdFailed? ==> && r.species == features[n]
                                       && gdb.layers == old(gdb.layers) + {HucLayer, FlowlineLayer} - LayerNames(features[..n + 1]))
            && gdb.minStats == StatsTables(old(gdb.minStats), gdb.hucs, ranges, features[..n])
    ensures r.Generated? ==>
              && r.codeblock == Codegen.CodeblockText(Codegen.HeaderSpatialJoin, features, DictTexts(gdb.hucs, ranges, features, render))
              && r.pdict == CurvePdict(gdb.hucs, ranges, features)
              && gdb.layers == old(gdb.layers) - LayerNames(features) - {HucLayer, FlowlineLayer}
  {
    PrepareHucs(gdb, segs);
    r := BuildCodeblock(gdb, Codegen.HeaderSpatialJoin, features, ranges, failing, render);
    if r.ThresholdFailed? {
      return;
    }
    gdb.DeleteLayer(HucLayer);
    gdb.DeleteLayer(FlowlineLayer);
  }

  /**
    `probabilities_dict()` as the main loop sees it: where it stops, and
    the dictionary of dictionaries its codeblock defines.
  */
  method ProbabilitiesPdict(gdb: Geodatabase, segs: seq<Segment>, features: seq<string>,
                            ranges: map<string, SpeciesRange>, failing: set<string>,
                            render: ProbabilityTable -> string) returns (r: Codeblock)
    modifies gdb`layers, gdb`stats1, gdb`hucs, gdb`minStats
    ensures gdb.hucs == Aggregate(segs, HucIds(old(gdb.hucs)))
    ensures var n := FirstIn(features, failing);
            && (r.ThresholdFailed? <==> n < |features|)
            && (r.ThresholdFailed? ==> r.species == features[n])
    ensures r.Generated? ==> r.pdict == CurvePdict(gdb.hucs, ranges, features)
  {
    r := ProbabilitiesDict(gdb, segs, features, ranges, failing, render);
  }

  /**
    The script: the copy of the network into `FlowlineProbabilities`, the
    codeblock, and the main loop over the same species list. It stops at
    the first raising statistics tool or, after the codeblock, at the first
    field calculation that raises KeyError.
  */
  method Run(gdb: Geodatabase, segs: seq<Segment>, features: seq<string>, ranges: map<string, SpeciesRange>,
             failing: set<string>, render: ProbabilityTable -> string) returns (outcome: RunOutcome)
    modifies gdb`layers, gdb`stats1, gdb`hucs, gdb`minStats, gdb`classes, gdb`output
    ensures gdb.hucs == Aggregate(segs, HucIds(old(gdb.hucs)))
    ensures var n := FirstIn(features, failing);
            && (outcome.StatisticsRaised? <==> n < |features|)
            && (outcome.StatisticsRaised? ==> outcome.species == features[n] && gdb.output == CopyRows(NetworkRows(segs)))
    ensures !outcome.StatisticsRaised? ==>
              var pdict := CurvePdict(gdb.hucs, ranges, features);
              var m := FirstIn(features, Failing(NetworkRows(segs), ranges, pdict, features));
              && (outcome.Completed? <==> m == |features|)
              && (outcome.CalculationRaised? ==> outcome.species == features[m])
              && gdb.output == Accumulated(CopyRows(NetworkRows(segs)), NetworkRows(segs), ranges, pdict, features[..m])
              && (outcome.Completed? ==> gdb.classes == old(gdb.classes) - TempNames(features))
  {
    var flowlines := NetworkRows(segs);
    gdb.CopyFeatures(flowlines);
    var r := ProbabilitiesPdict(gdb, segs, features, ranges, failing, render);
    if r.ThresholdFailed? {
      outcome := StatisticsRaised(r.species);
      return;
    }
    var failed := AccumulateSpecies(gdb, flowlines, features, ranges, r.pdict);
    outcome := if failed.None? then Completed else CalculationRaised(failed.value);
  }
}
