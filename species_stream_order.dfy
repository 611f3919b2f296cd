/**
  species_stream_order.py: the same pipeline as spatialjoin.py split into
  functions. `get_max_stream_order_by_huc` attaches the per-HUC12 maximum
  inside a try/finally that always deletes its two layers,
  `build_codeblock` builds the codeblock with a header that has no leading
  newline, and the main block joins only the polygon feature classes.

  The main block as written cannot run (see the README); `MainBlock` follows
  the wiring spatialjoin.py uses.
*/
module SpeciesStreamOrderScript {
  import opened Flowlines
  import opened Policy
  import Codegen
  import opened Workspace
  import opened Pipeline

  /**
    `get_max_stream_order_by_huc`: the two layers, then in a try block the
    flowline filter, MAX by HUC12 and its join onto the HUC12 table; the
    finally block deletes both layers whether or not the tools raise.
  */
  method GetMaxStreamOrderByHuc(gdb: Geodatabase, segs: seq<Segment>, fails: bool) returns (ok: bool)
    modifies gdb`layers, gdb`stats1, gdb`hucs
    ensures ok == !fails
    ensures gdb.layers == old(gdb.layers) - {HucLayer, FlowlineLayer}
    ensures ok ==> gdb.stats1 == MaxByHuc(segs) && gdb.hucs == Aggregate(segs, HucIds(old(gdb.hucs)))
    ensures !ok ==> gdb.stats1 == old(gdb.stats1) && gdb.hucs == old(gdb.hucs)
  {
    gdb.MakeFeatureLayer(HucLayer);
    gdb.MakeFeatureLayer(FlowlineLayer);
    if !fails {
      AttachMaxStreamOrder(gdb, segs);
    }
    gdb.DeleteLayer(HucLayer);
    gdb.DeleteLayer(FlowlineLayer);
    ok := !fails;
  }

  /** A feature class of the species workspace, and whether its geometry is polygon. */
  datatype FeatureClass = FeatureClass(name: string, polygon: bool)

  /** `arcpy.ListFeatureClasses()`: every class, in listing order. */
  function ClassNames(listing: seq<FeatureClass>): (names: seq<string>)
    ensures |names| == |listing| && forall k :: 0 <= k < |listing| ==> names[k] == listing[k].name
  {
    seq(|listing|, k requires 0 <= k < |listing| => listing[k].name)
  }

  /** `arcpy.ListFeatureClasses(feature_type="Polygon")`: the polygon classes, in listing order. */
  function PolygonClasses(listing: seq<FeatureClass>): seq<string> {
    if listing == [] then []
    else PolygonClasses(listing[..|listing| - 1]) +
         (if listing[|listing| - 1].polygon then [listing[|listing| - 1].name] else [])
  }

  /** The polygon listing keeps exactly the polygon classes, and each of them is a listed class. */
  lemma {:induction false} PolygonClassesFilter(listing: seq<FeatureClass>)
    ensures forall s :: s in PolygonClasses(listing) <==> exists k :: 0 <= k < |listing| && listing[k].name == s && listing[k].polygon
    ensures forall s :: s in PolygonClasses(listing) ==> s in ClassNames(listing)
    ensures |PolygonClasses(listing)| <= |listing|
  {
    if listing != [] {
      var pre := listing[..|listing| - 1];
      var last := listing[|listing| - 1];
      PolygonClassesFilter(pre);
      forall s ensures s in PolygonClasses(listing) <==>
                       exists k :: 0 <= k < |listing| && listing[k].name == s && listing[k].polygon
      {
        if s in PolygonClasses(listing) && s !in PolygonClasses(pre) {
          assert listing[|listing| - 1].name == s && listing[|listing| - 1].polygon;
        }
        if exists k :: 0 <= k < |listing| && listing[k].name == s && listing[k].polygon {
          var k :| 0 <= k < |listing| && listing[k].name == s && listing[k].polygon;
          if k < |listing| - 1 {
            assert pre[k] == listing[k];
          }
        }
      }
      forall s | s in PolygonClasses(listing) ensures s in ClassNames(listing) {
        var k :| 0 <= k < |listing| && listing[k].name == s && listing[k].polygon;
        assert ClassNames(listing)[k] == s;
      }
    }
  }

  /** `get_species_feature_classes(workspace)`. */
  method GetSpeciesFeatureClasses(listing: seq<FeatureClass>) returns (features: seq<string>)
    ensures features == PolygonClasses(listing)
  {
    features := [];
    for k := 0 to |listing|
      invariant features == PolygonClasses(listing[..k])
    {
      assert listing[..k + 1][..k] == listing[..k];
      if listing[k].polygon {
        features := features + [listing[k].name];
      }
    }
    assert listing[..|listing|] == listing;
  }

  /**
    `build_codeblock` as the main block sees it: where it stops, and the
    dictionary of dictionaries its codeblock defines.
  */
  method BuildPdict(gdb: Geodatabase, features: seq<string>, ranges: map<string, SpeciesRange>,
                    failing: set<string>, render: ProbabilityTable -> string) returns (r: Codeblock)
    modifies gdb`layers, gdb`minStats
    ensures var n := FirstIn(features, failing);
            && (r.ThresholdFailed? <==> n < |features|)
            && (r.ThresholdFailed? ==> r.species == features[n])
    ensures r.Generated? ==> r.pdict == CurvePdict(gdb.hucs, ranges, features)
  {
    r := BuildCodeblock(gdb, Codegen.HeaderSpeciesStreamOrder, features, ranges, failing, render);
  }

  /**
    The main loop of the main block: the polygon classes, joined one by one
    until the first field calculation that raises KeyError.
  */
  method JoinPolygonClasses(gdb: Geodatabase, flowlines: seq<Flowline>, listing: seq<FeatureClass>,
                            ranges: map<string, SpeciesRange>, pdict: Pdict) returns (outcome: RunOutcome)
    modifies gdb`classes, gdb`output
    ensures var js := PolygonClasses(listing);
            var m := FirstIn(js, Failing(flowlines, ranges, pdict, js));
            && (outcome.Completed? <==> m == |js|)
            && (!outcome.Completed? ==> outcome == CalculationRaised(js[m]))
            && gdb.output == Accumulated(old(gdb.output), flowlines, ranges, pdict, js[..m])
            && (outcome.Completed? ==> gdb.classes == old(gdb.classes) - TempNames(js))
  {
    var features := GetSpeciesFeatureClasses(listing);
    var failed := AccumulateSpecies(gdb, flowlines, features, ranges, pdict);
    outcome := if failed.None? then Completed else CalculationRaised(failed.value);
  }

  /**
    The main block: the copy of the network, the maximum stream order, the
    codeblock over every listed class, then the main loop over the polygon
    classes. It stops at the first raising tool or KeyError.
  */
  method MainBlock(gdb: Geodatabase, segs: seq<Segment>, listing: seq<FeatureClass>, ranges: map<string, SpeciesRange>,
              maxFails: bool, failing: set<string>, render: ProbabilityTable -> string) returns (outcome: RunOutcome)
    modifies gdb`layers, gdb`stats1, gdb`hucs, gdb`minStats, gdb`classes, gdb`output
    ensures maxFails ==> outcome == MaximumRaised && gdb.output == CopyRows(NetworkRows(segs))
    ensures !maxFails ==>
              var n := FirstIn(ClassNames(listing), failing);
              && gdb.hucs == Aggregate(segs, HucIds(old(gdb.hucs)))
              && (outcome.StatisticsRaised? <==> n < |listing|)
              && (outcome.StatisticsRaised? ==> outcome.species == listing[n].name && gdb.output == CopyRows(NetworkRows(segs)))
    ensures !maxFails && !outcome.StatisticsRaised? ==>
              var js := PolygonClasses(listing);
              var pdict := CurvePdict(gdb.hucs, ranges, ClassNames(listing));
              var m := FirstIn(js, Failing(NetworkRows(segs), ranges, pdict, js));
              && (outcome.Completed? <==> m == |js|)
              && (outcome.CalculationRaised? ==> outcome.species == js[m])
              && gdb.output == Accumulated(CopyRows(NetworkRows(segs)), NetworkRows(segs), ranges, pdict, js[..m])
              && (outcome.Completed? ==> gdb.classes == old(gdb.classes) - TempNames(js))
  {
    var flowlines := NetworkRows(segs);
    gdb.CopyFeatures(flowlines);
    var ok := GetMaxStreamOrderByHuc(gdb, segs, maxFails);
    if !ok {
      outcome := MaximumRaised;
      return;
    }
    var r := BuildPdict(gdb, ClassNames(listing), ranges, failing, render);
    if r.ThresholdFailed? {
      outcome := StatisticsRaised(r.species);
      return;
    }
    outcome := JoinPolygonClasses(gdb, flowlines, listing, ranges, r.pdict);
  }
}
