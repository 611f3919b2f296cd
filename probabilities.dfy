/**
  Probabilities.py: the statistics half of the pipeline on its own. It
  attaches the per-HUC12 maximum stream order to `HUC12FullState` and then,
  for every feature class that is not one of the pipeline's own four
  classes, writes the species' threshold into `Stats_<species>`. A raising
  statistics tool ends the script after its `finally` block has deleted the
  species layer; the two shared layers are deleted only at the end of a
  complete run.
*/
module ProbabilitiesScript {
  import opened Wrappers
  import opened Flowlines
  import Codegen
  import opened Workspace
  import opened Pipeline

  /** The classes of the workspace that are not species ranges. */
  const ExcludedNames: set<string> := {"HUC12FullState", "NHDFlowline_Network", "FlowlineProbabilities", "FlowlineSpatialJoin"}

  /** The loop's guard: the class is none of the four excluded names. */
  predicate IsSpeciesClass(name: string) {
    name != "HUC12FullState" && name != "NHDFlowline_Network" && name != "FlowlineProbabilities" &&
    name != "FlowlineSpatialJoin"
  }

  /** The guard passes exactly the names outside the excluded set. */
  lemma IsSpeciesClassExcludes(name: string)
    ensures IsSpeciesClass(name) <==> name !in ExcludedNames
  {
  }

  /** The feature classes the loop processes, in listing order. */
  function SpeciesClasses(fs: seq<string>): seq<string> {
    if fs == [] then []
    else SpeciesClasses(fs[..|fs| - 1]) + (if IsSpeciesClass(fs[|fs| - 1]) then [fs[|fs| - 1]] else [])
  }

  /** The processed classes are exactly the listed classes that pass the guard. */
  lemma {:induction false} SpeciesClassesFilter(fs: seq<string>)
    ensures forall s :: s in SpeciesClasses(fs) <==> s in fs && IsSpeciesClass(s)
    ensures |SpeciesClasses(fs)| <= |fs|
  {
    if fs != [] {
      var pre := fs[..|fs| - 1];
      SpeciesClassesFilter(pre);
      forall s ensures s in SpeciesClasses(fs) <==> s in fs && IsSpeciesClass(s) {
        if s in fs && s != fs[|fs| - 1] {
          var k :| 0 <= k < |fs| && fs[k] == s;
          assert pre[k] == s;
        }
        if s in pre {
          var k :| 0 <= k < |pre| && pre[k] == s;
          assert fs[k] == s;
        }
      }
    }
  }

  /** One more listed class extends the processed classes when it passes the guard. */
  lemma SpeciesClassesStep(fs: seq<string>, i: int)
    requires 0 <= i < |fs|
    ensures SpeciesClasses(fs[..i + 1]) == SpeciesClasses(fs[..i]) + (if IsSpeciesClass(fs[i]) then [fs[i]] else [])
  {
    assert fs[..i + 1][..i] == fs[..i];
  }

  /** The statistics tables and layer names of a processed class extend those of the classes before it. */
  lemma SummaryStep(m: map<string, seq<Option<int>>>, hucs: seq<Watershed>, ranges: map<string, SpeciesRange>,
                    pre: seq<string>, s: string)
    ensures StatsTables(m, hucs, ranges, pre + [s]) ==
              StatsTables(m, hucs, ranges, pre)[Codegen.StatsTableName(s) := [RangeThreshold(hucs, ranges, s)]]
    ensures LayerNames(pre + [s]) == LayerNames(pre) + {Codegen.LayerName(s)}
  {
    assert (pre + [s])[..|pre|] == pre;
  }

  /** One turn of the loop, stated on the classes processed so far (`done`) and their tables and layers. */
  method SummaryTurn(gdb: Geodatabase, features: seq<string>, ranges: map<string, SpeciesRange>, failing: set<string>,
                     i: nat, ghost done: seq<string>, ghost hucs: seq<Watershed>,
                     ghost stats0: map<string, seq<Option<int>>>, ghost layers0: set<string>, ghost bad: set<string>)
    returns (ok: bool, ghost done': seq<string>)
    modifies gdb`layers, gdb`minStats
    requires i < |features| && gdb.hucs == hucs && bad == failing - ExcludedNames
    requires done == SpeciesClasses(features[..i])
    requires gdb.minStats == StatsTables(stats0, hucs, ranges, done)
    requires gdb.layers == layers0 - LayerNames(done)
    ensures ok <==> features[i] !in bad
    ensures done' == SpeciesClasses(features[..i + 1])
    ensures gdb.layers == layers0 - LayerNames(done')
    ensures ok ==> gdb.minStats == StatsTables(stats0, hucs, ranges, done')
    ensures !ok ==> gdb.minStats == StatsTables(stats0, hucs, ranges, done)
  {
    SpeciesClassesStep(features, i);
    IsSpeciesClassExcludes(features[i]);
    var s := features[i];
    if IsSpeciesClass(s) {
      done' := done + [s];
      SummaryStep(stats0, hucs, ranges, done, s);
      ok := SelectAndSummarize(gdb, s, RangeOf(ranges, s), s in failing);
    } else {
      done' := done;
      ok := true;
    }
  }

  /**
    The loop over the listed classes, up to the first processed class whose
    statistics tools raise, which it returns.
  */
  method SummarizeSpecies(gdb: Geodatabase, features: seq<string>, ranges: map<string, SpeciesRange>,
                          failing: set<string>) returns (raised: Option<string>)
    modifies gdb`layers, gdb`minStats
    ensures var n := FirstIn(features, failing - ExcludedNames);
            && (raised.None? <==> n == |features|)
            && (raised.Some? ==> && raised.value == features[n]
                                 && gdb.layers == old(gdb.layers) - LayerNames(SpeciesClasses(features[..n + 1])))
            && gdb.minStats == StatsTables(old(gdb.minStats), gdb.hucs, ranges, SpeciesClasses(features[..n]))
    ensures raised.None? ==> gdb.layers == old(gdb.layers) - LayerNames(SpeciesClasses(features))
  {
    ghost var hucs := gdb.hucs;
    ghost var stats0 := gdb.minStats;
    ghost var layers0 := gdb.layers;
    ghost var bad := failing - ExcludedNames;
    ghost var done: seq<string> := [];
    var i := 0;
    while i < |features|
      invariant 0 <= i <= |features|
      invariant gdb.hucs == hucs
      invariant i <= FirstIn(features, bad)
      invariant done == SpeciesClasses(features[..i])
      invariant gdb.minStats == StatsTables(stats0, hucs, ranges, done)
      invariant gdb.layers == layers0 - LayerNames(done)
    {
      var ok;
      ghost var done';
      ok, done' := SummaryTurn(gdb, features, ranges, failing, i, done, hucs, stats0, layers0, bad);
      if !ok {
        assert FirstIn(features, bad) == i;
        raised := Some(features[i]);
        return;
      }
      FirstInNext(features, bad, i);
      done := done';
      i := i + 1;
    }
    assert FirstIn(features, bad) == i;
    assert features[..i] == features;
    raised := None;
  }

  /**
    The script: the two layers, the flowline filter, MAX by HUC12 joined
    onto `HUC12FullState`, the species loop, and, once the loop is through,
    the deletion of the two layers. `segs` is `FlowlineSpatialJoin`, the
    network spatially joined to the HUC12s.
  */
  method Run(gdb: Geodatabase, segs: seq<Segment>, features: seq<string>, ranges: map<string, SpeciesRange>,
             failing: set<string>) returns (raised: Option<string>)
    modifies gdb`layers, gdb`stats1, gdb`hucs, gdb`minStats
    ensures gdb.stats1 == MaxByHuc(segs)
    ensures gdb.hucs == Aggregate(segs, HucIds(old(gdb.hucs)))
    ensures var n := FirstIn(features, failing - ExcludedNames);
            && (raised.None? <==> n == |features|)
            && (raised.Some? ==> && raised.value == features[n]
                                 && gdb.layers == old(gdb.layers) + {HucLayer, FlowlineLayer} -
                                                  LayerNames(SpeciesClasses(features[..n + 1])))
            && gdb.minStats == StatsTables(old(gdb.minStats), gdb.hucs, ranges, SpeciesClasses(features[..n]))
    ensures raised.None? ==> gdb.layers == old(gdb.layers) - LayerNames(SpeciesClasses(features)) - {HucLayer, FlowlineLayer}
  {
    PrepareHucs(gdb, segs);
    raised := SummarizeSpecies(gdb, features, ranges, failing);
    if raised.Some? {
      return;
    }
    gdb.DeleteLayer(HucLayer);
    gdb.DeleteLayer(FlowlineLayer);
  }

  /**
    After a complete run every processed class has its own table holding
    its threshold, and the tables named after the four excluded classes are
    left as they were.
  */
  lemma SummaryTables(m: map<string, seq<Option<int>>>, hucs: seq<Watershed>, ranges: map<string, SpeciesRange>,
                      features: seq<string>)
    ensures var out := StatsTables(m, hucs, ranges, SpeciesClasses(features));
            forall s :: s in features && IsSpeciesClass(s) ==>
              Codegen.StatsTableName(s) in out && out[Codegen.StatsTableName(s)] == [RangeThreshold(hucs, ranges, s)]
    ensures var out := StatsTables(m, hucs, ranges, SpeciesClasses(features));
            forall x :: x in ExcludedNames ==>
              (Codegen.StatsTableName(x) in out <==> Codegen.StatsTableName(x) in m) &&
              (Codegen.StatsTableName(x) in m ==> out[Codegen.StatsTableName(x)] == m[Codegen.StatsTableName(x)])
  {
    var js := SpeciesClasses(features);
    SpeciesClassesFilter(features);
    StatsTablesHold(m, hucs, ranges, js);
    forall x | x in ExcludedNames
      ensures Codegen.StatsTableName(x) !in StatsNames(js)
    {
      if Codegen.StatsTableName(x) in StatsNames(js) {
        var s :| s in js && Codegen.StatsTableName(s) == Codegen.StatsTableName(x);
        Codegen.NamesInjective(s, x);
      }
    }
    forall x | x in ExcludedNames
      ensures var t := Codegen.StatsTableName(x);
              var out := StatsTables(m, hucs, ranges, js);
              (t in out <==> t in m) && (t in m ==> out[t] == m[t])
    {
      StatsTablesKeepOthers(m, hucs, ranges, js, Codegen.StatsTableName(x));
    }
  }
}
