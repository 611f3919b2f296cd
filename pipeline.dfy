/**
  The steps the scripts share: attaching the per-HUC12 maximum stream order,
  the per-species threshold statistics (inside a try/finally that always
  deletes the species layer), reading `min_stream` back with a search
  cursor, the species loop that turns each threshold into a probability
  dictionary and a codeblock line, the `pdict` loop, and the per-species
  spatial join, field calculation and join into `FlowlineProbabilities`.
*/
module Pipeline {
  import opened Wrappers
  import opened Flowlines
  import Curve
  import opened Policy
  import Codegen
  import opened Workspace

  /** The index of the first species in the set, or |xs| when there is none. */
  function FirstIn(xs: seq<string>, p: set<string>): (n: nat)
    ensures n <= |xs|
    ensures n < |xs| ==> xs[n] in p
    ensures forall j :: 0 <= j < n ==> xs[j] !in p
  {
    if xs == [] then 0
    else if xs[0] in p then 0
    else 1 + FirstIn(xs[1..], p)
  }

  /** A loop that passes an index outside the set stays at or before the first index in it. */
  lemma FirstInNext(xs: seq<string>, p: set<string>, i: int)
    requires 0 <= i <= FirstIn(xs, p) && i < |xs| && xs[i] !in p
    ensures i + 1 <= FirstIn(xs, p)
  {
  }

  /** The flowline network as copied and joined to the species ranges. */
  function NetworkRows(segs: seq<Segment>): seq<Flowline> {
    seq(|segs|, k requires 0 <= k < |segs| => Flowline(segs[k].comid, segs[k].order))
  }

  /**
    The attribute selection `"StreamOrde" IS NOT NULL AND "StreamOrde" > 0`,
    the MAX statistics by `HUC_12` and the join of `MAX_StreamOrde` onto the
    HUC12 table. `segs` is the flowline network joined to the HUC12s it lies in.
  */
  method AttachMaxStreamOrder(gdb: Geodatabase, segs: seq<Segment>)
    modifies gdb`stats1, gdb`hucs
    ensures gdb.stats1 == MaxByHuc(segs)
    ensures gdb.hucs == Aggregate(segs, HucIds(old(gdb.hucs)))
  {
    gdb.StatisticsMaxByHuc(segs);
    gdb.JoinMaxStreamOrder();
  }

  /**
    The HUC12 and flowline layers, then the per-HUC12 maximum stream order
    attached to the HUC12 table, as spatialjoin.py and Probabilities.py run
    them before their species loops.
  */
  method PrepareHucs(gdb: Geodatabase, segs: seq<Segment>)
    modifies gdb`layers, gdb`stats1, gdb`hucs
    ensures gdb.layers == old(gdb.layers) + {HucLayer, FlowlineLayer}
    ensures gdb.stats1 == MaxByHuc(segs)
    ensures gdb.hucs == Aggregate(segs, HucIds(old(gdb.hucs)))
  {
    gdb.MakeFeatureLayer(HucLayer);
    gdb.MakeFeatureLayer(FlowlineLayer);
    AttachMaxStreamOrder(gdb, segs);
  }

  /** The threshold of one species: the minimum `MAX_StreamOrde` over the HUC12s in its range. */
  function RangeThreshold(hucs: seq<Watershed>, ranges: map<string, SpeciesRange>, species: string): Option<int> {
    Threshold(hucs, RangeOf(ranges, species).hucCentres)
  }

  /**
    The species layer, the selection of HUC12s by location and the MIN
    statistics into `Stats_<species>`, in a try/finally: whether or not
    the tools raise (`fails`), the species layer is deleted.
  */
  method SelectAndSummarize(gdb: Geodatabase, species: string, r: SpeciesRange, fails: bool) returns (ok: bool)
    modifies gdb`layers, gdb`minStats
    ensures ok == !fails
    ensures gdb.layers == old(gdb.layers) - {Codegen.LayerName(species)}
    ensures ok ==> gdb.minStats == old(gdb.minStats)[Codegen.StatsTableName(species) := [Threshold(gdb.hucs, r.hucCentres)]]
    ensures !ok ==> gdb.minStats == old(gdb.minStats)
  {
    var fishLayer := Codegen.LayerName(species);
    gdb.MakeFeatureLayer(fishLayer);
    if !fails {
      gdb.StatisticsMinForSpecies(species, r.hucCentres);
    }
    gdb.DeleteLayer(fishLayer);
    ok := !fails;
  }

  /** `min_stream` is a name that may not be bound yet. */
  datatype Binding = Unbound | Bound(value: Option<int>)

  /**
    `for row in cursor: min_stream = row[0]`: the last row wins, and with no
    row at all the name keeps whatever it was bound to before.
  */
  method ReadLastRow(rows: seq<Option<int>>, prior: Binding) returns (minStream: Binding)
    ensures rows == [] ==> minStream == prior
    ensures rows != [] ==> minStream == Bound(rows[|rows| - 1])
  {
    minStream := prior;
    for k := 0 to |rows|
      invariant k == 0 ==> minStream == prior
      invariant k > 0 ==> minStream == Bound(rows[k - 1])
    {
      minStream := Bound(rows[k]);
    }
  }

  /** The layers of the given species. */
  function LayerNames(fs: seq<string>): set<string> {
    set s | s in fs :: Codegen.LayerName(s)
  }

  /** The statistics tables after summarizing the given species in order. */
  function StatsTables(m: map<string, seq<Option<int>>>, hucs: seq<Watershed>, ranges: map<string, SpeciesRange>,
                       fs: seq<string>): map<string, seq<Option<int>>>
  {
    if fs == [] then m
    else StatsTables(m, hucs, ranges, fs[..|fs| - 1])[Codegen.StatsTableName(fs[|fs| - 1]) :=
           [RangeThreshold(hucs, ranges, fs[|fs| - 1])]]
  }

  /** The statistics tables of the given species. */
  function StatsNames(fs: seq<string>): set<string> {
    set s | s in fs :: Codegen.StatsTableName(s)
  }

  /** Every summarized species has its one-row table holding its threshold. */
  lemma {:induction false} StatsTablesHold(m: map<string, seq<Option<int>>>, hucs: seq<Watershed>,
                                           ranges: map<string, SpeciesRange>, fs: seq<string>)
    ensures forall s :: s in fs ==>
              && Codegen.StatsTableName(s) in StatsTables(m, hucs, ranges, fs)
              && StatsTables(m, hucs, ranges, fs)[Codegen.StatsTableName(s)] == [RangeThreshold(hucs, ranges, s)]
  {
    if fs != [] {
      var pre := fs[..|fs| - 1];
      var last := fs[|fs| - 1];
      StatsTablesHold(m, hucs, ranges, pre);
      forall s | s in fs
        ensures Codegen.StatsTableName(s) in StatsTables(m, hucs, ranges, fs) &&
                StatsTables(m, hucs, ranges, fs)[Codegen.StatsTableName(s)] == [RangeThreshold(hucs, ranges, s)]
      {
        Codegen.NamesInjective(s, last);
        if s != last {
          assert s in pre by {
            var k :| 0 <= k < |fs| && fs[k] == s;
            assert k < |fs| - 1 && pre[k] == s;
          }
        }
      }
    }
  }

  /** No table other than the summarized species' changes. */
  lemma {:induction false} StatsTablesKeepOthers(m: map<string, seq<Option<int>>>, hucs: seq<Watershed>,
                                                 ranges: map<string, SpeciesRange>, fs: seq<string>, t: string)
    requires t !in StatsNames(fs)
    ensures t in StatsTables(m, hucs, ranges, fs) <==> t in m
    ensures t in m ==> StatsTables(m, hucs, ranges, fs)[t] == m[t]
  {
    if fs != [] {
      var pre := fs[..|fs| - 1];
      assert fs == pre + [fs[|fs| - 1]];
      assert StatsNames(fs) == StatsNames(pre) + {Codegen.StatsTableName(fs[|fs| - 1])};
      StatsTablesKeepOthers(m, hucs, ranges, pre, t);
    }
  }

  /** The text of each species' dictionary, as `str()` renders it. */
  function DictTexts(hucs: seq<Watershed>, ranges: map<string, SpeciesRange>, fs: seq<string>,
                     render: ProbabilityTable -> string): seq<string>
  {
    seq(|fs|, k requires 0 <= k < |fs| => render(CurveTable(RangeThreshold(hucs, ranges, fs[k]))))
  }

  /** The codeblock after appending the dictionary lines of the given species, in order, to prefix. */
  function DictBlock(prefix: string, hucs: seq<Watershed>, ranges: map<string, SpeciesRange>, fs: seq<string>,
                     render: ProbabilityTable -> string): string
  {
    if fs == [] then prefix
    else DictBlock(prefix, hucs, ranges, fs[..|fs| - 1], render) +
         Codegen.DictLine(fs[|fs| - 1], render(CurveTable(RangeThreshold(hucs, ranges, fs[|fs| - 1]))))
  }

  /** The lines the loop appends are the codeblock's dictionary lines, one per species, in order. */
  lemma {:induction false} DictBlockLines(prefix: string, hucs: seq<Watershed>, ranges: map<string, SpeciesRange>,
                                          fs: seq<string>, render: ProbabilityTable -> string)
    ensures DictBlock(prefix, hucs, ranges, fs, render) == prefix + Codegen.DictLines(fs, DictTexts(hucs, ranges, fs, render))
  {
    if fs != [] {
      var pre := fs[..|fs| - 1];
      var texts := DictTexts(hucs, ranges, fs, render);
      DictBlockLines(prefix, hucs, ranges, pre, render);
      assert texts[..|fs| - 1] == DictTexts(hucs, ranges, pre, render);
      Codegen.DictLinesSnoc(fs, texts);
      Associative(prefix, Codegen.DictLines(pre, texts[..|fs| - 1]), Codegen.DictLine(fs[|fs| - 1], texts[|fs| - 1]));
    }
  }

  /** Text concatenation regroups freely. */
  lemma Associative(a: string, b: string, c: string)
    ensures (a + b) + c == a + (b + c)
  {
  }

  /** The dictionary of dictionaries the generated codeblock defines when it runs. */
  function CurvePdict(hucs: seq<Watershed>, ranges: map<string, SpeciesRange>, fs: seq<string>): Pdict {
    if fs == [] then map[]
    else CurvePdict(hucs, ranges, fs[..|fs| - 1])[fs[|fs| - 1] := CurveTable(RangeThreshold(hucs, ranges, fs[|fs| - 1]))]
  }

  /** The generated `pdict` has exactly the listed species, each with the curve of its own threshold. */
  lemma {:induction false} CurvePdictEntries(hucs: seq<Watershed>, ranges: map<string, SpeciesRange>, fs: seq<string>)
    ensures forall s :: s in CurvePdict(hucs, ranges, fs) <==> s in fs
    ensures forall s :: s in fs ==> CurvePdict(hucs, ranges, fs)[s] == CurveTable(RangeThreshold(hucs, ranges, s))
  {
    if fs != [] {
      var pre := fs[..|fs| - 1];
      CurvePdictEntries(hucs, ranges, pre);
      assert fs == pre + [fs[|fs| - 1]];
    }
  }

  /** One more species extends each value the species loop accumulates at its end. */
  lemma SpeciesLoopStep(prefix: string, m: map<string, seq<Option<int>>>, hucs: seq<Watershed>, ranges: map<string, SpeciesRange>,
                        fs: seq<string>, i: int, render: ProbabilityTable -> string)
    requires 0 <= i < |fs|
    ensures DictBlock(prefix, hucs, ranges, fs[..i + 1], render) ==
              DictBlock(prefix, hucs, ranges, fs[..i], render) + Codegen.DictLine(fs[i], render(CurveTable(RangeThreshold(hucs, ranges, fs[i]))))
    ensures CurvePdict(hucs, ranges, fs[..i + 1]) ==
              CurvePdict(hucs, ranges, fs[..i])[fs[i] := CurveTable(RangeThreshold(hucs, ranges, fs[i]))]
    ensures StatsTables(m, hucs, ranges, fs[..i + 1]) ==
              StatsTables(m, hucs, ranges, fs[..i])[Codegen.StatsTableName(fs[i]) := [RangeThreshold(hucs, ranges, fs[i])]]
    ensures LayerNames(fs[..i + 1]) == LayerNames(fs[..i]) + {Codegen.LayerName(fs[i])}
  {
    var next := fs[..i + 1];
    assert next[..i] == fs[..i];
    assert next == fs[..i] + [fs[i]];
  }

  /** The countdown for one threshold, as the float table it becomes in `pdict`. */
  method CurveDictionary(minStream: Option<int>) returns (table: ProbabilityTable)
    ensures table == CurveTable(minStream)
  {
    var d := Curve.BuildCurve(minStream);
    table := map j | j in d :: PyFloat(d[j]);
  }

  /**
    One species of the codeblock builder's loop: the threshold statistics,
    the cursor read of `min_stream`, the countdown curve and the
    `<name>_dict=` line. When the statistics tools raise, nothing after them runs.
  */
  method SpeciesEntry(gdb: Geodatabase, species: string, ranges: map<string, SpeciesRange>, fails: bool,
                      prior: Binding, render: ProbabilityTable -> string)
    returns (ok: bool, table: ProbabilityTable, line: string, minStream: Binding)
    modifies gdb`layers, gdb`minStats
    ensures ok == !fails
    ensures gdb.layers == old(gdb.layers) - {Codegen.LayerName(species)}
    ensures ok ==> && gdb.minStats == old(gdb.minStats)[Codegen.StatsTableName(species) := [RangeThreshold(gdb.hucs, ranges, species)]]
                   && minStream == Bound(RangeThreshold(gdb.hucs, ranges, species))
                   && table == CurveTable(RangeThreshold(gdb.hucs, ranges, species))
                   && line == Codegen.DictLine(species, render(table))
    ensures !ok ==> gdb.minStats == old(gdb.minStats) && minStream == prior
  {
    minStream := prior;
    table := map[];
    line := "";
    ok := SelectAndSummarize(gdb, species, RangeOf(ranges, species), fails);
    if !ok {
      return;
    }
    minStream := ReadLastRow(gdb.minStats[Codegen.StatsTableName(species)], minStream);
    table := CurveDictionary(minStream.value);
    var stringDict := render(table);
    line := Codegen.DictLine(species, stringDict);
  }

  /** One turn of the species loop, stated on the values the loop accumulates. */
  method SpeciesStep(gdb: Geodatabase, codeblock0: string, features: seq<string>, ranges: map<string, SpeciesRange>,
                     failing: set<string>, render: ProbabilityTable -> string, i: nat,
                     codeblock: string, pdict: Pdict, minStream: Binding,
                     ghost hucs: seq<Watershed>, ghost stats0: map<string, seq<Option<int>>>, ghost layers0: set<string>)
    returns (ok: bool, codeblock': string, pdict': Pdict, minStream': Binding)
    modifies gdb`layers, gdb`minStats
    requires i < |features| && gdb.hucs == hucs
    requires codeblock == DictBlock(codeblock0, hucs, ranges, features[..i], render)
    requires pdict == CurvePdict(hucs, ranges, features[..i])
    requires gdb.minStats == StatsTables(stats0, hucs, ranges, features[..i])
    requires gdb.layers == layers0 - LayerNames(features[..i])
    ensures ok <==> features[i] !in failing
    ensures gdb.layers == layers0 - LayerNames(features[..i + 1])
    ensures ok ==> && codeblock' == DictBlock(codeblock0, hucs, ranges, features[..i + 1], render)
                   && pdict' == CurvePdict(hucs, ranges, features[..i + 1])
                   && gdb.minStats == StatsTables(stats0, hucs, ranges, features[..i + 1])
    ensures !ok ==> gdb.minStats == StatsTables(stats0, hucs, ranges, features[..i])
  {
    SpeciesLoopStep(codeblock0, stats0, hucs, ranges, features, i, render);
    var table, line;
    ok, table, line, minStream' := SpeciesEntry(gdb, features[i], ranges, features[i] in failing, minStream, render);
    codeblock' := codeblock + line;
    pdict' := pdict[features[i] := table];
  }

  /**
    The species loop of the codeblock builder, one `SpeciesEntry` per
    species, with `min_stream` carried from one species to the next. The
    loop stops at the first species whose statistics tools raise; `n` is
    how many species it completed.
  */
  method SpeciesDictionaries(gdb: Geodatabase, codeblock0: string, features: seq<string>,
                             ranges: map<string, SpeciesRange>, failing: set<string>,
                             render: ProbabilityTable -> string)
    returns (codeblock: string, pdict: Pdict, n: nat)
    modifies gdb`layers, gdb`minStats
    ensures n == FirstIn(features, failing)
    ensures codeblock == DictBlock(codeblock0, gdb.hucs, ranges, features[..n], render)
    ensures pdict == CurvePdict(gdb.hucs, ranges, features[..n])
    ensures gdb.minStats == StatsTables(old(gdb.minStats), gdb.hucs, ranges, features[..n])
    ensures gdb.layers == old(gdb.layers) - LayerNames(features[..if n < |features| then n + 1 else n])
  {
    ghost var hucs := gdb.hucs;
    ghost var stats0 := gdb.minStats;
    ghost var layers0 := gdb.layers;
    codeblock := codeblock0;
    pdict := map[];
    var minStream := Unbound;
    var i := 0;
    while i < |features|
      invariant 0 <= i <= |features|
      invariant gdb.hucs == hucs
      invariant i <= FirstIn(features, failing)
      invariant codeblock == DictBlock(codeblock0, hucs, ranges, features[..i], render)
      invariant pdict == CurvePdict(hucs, ranges, features[..i])
      invariant gdb.minStats == StatsTables(stats0, hucs, ranges, features[..i])
      invariant gdb.layers == layers0 - LayerNames(features[..i])
    {
      var ok, codeblock', pdict';
      ok, codeblock', pdict', minStream :=
        SpeciesStep(gdb, codeblock0, features, ranges, failing, render, i, codeblock, pdict, minStream, hucs, stats0, layers0);
      if !ok {
        assert FirstIn(features, failing) == i;
        n := i;
        return;
      }
      FirstInNext(features, failing, i);
      codeblock, pdict := codeblock', pdict';
      i := i + 1;
    }
    assert FirstIn(features, failing) == i;
    n := i;
    assert features[..n] == features;
  }

  /**
    The `pdict` loop: an iteration counter compared with `len(features)`
    picks one of two branches, which append the same entry.
  */
  method AppendPdictEntries(codeblock0: string, features: seq<string>) returns (codeblock: string)
    ensures codeblock == codeblock0 + Codegen.PdictEntries(features)
  {
    codeblock := codeblock0;
    var iteration := 0;
    for k := 0 to |features|
      invariant iteration == k
      invariant codeblock == codeblock0 + Codegen.PdictEntries(features[..k])
    {
      iteration := iteration + 1;
      if iteration != |features| {
        codeblock := codeblock + Codegen.PdictEntry(features[k]);
      }
      if iteration == |features| {
        codeblock := codeblock + Codegen.PdictEntry(features[k]);
      }
      Codegen.PdictEntriesSnoc(features[..k + 1]);
      assert features[..k + 1][..k] == features[..k];
      Associative(codeblock0, Codegen.PdictEntries(features[..k]), Codegen.PdictEntry(features[k]));
    }
    assert features[..|features|] == features;
  }

  /** The codeblock text the species loop, the `pdict` loop and the fixed tail produce. */
  method FinishCodeblock(lines: string, features: seq<string>) returns (codeblock: string)
    ensures codeblock == lines + Codegen.PdictOpen + Codegen.PdictEntries(features) + Codegen.PdictClose + Codegen.PolicyTail
  {
    codeblock := lines + Codegen.PdictOpen;
    codeblock := AppendPdictEntries(codeblock, features);
    codeblock := codeblock + Codegen.PdictClose;
    codeblock := codeblock + Codegen.PolicyTail;
  }

  /** The layer over the HUC12 table and the layer over the flowline/HUC12 spatial join. */
  const HucLayer: string := "HUC12_layer"
  const FlowlineLayer: string := "Flowline_layer"

  /**
    How a whole script run ends: normally, with the exception of the
    per-HUC12 maximum, with that of a species' statistics tool, or with
    that of a field calculation.
  */
  datatype RunOutcome = Completed | MaximumRaised | StatisticsRaised(species: string) | CalculationRaised(species: string)

  /** The outcome of a codeblock builder. */
  datatype Codeblock = Generated(codeblock: string, pdict: Pdict) | ThresholdFailed(species: string)

  /**
    The codeblock builder's loops and tail over an HUC12 table that already
    holds `MAX_StreamOrde`: the generated text is the codeblock for the
    species' curves, and the `pdict` it defines maps each species to its curve.
  */
  method BuildCodeblock(gdb: Geodatabase, header: string, features: seq<string>,
                        ranges: map<string, SpeciesRange>, failing: set<string>,
                        render: ProbabilityTable -> string) returns (r: Codeblock)
    modifies gdb`layers, gdb`minStats
    ensures var n := FirstIn(features, failing);
            && (r.ThresholdFailed? <==> n < |features|)
            && (r.ThresholdFailed? ==> r.species == features[n])
            && gdb.minStats == StatsTables(old(gdb.minStats), gdb.hucs, ranges, features[..n])
            && gdb.layers == old(gdb.layers) - LayerNames(features[..if n < |features| then n + 1 else n])
    ensures r.Generated? ==>
              && r.codeblock == Codegen.CodeblockText(header, features, DictTexts(gdb.hucs, ranges, features, render))
              && r.pdict == CurvePdict(gdb.hucs, ranges, features)
  {
    var lines, pdict, n := SpeciesDictionaries(gdb, header, features, ranges, failing, render);
    if n < |features| {
      r := ThresholdFailed(features[n]);
      return;
    }
    assert features[..n] == features;
    DictBlockLines(header, gdb.hucs, ranges, features, render);
    var codeblock := FinishCodeblock(lines, features);
    r := Generated(codeblock, pdict);
  }

  /** Whether the field calculation of one species runs to completion: no flowline raises KeyError. */
  predicate CalculationSucceeds(flowlines: seq<Flowline>, ranges: map<string, SpeciesRange>, pdict: Pdict, species: string) {
    var rows := SpatialJoinRows(flowlines, RangeOf(ranges, species));
    forall k :: 0 <= k < |rows| ==> !EvaluateRow(pdict, species, rows[k]).KeyError?
  }

  /** The text `getProbability` returns for each joined row (null where it raises). */
  function ProbabilityCells(pdict: Pdict, species: string, rows: seq<JoinedRow>): seq<Cell> {
    seq(|rows|, k requires 0 <= k < |rows| =>
      match EvaluateRow(pdict, species, rows[k])
      case Returned(t) => Some(t)
      case KeyError => None)
  }

  /**
    The spatial-join output of one species after AddField and CalculateField:
    the filled column, or the null column when the calculation raised.
  */
  function SpeciesClass(flowlines: seq<Flowline>, ranges: map<string, SpeciesRange>, pdict: Pdict, species: string): JoinClass {
    var rows := SpatialJoinRows(flowlines, RangeOf(ranges, species));
    if CalculationSucceeds(flowlines, ranges, pdict, species)
    then JoinClass(rows, map[species := ProbabilityCells(pdict, species, rows)])
    else JoinClass(rows, map[species := NullColumn(|rows|)])
  }

  /** `FlowlineProbabilities` after joining the columns of the given species in order. */
  function Accumulated(start: seq<OutRow>, flowlines: seq<Flowline>, ranges: map<string, SpeciesRange>,
                       pdict: Pdict, fs: seq<string>): seq<OutRow>
  {
    if fs == [] then start
    else JoinColumn(Accumulated(start, flowlines, ranges, pdict, fs[..|fs| - 1]),
                    SpeciesClass(flowlines, ranges, pdict, fs[|fs| - 1]), fs[|fs| - 1])
  }

  /** The temporary join outputs of the given species. */
  function TempNames(fs: seq<string>): set<string> {
    set s | s in fs :: Codegen.TempClassName(s)
  }

  /**
    The spatial join of one species' range into `outName`, AddField of the
    species' text field, its expression and CalculateField with the
    dictionaries `pdict`. Both scripts run these steps for every species;
    a KeyError leaves the null column in place.
  */
  method JoinAndCalculate(gdb: Geodatabase, outName: string, flowlines: seq<Flowline>,
                          ranges: map<string, SpeciesRange>, pdict: Pdict, species: string) returns (ok: bool)
    modifies gdb`classes
    ensures ok <==> CalculationSucceeds(flowlines, ranges, pdict, species)
    ensures gdb.classes == old(gdb.classes)[outName := SpeciesClass(flowlines, ranges, pdict, species)]
  {
    ghost var rows := SpatialJoinRows(flowlines, RangeOf(ranges, species));
    gdb.SpatialJoin(outName, flowlines, RangeOf(ranges, species));
    UpdateThenRemove(old(gdb.classes), outName, gdb.classes[outName]);
    ghost var joined := gdb.classes;
    gdb.AddTextField(outName, species);
    UpdateThenRemove(joined, outName, gdb.classes[outName]);
    var expression := Codegen.Expression(species);
    FieldCalculationOfExpression(rows, species, pdict);
    assert FieldCalculation(rows, expression, pdict).Some? ==>
             FieldCalculation(rows, expression, pdict).value == ProbabilityCells(pdict, species, rows);
    ghost var added := gdb.classes;
    ok := gdb.CalculateField(outName, species, expression, pdict);
    if ok {
      UpdateThenRemove(added, outName, gdb.classes[outName]);
      assert gdb.classes[outName].fields == map[species := ProbabilityCells(pdict, species, rows)];
    }
  }

  /**
    The body of the main loop for one species: the spatial join into its
    temporary class and the calculation, the join of the new column into
    `FlowlineProbabilities` by COMID, and the delete. A KeyError in the
    calculation ends the run with the temporary class left behind.
  */
  method FillSpecies(gdb: Geodatabase, flowlines: seq<Flowline>, ranges: map<string, SpeciesRange>, pdict: Pdict,
                     species: string) returns (ok: bool)
    modifies gdb`classes, gdb`output
    ensures ok <==> CalculationSucceeds(flowlines, ranges, pdict, species)
    ensures ok ==> && gdb.output == JoinColumn(old(gdb.output), SpeciesClass(flowlines, ranges, pdict, species), species)
                   && gdb.classes == old(gdb.classes) - {Codegen.TempClassName(species)}
    ensures !ok ==> && gdb.output == old(gdb.output)
                    && gdb.classes == old(gdb.classes)[Codegen.TempClassName(species) := SpeciesClass(flowlines, ranges, pdict, species)]
  {
    var outName := Codegen.TempClassName(species);
    ok := JoinAndCalculate(gdb, outName, flowlines, ranges, pdict, species);
    if !ok {
      return;
    }
    gdb.JoinField(outName, species);
    gdb.DeleteClass(outName);
    UpdateThenRemove(old(gdb.classes), outName, SpeciesClass(flowlines, ranges, pdict, species));
  }

  /** Removing a key after updating it leaves the map without that key. */
  lemma UpdateThenRemove<K, V>(m: map<K, V>, k: K, v: V)
    ensures m[k := v] - {k} == m - {k}
  {
  }

  /** One more species extends the accumulated table and the deleted temporary classes at the end. */
  lemma AccumulateStep(start: seq<OutRow>, flowlines: seq<Flowline>, ranges: map<string, SpeciesRange>,
                       pdict: Pdict, fs: seq<string>, i: int, classes: map<string, JoinClass>)
    requires 0 <= i < |fs|
    ensures Accumulated(start, flowlines, ranges, pdict, fs[..i + 1]) ==
              JoinColumn(Accumulated(start, flowlines, ranges, pdict, fs[..i]), SpeciesClass(flowlines, ranges, pdict, fs[i]), fs[i])
    ensures classes - TempNames(fs[..i]) - {Codegen.TempClassName(fs[i])} == classes - TempNames(fs[..i + 1])
  {
    var next := fs[..i + 1];
    assert next[..i] == fs[..i];
    assert next == fs[..i] + [fs[i]];
    assert TempNames(next) == TempNames(fs[..i]) + {Codegen.TempClassName(fs[i])};
  }

  /** The listed species whose field calculation raises. */
  function Failing(flowlines: seq<Flowline>, ranges: map<string, SpeciesRange>, pdict: Pdict, fs: seq<string>): set<string> {
    set s | s in fs && !CalculationSucceeds(flowlines, ranges, pdict, s)
  }

  /** One turn of the main loop, stated on the accumulated table and the surviving temporary classes. */
  method AccumulateOne(gdb: Geodatabase, flowlines: seq<Flowline>, features: seq<string>,
                       ranges: map<string, SpeciesRange>, pdict: Pdict, i: nat,
                       ghost start: seq<OutRow>, ghost classes0: map<string, JoinClass>, ghost bad: set<string>)
    returns (ok: bool)
    modifies gdb`classes, gdb`output
    requires i < |features| && bad == Failing(flowlines, ranges, pdict, features)
    requires gdb.output == Accumulated(start, flowlines, ranges, pdict, features[..i])
    requires gdb.classes == classes0 - TempNames(features[..i])
    ensures ok <==> features[i] !in bad
    ensures ok ==> && gdb.output == Accumulated(start, flowlines, ranges, pdict, features[..i + 1])
                   && gdb.classes == classes0 - TempNames(features[..i + 1])
    ensures !ok ==> && gdb.output == Accumulated(start, flowlines, ranges, pdict, features[..i])
                    && gdb.classes == (classes0 - TempNames(features[..i]))[
                                        Codegen.TempClassName(features[i]) := SpeciesClass(flowlines, ranges, pdict, features[i])]
  {
    AccumulateStep(start, flowlines, ranges, pdict, features, i, classes0);
    ok := FillSpecies(gdb, flowlines, ranges, pdict, features[i]);
  }

  /**
    The main loop over the species, up to the first calculation that
    raises: `FlowlineProbabilities` holds the joined columns of the species
    before it, and `failed` names it.
  */
  method AccumulateSpecies(gdb: Geodatabase, flowlines: seq<Flowline>, features: seq<string>,
                           ranges: map<string, SpeciesRange>, pdict: Pdict) returns (failed: Option<string>)
    modifies gdb`classes, gdb`output
    ensures var n := FirstIn(features, Failing(flowlines, ranges, pdict, features));
            && (failed.None? <==> n == |features|)
            && (failed.Some? ==> failed.value == features[n])
            && gdb.output == Accumulated(old(gdb.output), flowlines, ranges, pdict, features[..n])
            && (failed.None? ==> gdb.classes == old(gdb.classes) - TempNames(features))
            && (failed.Some? ==> gdb.classes == (old(gdb.classes) - TempNames(features[..n]))[
                                   Codegen.TempClassName(features[n]) := SpeciesClass(flowlines, ranges, pdict, features[n])])
  {
    ghost var start := gdb.output;
    ghost var classes0 := gdb.classes;
    ghost var bad := Failing(flowlines, ranges, pdict, features);
    var i := 0;
    while i < |features|
      invariant 0 <= i <= |features|
      invariant i <= FirstIn(features, bad)
      invariant gdb.output == Accumulated(start, flowlines, ranges, pdict, features[..i])
      invariant gdb.classes == classes0 - TempNames(features[..i])
    {
      var ok := AccumulateOne(gdb, flowlines, features, ranges, pdict, i, start, classes0, bad);
      if !ok {
        assert FirstIn(features, bad) == i;
        failed := Some(features[i]);
        return;
      }
      FirstInNext(features, bad, i);
      i := i + 1;
    }
    assert FirstIn(features, bad) == i;
    failed := None;
    assert features[..i] == features;
  }

  /** COMIDs identify the flowlines of the network. */
  ghost predicate UniqueFlowlines(flowlines: seq<Flowline>) {
    forall i, j :: 0 <= i < j < |flowlines| ==> flowlines[i].comid != flowlines[j].comid
  }

  /** The row carries, for the species, `getProbability` of its flowline: the flowline's
      stream order and the join count of the species' range at its COMID. */
  ghost predicate HasProbability(row: OutRow, f: Flowline, ranges: map<string, SpeciesRange>, pdict: Pdict, s: string) {
    var e := GetProbability(pdict, s, f.order, JoinCountOf(RangeOf(ranges, s), f.comid));
    e.Returned? && s in row.columns && row.columns[s] == Some(e.text)
  }

  /** The row is its own flowline with exactly one column per species, each holding its probability. */
  ghost predicate ProbabilityRow(row: OutRow, f: Flowline, ranges: map<string, SpeciesRange>, pdict: Pdict, fs: seq<string>) {
    && row.comid == f.comid
    && row.order == f.order
    && (forall s :: s in row.columns <==> s in fs)
    && forall s :: s in fs ==> HasProbability(row, f, ranges, pdict, s)
  }

  /** Joining a species' column into a table aligned with the network gives each row its own flowline's cell. */
  lemma JoinSpeciesColumn(before: seq<OutRow>, flowlines: seq<Flowline>, ranges: map<string, SpeciesRange>,
                          pdict: Pdict, s: string, k: int)
    requires |before| == |flowlines| && UniqueFlowlines(flowlines)
    requires forall j :: 0 <= j < |before| ==> before[j].comid == flowlines[j].comid
    requires CalculationSucceeds(flowlines, ranges, pdict, s)
    requires 0 <= k < |before|
    ensures HasProbability(JoinColumn(before, SpeciesClass(flowlines, ranges, pdict, s), s)[k], flowlines[k], ranges, pdict, s)
  {
    var jc := SpeciesClass(flowlines, ranges, pdict, s);
    FieldCalculationOfExpression(jc.rows, s, pdict);
    assert UniqueComids(jc.rows) by {
      forall i, j | 0 <= i < j < |jc.rows| ensures jc.rows[i].comid != jc.rows[j].comid {
        assert jc.rows[i].comid == flowlines[i].comid && jc.rows[j].comid == flowlines[j].comid;
      }
    }
    JoinColumnOwnRow(before, jc, s, k);
  }

  /**
    After the species' columns are joined into the copied network, every
    row is still its own flowline, with one column per species holding
    `getProbability` of that flowline.
  */
  lemma {:induction false} AccumulatedColumns(flowlines: seq<Flowline>, ranges: map<string, SpeciesRange>,
                                              pdict: Pdict, fs: seq<string>)
    requires UniqueFlowlines(flowlines)
    requires forall s :: s in fs ==> CalculationSucceeds(flowlines, ranges, pdict, s)
    ensures var out := Accumulated(CopyRows(flowlines), flowlines, ranges, pdict, fs);
            && |out| == |flowlines|
            && forall k :: 0 <= k < |out| ==> ProbabilityRow(out[k], flowlines[k], ranges, pdict, fs)
  {
    if fs != [] {
      var pre := fs[..|fs| - 1];
      var last := fs[|fs| - 1];
      assert fs == pre + [last];
      forall s | s in pre ensures CalculationSucceeds(flowlines, ranges, pdict, s) {
        assert s in fs;
      }
      AccumulatedColumns(flowlines, ranges, pdict, pre);
      var before := Accumulated(CopyRows(flowlines), flowlines, ranges, pdict, pre);
      var jc := SpeciesClass(flowlines, ranges, pdict, last);
      var out := JoinColumn(before, jc, last);
      assert Accumulated(CopyRows(flowlines), flowlines, ranges, pdict, fs) == out;
      JoinColumnKeepsTable(before, jc, last);
      forall k | 0 <= k < |out| ensures ProbabilityRow(out[k], flowlines[k], ranges, pdict, fs) {
        assert ProbabilityRow(before[k], flowlines[k], ranges, pdict, pre);
        JoinSpeciesColumn(before, flowlines, ranges, pdict, last, k);
        forall s | s in fs ensures HasProbability(out[k], flowlines[k], ranges, pdict, s) {
          if s != last {
            assert s in pre;
            assert HasProbability(before[k], flowlines[k], ranges, pdict, s);
          }
        }
      }
    } else {
      forall k | 0 <= k < |flowlines| ensures ProbabilityRow(CopyRows(flowlines)[k], flowlines[k], ranges, pdict, fs) {
      }
    }
  }

  /** The flowline's order is one the generated dictionaries cover, or the policy never looks it up. */
  predicate InCurveDomain(f: Flowline, r: SpeciesRange) {
    JoinCountOf(r, f.comid) != 0 && !Indeterminate(f.order) ==> 1 <= f.order.value <= 10
  }

  /** One flowline under the generated dictionary of a listed species. */
  lemma GeneratedRow(hucs: seq<Watershed>, ranges: map<string, SpeciesRange>, fs: seq<string>, s: string, f: Flowline)
    requires s in fs
    ensures var jc := JoinCountOf(RangeOf(ranges, s), f.comid);
            var e := GetProbability(CurvePdict(hucs, ranges, fs), s, f.order, jc);
            && (e.KeyError? <==> !InCurveDomain(f, RangeOf(ranges, s)))
            && (jc != 0 && f.order.Num? && 1 <= f.order.value <= 10 ==>
                  e == Returned(Str(PyFloat(Curve.CurveAt(RangeThreshold(hucs, ranges, s), f.order.value)))))
  {
    CurvePdictEntries(hucs, ranges, fs);
    GeneratedPolicy(CurvePdict(hucs, ranges, fs), s, RangeThreshold(hucs, ranges, s), f.order,
                    JoinCountOf(RangeOf(ranges, s), f.comid));
  }

  /**
    With the generated dictionaries, the calculation of a listed species
    runs to completion exactly when every flowline in its range with a
    usable stream order has an order in 1..10.
  */
  lemma GeneratedCalculation(hucs: seq<Watershed>, flowlines: seq<Flowline>, ranges: map<string, SpeciesRange>,
                             fs: seq<string>, s: string)
    requires s in fs
    ensures CalculationSucceeds(flowlines, ranges, CurvePdict(hucs, ranges, fs), s) <==>
              forall k :: 0 <= k < |flowlines| ==> InCurveDomain(flowlines[k], RangeOf(ranges, s))
  {
    var pdict := CurvePdict(hucs, ranges, fs);
    var rows := SpatialJoinRows(flowlines, RangeOf(ranges, s));
    FieldCalculationOfExpression(rows, s, pdict);
    forall k | 0 <= k < |flowlines|
      ensures EvaluateRow(pdict, s, rows[k]).KeyError? <==> !InCurveDomain(flowlines[k], RangeOf(ranges, s))
    {
      GeneratedRow(hucs, ranges, fs, s, flowlines[k]);
    }
  }

  /**
    `getProbability` of one flowline under the generated dictionaries,
    written out case by case: '0' outside the range, 'N/A' without a usable
    order, and otherwise the curve of the species' threshold at the order.
  */
  function ExpectedText(hucs: seq<Watershed>, ranges: map<string, SpeciesRange>, s: string, f: Flowline): ProbText {
    if JoinCountOf(RangeOf(ranges, s), f.comid) == 0 then Zero
    else if Indeterminate(f.order) then NotAvailable
    else Str(PyFloat(Curve.CurveAt(RangeThreshold(hucs, ranges, s), f.order.value)))
  }

  /**
    End to end: with the dictionaries generated for fs, joining the columns
    of the species js (all of them in fs, none with a flowline outside the
    orders the dictionaries cover) gives every flowline of the network, in
    order, one column per joined species holding its expected text.
  */
  lemma GeneratedColumns(hucs: seq<Watershed>, flowlines: seq<Flowline>, ranges: map<string, SpeciesRange>,
                         fs: seq<string>, js: seq<string>)
    requires UniqueFlowlines(flowlines)
    requires forall s :: s in js ==> s in fs
    requires forall s, k :: s in js && 0 <= k < |flowlines| ==> InCurveDomain(flowlines[k], RangeOf(ranges, s))
    ensures var out := Accumulated(CopyRows(flowlines), flowlines, ranges, CurvePdict(hucs, ranges, fs), js);
            && |out| == |flowlines|
            && forall k :: 0 <= k < |out| ==>
                 && out[k].comid == flowlines[k].comid
                 && (forall s :: s in out[k].columns <==> s in js)
                 && forall s :: s in js ==> out[k].columns[s] == Some(ExpectedText(hucs, ranges, s, flowlines[k]))
  {
    var pdict := CurvePdict(hucs, ranges, fs);
    forall s | s in js ensures CalculationSucceeds(flowlines, ranges, pdict, s) {
      GeneratedCalculation(hucs, flowlines, ranges, fs, s);
    }
    AccumulatedColumns(flowlines, ranges, pdict, js);
    var out := Accumulated(CopyRows(flowlines), flowlines, ranges, pdict, js);
    forall k | 0 <= k < |out|
      ensures forall s :: s in js ==> out[k].columns[s] == Some(ExpectedText(hucs, ranges, s, flowlines[k]))
    {
      assert ProbabilityRow(out[k], flowlines[k], ranges, pdict, js);
      forall s | s in js ensures out[k].columns[s] == Some(ExpectedText(hucs, ranges, s, flowlines[k])) {
        assert HasProbability(out[k], flowlines[k], ranges, pdict, s);
        GeneratedRow(hucs, ranges, fs, s, flowlines[k]);
      }
    }
  }
}
