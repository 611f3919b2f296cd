/**
  spatialjoin_test.py: the earlier version of the script with a fixed
  codeblock. It copies `NHDFlowline` into `FlowlineProbabilities` and then,
  for every feature class, spatially joins the range into
  `SpatialJoin_<species>`, adds the species' text field and fills it with
  the fixed `getProbability`, whose dictionaries know only hardhead and
  rainbow trout. The join back into `FlowlineProbabilities` is commented
  out in the script, so the per-species classes stay in the workspace.
*/
module SpatialJoinTestScript {
  import opened Wrappers
  import opened Flowlines
  import opened Policy
  import Codegen
  import opened Workspace
  import opened Pipeline

  /** The workspace classes after the loop body ran, with the dictionaries `pdict`, for every species of `fs`. */
  function TestClasses(classes: map<string, JoinClass>, flowlines: seq<Flowline>, ranges: map<string, SpeciesRange>,
                       pdict: Pdict, fs: seq<string>): map<string, JoinClass>
  {
    if fs == [] then classes
    else TestClasses(classes, flowlines, ranges, pdict, fs[..|fs| - 1])[
           Codegen.TestClassName(fs[|fs| - 1]) := SpeciesClass(flowlines, ranges, pdict, fs[|fs| - 1])]
  }

  /** One more species adds or replaces its class. */
  lemma TestClassesStep(classes: map<string, JoinClass>, flowlines: seq<Flowline>, ranges: map<string, SpeciesRange>,
                        pdict: Pdict, fs: seq<string>, i: int)
    requires 0 <= i < |fs|
    ensures TestClasses(classes, flowlines, ranges, pdict, fs[..i + 1]) ==
              TestClasses(classes, flowlines, ranges, pdict, fs[..i])[
                Codegen.TestClassName(fs[i]) := SpeciesClass(flowlines, ranges, pdict, fs[i])]
  {
    assert fs[..i + 1][..i] == fs[..i];
  }

  /** The names of the per-species classes of `fs`. */
  function TestNames(fs: seq<string>): set<string> {
    set s | s in fs :: Codegen.TestClassName(s)
  }

  /** After the loop, every species of `fs` has its class: its spatial join and its filled (or null) column. */
  lemma {:induction false} TestClassesHold(classes: map<string, JoinClass>, flowlines: seq<Flowline>,
                                           ranges: map<string, SpeciesRange>, pdict: Pdict, fs: seq<string>)
    ensures forall s :: s in fs ==>
              && Codegen.TestClassName(s) in TestClasses(classes, flowlines, ranges, pdict, fs)
              && TestClasses(classes, flowlines, ranges, pdict, fs)[Codegen.TestClassName(s)] ==
                   SpeciesClass(flowlines, ranges, pdict, s)
  {
    if fs != [] {
      var pre := fs[..|fs| - 1];
      var last := fs[|fs| - 1];
      TestClassesHold(classes, flowlines, ranges, pdict, pre);
      forall s | s in fs
        ensures Codegen.TestClassName(s) in TestClasses(classes, flowlines, ranges, pdict, fs) &&
                TestClasses(classes, flowlines, ranges, pdict, fs)[Codegen.TestClassName(s)] ==
                  SpeciesClass(flowlines, ranges, pdict, s)
      {
        Codegen.NamesInjective(s, last);
        if s != last {
          assert s in pre by {
            var k :| 0 <= k < |fs| && fs[k] == s;
            assert k < |fs| - 1 && pre[k] == s;
          }
        }
      }
    }
  }

  /** No class other than those of the species in `fs` changes. */
  lemma {:induction false} TestClassesKeepOthers(classes: map<string, JoinClass>, flowlines: seq<Flowline>,
                                                 ranges: map<string, SpeciesRange>, pdict: Pdict, fs: seq<string>,
                                                 t: string)
    requires t !in TestNames(fs)
    ensures t in TestClasses(classes, flowlines, ranges, pdict, fs) <==> t in classes
    ensures t in classes ==> TestClasses(classes, flowlines, ranges, pdict, fs)[t] == classes[t]
  {
    if fs != [] {
      var pre := fs[..|fs| - 1];
      assert fs == pre + [fs[|fs| - 1]];
      assert TestNames(fs) == TestNames(pre) + {Codegen.TestClassName(fs[|fs| - 1])};
      TestClassesKeepOthers(classes, flowlines, ranges, pdict, pre, t);
    }
  }

  /**
    With the fixed dictionaries, the calculation of a species runs to
    completion exactly when every flowline in its range with a usable
    stream order has an order in 1..10 and the species is hardhead or
    rainbow trout.
  */
  lemma TestCalculation(flowlines: seq<Flowline>, ranges: map<string, SpeciesRange>, s: string)
    ensures CalculationSucceeds(flowlines, ranges, TestPdict, s) <==>
              forall k :: 0 <= k < |flowlines| ==>
                JoinCountOf(RangeOf(ranges, s), flowlines[k].comid) != 0 && !Indeterminate(flowlines[k].order) ==>
                  s in {"hardhead", "rainbow_trout"} && 1 <= flowlines[k].order.value <= 10
  {
    var rows := SpatialJoinRows(flowlines, RangeOf(ranges, s));
    forall k | 0 <= k < |flowlines|
      ensures EvaluateRow(TestPdict, s, rows[k]).KeyError? <==>
                JoinCountOf(RangeOf(ranges, s), flowlines[k].comid) != 0 && !Indeterminate(flowlines[k].order) &&
                !(s in {"hardhead", "rainbow_trout"} && 1 <= flowlines[k].order.value <= 10)
    {
      TestPolicy(s, rows[k].order, rows[k].joinCount);
    }
  }

  /**
    The loop over the feature classes: the spatial join into
    `SpatialJoin_<species>` and the calculation with the dictionaries
    `pdict`, up to the first species whose calculation raises KeyError,
    which it returns.
  */
  method FillTestClasses(gdb: Geodatabase, flowlines: seq<Flowline>, features: seq<string>,
                         ranges: map<string, SpeciesRange>, pdict: Pdict) returns (failed: Option<string>)
    modifies gdb`classes
    ensures var n := FirstIn(features, Failing(flowlines, ranges, pdict, features));
            && (failed.None? <==> n == |features|)
            && (failed.Some? ==> failed.value == features[n])
            && gdb.classes == TestClasses(old(gdb.classes), flowlines, ranges, pdict, features[..if n < |features| then n + 1 else n])
  {
    ghost var classes0 := gdb.classes;
    ghost var bad := Failing(flowlines, ranges, pdict, features);
    var i := 0;
    while i < |features|
      invariant 0 <= i <= |features|
      invariant i <= FirstIn(features, bad)
      invariant gdb.classes == TestClasses(classes0, flowlines, ranges, pdict, features[..i])
    {
      TestClassesStep(classes0, flowlines, ranges, pdict, features, i);
      var ok := JoinAndCalculate(gdb, Codegen.TestClassName(features[i]), flowlines, ranges, pdict, features[i]);
      if !ok {
        assert FirstIn(features, bad) == i;
        failed := Some(features[i]);
        return;
      }
      FirstInNext(features, bad, i);
      i := i + 1;
    }
    assert FirstIn(features, bad) == i;
    assert features[..i] == features;
    failed := None;
  }

  /**
    The script: the copy of `NHDFlowline` into `FlowlineProbabilities`,
    then the loop over the feature classes with the fixed codeblock.
  */
  method Run(gdb: Geodatabase, flowlines: seq<Flowline>, features: seq<string>, ranges: map<string, SpeciesRange>)
    returns (failed: Option<string>)
    modifies gdb`classes, gdb`output
    ensures gdb.output == CopyRows(flowlines)
    ensures var n := FirstIn(features, Failing(flowlines, ranges, TestPdict, features));
            && (failed.None? <==> n == |features|)
            && (failed.Some? ==> failed.value == features[n])
            && gdb.classes == TestClasses(old(gdb.classes), flowlines, ranges, TestPdict,
                                          features[..if n < |features| then n + 1 else n])
  {
    gdb.CopyFeatures(flowlines);
    failed := FillTestClasses(gdb, flowlines, features, ranges, TestPdict);
  }
}
