# Fish species occurrence: stream-order probabilities

A model of the ArcGIS scripts that give every flowline of the NHD network a
probability of holding each fish species. It covers these stages:

- **Maximum stream order per HUC12.** Flowlines are filtered to
  `"StreamOrde" IS NOT NULL AND "StreamOrde" > 0`, grouped by `HUC_12` with
  `MAX`, and the result (`Stats_1`) is joined onto `HUC12FullState` as
  `MAX_StreamOrde`.
- **Species threshold.** A species' threshold `min_stream` is the `MIN` of
  `MAX_StreamOrde` over the HUC12s whose centre lies in its range. It is
  written to `Stats_<species>` and read back with a search cursor.
- **Countdown curve.** A loop over the orders 10..1 fills the species'
  dictionary from the threshold, with an `iteration` counter and a `break`
  at order 1.
- **Codeblock.** The `getProbability` codeblock is assembled as text: a
  header, one `<species>_dict=` line per species, the `pdict` literal and a
  fixed tail. The tail is the three-way policy: '0' outside the range,
  'N/A' without a usable order, otherwise the dictionary lookup.
- **Per-species loop.** For each species the script runs a spatial join
  into a temporary class, adds a text field named after the species, runs
  CalculateField with the generated expression, joins the column into
  `FlowlineProbabilities` by COMID, and deletes the temporary class.
- **The other scripts.** Probabilities.py runs the statistics half on its
  own, with its four-name exclusion filter. spatialjoin_test.py uses a
  fixed hardhead/rainbow-trout codeblock. support.py folds cursor rows into
  a dictionary.

Pure logic is written as functions and lemmas: the group maximum, the
threshold, the policy, the text assembly and the end-to-end column
contents. What the scripts do step by step is written as methods with
loops and invariants: the curve countdown, the text-appending loops, the
species loops, the cursor read and the `support.py` fold. Together these
drive a `Geodatabase` class whose fields are the workspace state the
geoprocessing calls change:

- layers;
- the HUC12 table;
- `Stats_1` and the `Stats_<species>` tables;
- the temporary join classes;
- `FlowlineProbabilities`.

Each method's `ensures` clause ties the new state to a specification
function of the old state and the inputs. The properties the scripts
promise are lemmas about those functions. Some tool calls can raise, in
which case the run stops: the model takes the set of species whose
statistics tools raise as an input, while the species whose field
calculation raises KeyError follow from the generated dictionaries.

Modelling choices:

- **Python 2 comparisons.** The scripts run under Python 2, where `None`
  compares below every number. A species whose range's HUC12s all have a
  null maximum gets a null threshold, so its curve is the curve of any
  threshold of at most 0 (`Curve.CurveNullThreshold`).
- **Empty selections.** A species range that holds the centre of no HUC12
  leaves the HUC12 layer without a selection, and a tool on a layer
  without a selection processes every feature. The MIN statistics then
  summarizes the whole HUC12 table (`Flowlines.ThresholdEmptySelection`).
- **`str()` of a dictionary** is a parameter (`render`) of the codeblock
  builders. The model does not execute the generated text. Instead it
  returns the dictionary of dictionaries the text defines alongside it, and
  proves that the text lists exactly those species
  (`Codegen.PdictEntriesRoundTrip`).
- **Spatial joins are inputs.** The flowline network joined to the HUC12s
  is given as `segs`, and each species' range as its HUC12 centres and its
  per-COMID join counts.

Details of what the code does:

- **Curve values.** The code writes 0.9 above the threshold. At the
  threshold, its `j == min_stream` write is always overwritten by the
  `j <= min_stream` write, so the threshold order gets 0.45, and order
  j ≤ m gets 0.9·0.5^(m−j+1). Order 1 always takes the decayed value
  because of the `break` branch. For a threshold of 5 the curve is
  {10..6: 0.9, 5: 0.45, 4: 0.225, 3: 0.1125, 2: 0.05625, 1: 0.028125}
  (`Curve.CurveForFive`).
- **Null threshold.** When no summarized HUC12 has a maximum, the script
  goes on with `None`, as above, and writes the curve of a threshold of 0.
- **The two headers differ.** spatialjoin.py's codeblock header starts with
  a newline and species_stream_order.py's does not. Each is a constant of
  its own.
- **Trailing comma.** Both branches of the `pdict` loop append the same
  entry, trailing comma included, although the second is commented "no
  comma". The model keeps one entry per species with its comma.
- **species_stream_order.py's main block does not run as written.** The
  model follows the wiring of spatialjoin.py (see "Left out").
  `MainBlock` does the following:
  - calls `get_max_stream_order_by_huc` before building the codeblock;
  - joins field `join_features`;
  - lists the polygon classes of the species workspace.
- **Probabilities.py deletes no earlier field.** It joins `MAX_StreamOrde`
  onto `HUC12FullState` without first deleting an earlier column of that
  name. The model assumes there is none.

## Model

| member | source | states |
|---|---|---|
| Support.GetAttributeDict | support.py:13-20 | the keys of the result are exactly the key values of the rows, and each key holds, unchanged, the attribute of the last row carrying it |
| Flowlines.MaxByHuc | spatialjoin.py:33-39 | `Stats_1` has a row exactly for each `HUC_12` group with a flowline of non-null order > 0, holding the largest such order of the group |
| Flowlines.MaxByHucStep | species_stream_order.py:39-44 | one more flowline keeps the group-maximum table correct: a key per group with a qualifying flowline, each holding its group maximum |
| Flowlines.JoinMax | spatialjoin.py:49 | the join keeps every HUC12 row, in order, with its own id |
| Flowlines.AggregateIsGroupMax | spatialjoin.py:33-49 | each HUC12 gets the largest qualifying order of the flowlines whose centre lies in it, null exactly when it has none, and any attached value is at least 1 |
| Flowlines.AggregatePositive | Probabilities.py:31-52 | every `MAX_StreamOrde` the join attaches is at least 1 |
| Flowlines.SelectByCentre | spatialjoin.py:76 | the selection holds exactly the HUC12 rows whose centre lies in the species' range |
| Flowlines.SummarizedRows | spatialjoin.py:76-80 | the MIN statistics reads the selected rows, or every row when the range holds no HUC12 centre |
| Flowlines.MaxOrders | spatialjoin.py:80 | the MIN statistics reads each selected row's `MAX_StreamOrde` in order |
| Flowlines.MinPresent | spatialjoin.py:80 | the MIN statistics is a value of the column no larger than any non-null value, and null exactly when every value is null |
| Flowlines.ThresholdIsRangeMin | species_stream_order.py:84-94 | the threshold is the minimum `MAX_StreamOrde` over the summarized HUC12s that have one (the range's, or all of them when it holds no centre), attained by one of them, and null exactly when none has one |
| Flowlines.SelectEveryRow | Probabilities.py:70 | a selection by location that holds every row keeps the whole table in order |
| Flowlines.ThresholdEmptySelection | Probabilities.py:70-74 | a range holding no HUC12 centre gets the threshold of a range holding every centre: the minimum over the whole table |
| Flowlines.ThresholdPositive | Probabilities.py:70-74 | with positive watershed maxima a non-null threshold is at least 1 |
| Curve.StreamListCountsDown | spatialjoin.py:90 | `stream_list` counts down from 10 to 1 |
| Curve.RatePow | spatialjoin.py:92 | every power of the rate lies in (0, 1] |
| Curve.RatePowAntitone | spatialjoin.py:100-104 | a higher power of the rate is never larger |
| Curve.CountdownStep | species_stream_order.py:102-111 | one pass leaves at order j the curve value for the current counter, stops exactly at order 1, and advances the counter only in the `j <= min_stream` branch |
| Curve.WrittenIsCurve | species_stream_order.py:98-111 | with the counter at one plus the decays above j, the value written at j is the curve's |
| Curve.CurveAboveEntries | species_stream_order.py:101-111 | after the orders above lo the dictionary holds exactly those orders, each with its curve value |
| Curve.CurveAboveStep | species_stream_order.py:101-111 | passing order j adds exactly its entry |
| Curve.CurveAboveZero | species_stream_order.py:97 | after order 1 the entries are the whole curve |
| Curve.BuildCurve | spatialjoin.py:89-104 | the countdown's dictionary has exactly the keys 1..10 and equals the curve of the threshold |
| Curve.DecaysClosed | spatialjoin.py:102-104 | `iteration` advances once for each order from lo up to min(threshold, 10) |
| Curve.CurveAboveThreshold | species_stream_order.py:102-103 | every order from 2 to 10 above the threshold gets 0.9 |
| Curve.CurveBelowThreshold | species_stream_order.py:98-111 | for a threshold m in 1..10, every order j ≤ m gets 0.9·0.5^(m−j+1) |
| Curve.CurveAtThreshold | species_stream_order.py:104-110 | the threshold order gets 0.45, since the `j <= min_stream` write overwrites the `j == min_stream` one |
| Curve.CurveHighThreshold | species_stream_order.py:109-111 | with a threshold of 10 or more the decay starts at order 10 |
| Curve.CurveOrderOneLowThreshold | species_stream_order.py:106-108 | order 1 gets 0.45 when the threshold is null or below 1 |
| Curve.CurveNullThreshold | spatialjoin.py:95-103 | a null threshold gives the same curve as any threshold of at most 0 |
| Curve.DecaysAntitone | spatialjoin.py:102-104 | fewer orders remain to decay from a higher starting order |
| Curve.CurveMonotone | species_stream_order.py:101-111 | curve values never decrease with stream order |
| Curve.CurveBounds | species_stream_order.py:101-111 | every curve value lies in (0, 0.9] |
| Curve.CurveForFive | species_stream_order.py:96-111 | for threshold 5 the curve is {10..6: 0.9, 5: 0.45, 4: 0.225, 3: 0.1125, 2: 0.05625, 1: 0.028125} |
| Policy.Indeterminate | species_stream_order.py:135 | the order guard: null, NaN or negative |
| Policy.GetProbability | species_stream_order.py:132-139 | '0' exactly when `join_count == 0`, 'N/A' exactly for a null, NaN or negative order with a non-zero count, KeyError exactly when the order is not a key of the species' dictionary, and otherwise that entry |
| Policy.CurveTable | spatialjoin.py:89-104 | a generated dictionary has exactly the keys 1..10 |
| Policy.GeneratedPolicy | spatialjoin.py:125-132 | with a generated dictionary, orders 1..10 in range get the curve value, and order 0 or above 10 raises KeyError |
| Policy.HardheadTable | spatialjoin_test.py:48 | `hardhead_dict` maps each order k in 1..10 to 10·k and has no other key |
| Policy.RainbowTroutTable | spatialjoin_test.py:49 | `rainbow_trout_dict` maps every order in 1..10 to 10 and has no other key |
| Policy.TestPolicy | spatialjoin_test.py:50-59 | the fixed policy gives '0' for a zero join count, 'N/A' for an unusable order, 10·k or 10 for the two species, and KeyError for any other species or an order of 0 or above 10 |
| Codegen.DictLinesSnoc | spatialjoin.py:108 | one more species appends exactly its `\n\t<name>_dict=<text>` line |
| Codegen.PdictEntriesSnoc | spatialjoin.py:116-118 | one more species appends exactly its `'<name>':<name>_dict,` entry |
| Codegen.NextQuote | species_stream_order.py:123 | finds the first quote at or after a position |
| Codegen.ParseOneEntry | species_stream_order.py:123-125 | reading an entry back yields its species name, for a name without quotes |
| Codegen.PdictEntriesRoundTrip | species_stream_order.py:118-127 | the `pdict` text lists every species exactly once, in feature order: reading it back gives the feature list |
| Codegen.ExpressionRoundTrip | spatialjoin.py:178 | the expression passes exactly its own species to `getProbability` |
| Codegen.NamesInjective | spatialjoin.py:165 | distinct species get distinct layers, `Stats_` tables and join outputs |
| Workspace.HucIds | spatialjoin.py:49 | the join keys are the HUC12 ids in table order |
| Workspace.SpatialJoinRows | spatialjoin.py:167 | the one-to-one join keeps every flowline in order, with the number of range polygons holding its centre as `Join_Count` |
| Workspace.NullColumn | spatialjoin.py:173 | a new text field is null in every row |
| Workspace.FieldCalculation | spatialjoin.py:202 | a completed calculation fills one cell per row |
| Workspace.FieldCalculationOfExpression | spatialjoin.py:178-202 | with the generated expression, the calculation completes exactly when no row raises KeyError, and fills each row with `getProbability` of that row |
| Workspace.FirstWithComid | spatialjoin.py:212 | JoinField reads the first join row carrying the COMID |
| Workspace.JoinColumn | spatialjoin.py:212 | every row of `FlowlineProbabilities` gets the field's cell from the first join row with its COMID, or null |
| Workspace.JoinColumnKeepsTable | spatialjoin.py:212 | joining a column keeps every row, its order and identity, adds the field to each row and leaves every other column as it was |
| Workspace.JoinColumnOwnRow | spatialjoin.py:212 | with unique COMIDs each row receives its own flowline's cell |
| Workspace.Geodatabase.constructor | spatialjoin.py:11-12 | an empty workspace around the HUC12 table |
| Workspace.Geodatabase.MakeFeatureLayer | spatialjoin.py:25 | adds exactly the named layer |
| Workspace.Geodatabase.DeleteLayer | spatialjoin.py:82 | removes exactly the named layer |
| Workspace.Geodatabase.StatisticsMaxByHuc | spatialjoin.py:39 | `Stats_1` becomes the group maxima of the selected flowlines |
| Workspace.Geodatabase.JoinMaxStreamOrder | spatialjoin.py:42-49 | the HUC12 table gets `MAX_StreamOrde` from `Stats_1`, replacing any earlier column |
| Workspace.Geodatabase.StatisticsMinForSpecies | spatialjoin.py:76-80 | `Stats_<species>` becomes the one-row table holding the threshold; no other table changes |
| Workspace.Geodatabase.SpatialJoin | spatialjoin.py:167 | the output class holds every flowline with its join count and no field yet |
| Workspace.Geodatabase.AddTextField | spatialjoin.py:173 | adds a null text field to exactly that class |
| Workspace.Geodatabase.CalculateField | spatialjoin.py:202 | fills the field where the calculation completes and changes nothing where it raises |
| Workspace.Geodatabase.JoinField | spatialjoin.py:212 | joins the field into `FlowlineProbabilities` by COMID |
| Workspace.Geodatabase.DeleteClass | spatialjoin.py:214 | removes exactly the named class |
| Workspace.Geodatabase.CopyFeatures | spatialjoin.py:155 | `FlowlineProbabilities` becomes the network with no species column |
| Pipeline.FirstIn | spatialjoin.py:67 | the index of the first species whose tools raise: every species before it runs |
| Pipeline.AttachMaxStreamOrder | spatialjoin.py:33-49 | `Stats_1` is the group maxima and the HUC12 table carries them |
| Pipeline.PrepareHucs | Probabilities.py:24-52 | adds the two layers, and `Stats_1` and the HUC12 table are as above |
| Pipeline.SelectAndSummarize | spatialjoin.py:69-82 | the species layer is deleted whether or not the tools raise; on success `Stats_<species>` holds the threshold, otherwise no table changes |
| Pipeline.ReadLastRow | spatialjoin.py:84-87 | `min_stream` is the last row's value, or keeps its earlier binding when there is no row |
| Pipeline.StatsTablesHold | Probabilities.py:74 | every summarized species has its own one-row table holding its threshold |
| Pipeline.StatsTablesKeepOthers | Probabilities.py:74 | no other table changes |
| Pipeline.DictBlockLines | spatialjoin.py:67-108 | the species loop appends one dictionary line per species, in feature order |
| Pipeline.CurvePdictEntries | spatialjoin.py:111-120 | the generated `pdict` has exactly the listed species, each with the curve of its own threshold |
| Pipeline.SpeciesLoopStep | spatialjoin.py:67-108 | one more species extends the codeblock, the `pdict`, the tables and the deleted layers by its own |
| Pipeline.CurveDictionary | spatialjoin.py:89-104 | the countdown's dictionary is the species' curve table |
| Pipeline.SpeciesEntry | spatialjoin.py:67-108 | one species: layer deleted, and either its table, `min_stream`, curve and dictionary line, or nothing changed when the tools raise |
| Pipeline.SpeciesStep | spatialjoin.py:67-108 | one turn of the species loop keeps the loop's accumulated values |
| Pipeline.SpeciesDictionaries | species_stream_order.py:76-115 | the species loop stops at the first raising species; before it, codeblock lines, `pdict`, tables and layers are those of the completed species |
| Pipeline.AppendPdictEntries | spatialjoin.py:111-119 | the `pdict` loop appends exactly one entry per species in order, whichever branch fires |
| Pipeline.FinishCodeblock | spatialjoin.py:111-132 | the codeblock ends with the `pdict` literal and the fixed tail |
| Pipeline.BuildCodeblock | species_stream_order.py:73-139 | the codeblock is the header, one line per species' curve, the `pdict` literal and the tail, and its `pdict` maps each species to its curve; a raising species ends the build |
| Pipeline.JoinAndCalculate | spatialjoin.py:165-202 | the join output holds the species' filled column, or the null column when the calculation raises |
| Pipeline.FillSpecies | spatialjoin.py:160-214 | on success the column is joined by COMID and the temporary class deleted; on a KeyError nothing is joined and the class stays |
| Pipeline.AccumulateStep | spatialjoin.py:212-214 | one more species joins its column and deletes its temporary class |
| Pipeline.AccumulateOne | spatialjoin.py:160-214 | one turn of the main loop keeps the accumulated table and the surviving temporary classes |
| Pipeline.AccumulateSpecies | spatialjoin.py:160-214 | the main loop stops at the first species whose calculation raises; `FlowlineProbabilities` holds the columns of the species before it |
| Pipeline.JoinSpeciesColumn | spatialjoin.py:212 | joining a species' column gives each row its own flowline's probability |
| Pipeline.AccumulatedColumns | spatialjoin.py:160-214 | after the joins every row is its own flowline, with exactly one column per species holding `getProbability` of that flowline |
| Pipeline.GeneratedRow | spatialjoin.py:122-132 | under the generated dictionaries a flowline raises KeyError exactly outside orders 1..10, and otherwise gets its curve value |
| Pipeline.GeneratedCalculation | spatialjoin.py:202 | a listed species' calculation completes exactly when every flowline in its range with a usable order has one in 1..10 |
| Pipeline.GeneratedColumns | spatialjoin.py:155-214 | end to end, every flowline gets, per joined species, '0' outside the range, 'N/A' without a usable order, or the curve of the species' threshold at its order |
| SpatialJoinScript.ProbabilitiesDict | spatialjoin.py:9-138 | `Stats_1`, the HUC12 table, the tables, the layers and the codeblock with its `pdict`, on both the normal and the raising path |
| SpatialJoinScript.ProbabilitiesPdict | spatialjoin.py:158 | the HUC12 table carries the flowline maxima; the build stops exactly when a listed species' tools raise, naming the first; otherwise the `pdict` maps each species to the curve of its threshold |
| SpatialJoinScript.Run | spatialjoin.py:155-214 | the outcome names the first raising species; `FlowlineProbabilities` holds the columns of the species before it; a complete run deletes every temporary class |
| SpeciesStreamOrderScript.GetMaxStreamOrderByHuc | species_stream_order.py:33-56 | the finally block deletes both layers on every path; on success `Stats_1` and the HUC12 table carry the maxima, otherwise both are unchanged |
| SpeciesStreamOrderScript.ClassNames | species_stream_order.py:70 | the listing's names, in order |
| SpeciesStreamOrderScript.PolygonClassesFilter | species_stream_order.py:155 | the polygon listing holds exactly the polygon classes, each a listed class |
| SpeciesStreamOrderScript.GetSpeciesFeatureClasses | species_stream_order.py:145-157 | the polygon classes in listing order |
| SpeciesStreamOrderScript.BuildPdict | species_stream_order.py:170 | the build stops exactly when a listed species' tools raise, naming the first; otherwise the `pdict` maps each species to the curve of its threshold |
| SpeciesStreamOrderScript.JoinPolygonClasses | species_stream_order.py:174-223 | the loop over the polygon classes stops at the first KeyError, with the columns of the classes before it |
| SpeciesStreamOrderScript.MainBlock | species_stream_order.py:160-223 | a raising maximum, statistics tool or calculation ends the run at the right point, with `FlowlineProbabilities` holding the columns completed so far |
| SpatialJoinTestScript.TestClassesStep | spatialjoin_test.py:30-67 | one more species adds or replaces its own class |
| SpatialJoinTestScript.TestClassesHold | spatialjoin_test.py:30-67 | every species has its `SpatialJoin_<species>` class with its spatial join and its filled or null column |
| SpatialJoinTestScript.TestClassesKeepOthers | spatialjoin_test.py:25-72 | no other class changes |
| SpatialJoinTestScript.TestCalculation | spatialjoin_test.py:46-67 | a species' calculation completes exactly when it is hardhead or rainbow trout with every joined, usable order in 1..10 |
| SpatialJoinTestScript.FillTestClasses | spatialjoin_test.py:25-67 | the loop stops at the first KeyError, with the classes of the species up to it |
| SpatialJoinTestScript.Run | spatialjoin_test.py:22-67 | the copy of the network, then the loop with the fixed dictionaries |
| ProbabilitiesScript.IsSpeciesClassExcludes | Probabilities.py:60 | the guard passes exactly the names outside the four excluded ones |
| ProbabilitiesScript.SpeciesClassesFilter | Probabilities.py:59-60 | the processed classes are exactly the listed classes that pass the guard |
| ProbabilitiesScript.SpeciesClassesStep | Probabilities.py:59-60 | one more listed class is processed exactly when it passes the guard |
| ProbabilitiesScript.SummaryStep | Probabilities.py:64-76 | one more processed class adds its table and its layer name |
| ProbabilitiesScript.SummaryTurn | Probabilities.py:59-76 | one turn of the loop keeps the tables and layers of the processed classes |
| ProbabilitiesScript.SummarizeSpecies | Probabilities.py:59-76 | the loop stops at the first raising class, with the tables of the classes before it and every species layer deleted |
| ProbabilitiesScript.Run | Probabilities.py:18-80 | the maxima, the tables, and both shared layers deleted at the end of a complete run, but left behind by a raising class |
| ProbabilitiesScript.SummaryTables | Probabilities.py:59-74 | after a complete run every processed class has its threshold table, and the tables named after the excluded classes are unchanged |
| Scenario.StatsOne | spatialjoin.py:33-39 | for four sample flowlines `Stats_1` is {A: 3, B: 5}: order 1 loses to 3, and the flowline without an order is filtered out |
| Scenario.HucTable | spatialjoin.py:42-49 | the HUC12 table becomes A: 3, B: 5, and C null |
| Scenario.SpeciesThreshold | spatialjoin.py:76-87 | a range over A, B and C has threshold 3, ignoring the null |
| Scenario.SpeciesCurve | spatialjoin.py:89-104 | with threshold 3, order 4 gets 0.9 and order 3 gets 0.45 |
| Scenario.FlowlineProbability | spatialjoin.py:125-132 | with threshold 3, a flowline of order 4 in range gets 0.9 and one out of range gets '0' |

## Left out

- Geometry: the centre-in-polygon spatial joins and selections by location are inputs (`segs`, each species' HUC12 centres and join counts), not computed.
- arcpy internals: the tools are modelled only by the effect their arguments state, and a failure of a statistics tool by the input set `failing` (or the flag `maxFails`).
- Workspace switching, `arcpy.env.overwriteOutput`, `env_manager` and `geodatabase_tempfile`: paths are not modelled, and every output overwrites its name.
- Logging, `print` and timestamps: they do not change the workspace.
- `str()` of a float dictionary: it is the parameter `render`, since its Python formatting is not part of the pipeline's logic.
- Executing the codeblock text: the model pairs the text with the dictionary of dictionaries it defines.
- Floating point: probabilities are exact reals, so 0.9·0.5^k is exact.
- The final CopyFeatures of `FlowlineProbabilities` to disk and the clearing of `in_memory` (spatialjoin.py:216-217, species_stream_order.py:225-226): they copy the table unchanged.
- AddIndex (spatialjoin_test.py:70-72): an index does not change any table's contents.
- The field names JoinField produces when a joined field already exists: each species field is new in `FlowlineProbabilities`.
- The commented-out join at spatialjoin_test.py:74-79: it is not code.
- A `NameError` for an unbound `min_stream`: the MIN statistics table always has one row, so the cursor always binds it.
- tests.py is not part of this model: its assertions depend on the real NHD and HUC12 data.
- species_stream_order.py as written: `huc12_layer` is unbound in `build_codeblock` (line 84), `get_species_feature_classes` is called without its workspace argument (line 172), `target_features` at line 53 and `i` at line 221 are names of other scopes, and the main block never calls `get_max_stream_order_by_huc`. The model follows spatialjoin.py's working wiring.
- Flowlines.MaxByHuc: when no flowline of the network has a non-null order above 0, the attribute selection is empty and arcpy's MAX statistics then reads every flowline; the model gives an empty `Stats_1` for that network, because the maxima of unfiltered orders (negative, NaN) are outside what the pipeline computes.
- species_stream_order.py:50 deletes `MAX_StreamOrde` from the flowline class rather than from the HUC12 table; the model takes the HUC12 table to carry no earlier `MAX_StreamOrde`.
- SpatialJoinScript.ProbabilitiesPdict: states only the stopping point, the HUC12 table and the `pdict` of `ProbabilitiesDict`, because the main loop needs no more.
- SpeciesStreamOrderScript.BuildPdict: states only the stopping point and the `pdict` of `BuildCodeblock` with this script's header, because the main block needs no more.
- SpatialJoinScript.Run: states the tables and layers only through `ProbabilitiesDict`, not again in its own contract.
