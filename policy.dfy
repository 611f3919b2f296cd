/**
  The `getProbability(species, stream_order, join_count)` policy that the
  field calculation runs once per flowline: '0' for a flowline outside the
  species' range, 'N/A' for one without a usable stream order, and otherwise
  the text of the species' dictionary entry for the order.

  The generated codeblock and the fixed test codeblock share the same tail;
  they differ only in the dictionary of dictionaries `pdict` they define.
  `str()` of a dictionary value is left abstract: the model keeps the value.
*/
module Policy {
  import opened Wrappers
  import opened Flowlines
  import Curve

  /** A Python number inside a probability dictionary: the generated curves
      hold floats, the fixed test tables hold ints. */
  datatype PyNumber = PyInt(i: int) | PyFloat(f: real)

  /** What `getProbability` returns: '0', 'N/A', or `str` of a dictionary value. */
  datatype ProbText = Zero | NotAvailable | Str(value: PyNumber)

  /** One call either returns a text or raises KeyError at `pdict[species][stream_order]`. */
  datatype Evaluation = Returned(text: ProbText) | KeyError

  /** One species' dictionary, keyed by stream order. */
  type ProbabilityTable = map<int, PyNumber>

  /** `pdict`: species name to that species' dictionary. */
  type Pdict = map<string, ProbabilityTable>

  /** `stream_order is None or stream_order < 0 or str(stream_order) == 'nan'` */
  predicate Indeterminate(o: StreamOrder) {
    o.Null? || o.NaN? || o.value < 0
  }

  /**
    The body of the generated `getProbability`. Each of the three outcomes
    happens exactly under its condition: the `join_count` test comes first,
    the order test second, and any remaining order that is not a key of the
    species' dictionary (0, above 10, or a species without a dictionary)
    raises KeyError.
  */
  function GetProbability(pdict: Pdict, species: string, order: StreamOrder, joinCount: int): (r: Evaluation)
    ensures r == Returned(Zero) <==> joinCount == 0
    ensures r == Returned(NotAvailable) <==> joinCount != 0 && Indeterminate(order)
    ensures r.KeyError? <==>
              joinCount != 0 && !Indeterminate(order) && (species !in pdict || order.value !in pdict[species])
    ensures r.Returned? && r.text.Str? ==>
              && joinCount != 0 && order.Num? && species in pdict && order.value in pdict[species]
              && r.text.value == pdict[species][order.value]
  {
    if joinCount == 0 then Returned(Zero)
    else if Indeterminate(order) then Returned(NotAvailable)
    else if species in pdict && order.value in pdict[species] then Returned(Str(pdict[species][order.value]))
    else KeyError
  }

  /** The Python dictionary the curve builder produces, as it enters `pdict`. */
  function CurveTable(m: Option<int>): (t: ProbabilityTable)
    ensures forall j :: j in t <==> 1 <= j <= 10
  {
    map j | 1 <= j <= 10 :: PyFloat(Curve.Curve(m)[j])
  }

  /**
    With a generated dictionary, every flowline in range with an order in
    1..10 gets the curve's value, order 0 or above 10 raises KeyError, and
    the sentinels do not depend on the curve.
  */
  lemma GeneratedPolicy(pdict: Pdict, species: string, m: Option<int>, order: StreamOrder, joinCount: int)
    requires species in pdict && pdict[species] == CurveTable(m)
    ensures joinCount != 0 && order.Num? && 1 <= order.value <= 10 ==>
              GetProbability(pdict, species, order, joinCount) == Returned(Str(PyFloat(Curve.CurveAt(m, order.value))))
    ensures joinCount != 0 && order.Num? && (order.value == 0 || order.value > 10) ==>
              GetProbability(pdict, species, order, joinCount) == KeyError
  {
  }

  /** `hardhead_dict` of the fixed test codeblock. */
  const HardheadDict: ProbabilityTable :=
    map[1 := PyInt(10), 2 := PyInt(20), 3 := PyInt(30), 4 := PyInt(40), 5 := PyInt(50),
        6 := PyInt(60), 7 := PyInt(70), 8 := PyInt(80), 9 := PyInt(90), 10 := PyInt(100)]

  /** `rainbow_trout_dict` of the fixed test codeblock. */
  const RainbowTroutDict: ProbabilityTable :=
    map[1 := PyInt(10), 2 := PyInt(10), 3 := PyInt(10), 4 := PyInt(10), 5 := PyInt(10),
        6 := PyInt(10), 7 := PyInt(10), 8 := PyInt(10), 9 := PyInt(10), 10 := PyInt(10)]

  /** `pdict` of the fixed test codeblock. */
  const TestPdict: Pdict := map["hardhead" := HardheadDict, "rainbow_trout" := RainbowTroutDict]

  /** The hardhead table maps each order k in 1..10 to 10 * k, and has no other key. */
  lemma HardheadTable(k: int)
    ensures k in HardheadDict <==> 1 <= k <= 10
    ensures 1 <= k <= 10 ==> HardheadDict[k] == PyInt(10 * k)
  {
  }

  /** The rainbow trout table maps every order in 1..10 to 10, and has no other key. */
  lemma RainbowTroutTable(k: int)
    ensures k in RainbowTroutDict <==> 1 <= k <= 10
    ensures 1 <= k <= 10 ==> RainbowTroutDict[k] == PyInt(10)
  {
  }

  /** The fixed test policy, case by case. */
  lemma TestPolicy(species: string, order: StreamOrder, joinCount: int)
    ensures joinCount == 0 ==> GetProbability(TestPdict, species, order, joinCount) == Returned(Zero)
    ensures joinCount != 0 && Indeterminate(order) ==>
              GetProbability(TestPdict, species, order, joinCount) == Returned(NotAvailable)
    ensures joinCount != 0 && order.Num? && 1 <= order.value <= 10 && species == "hardhead" ==>
              GetProbability(TestPdict, species, order, joinCount) == Returned(Str(PyInt(10 * order.value)))
    ensures joinCount != 0 && order.Num? && 1 <= order.value <= 10 && species == "rainbow_trout" ==>
              GetProbability(TestPdict, species, order, joinCount) == Returned(Str(PyInt(10)))
    ensures joinCount != 0 && !Indeterminate(order) &&
            (species !in {"hardhead", "rainbow_trout"} || order.value == 0 || order.value > 10) ==>
              GetProbability(TestPdict, species, order, joinCount) == KeyError
  {
    if order.Num? {
      HardheadTable(order.value);
      RainbowTroutTable(order.value);
    }
  }
}
