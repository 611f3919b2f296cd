/**
  The per-species probability curve: the countdown over stream orders 10..1
  that fills a dictionary from the species' threshold `min_stream`, with an
  `iteration` counter for the exponential decay and a `break` at order 1.

  `min_stream` is the `MIN_MAX_StreamOrde` read back from the species'
  statistics table and may be null. The scripts run under Python 2, where
  None compares below every number: `j > None` holds and `j == None`,
  `j <= None` do not. Probabilities are exact reals.
*/
module Curve {
  import opened Wrappers

  /** `stream_list`: the orders the loop counts down over. */
  const StreamList: seq<int> := [10, 9, 8, 7, 6, 5, 4, 3, 2, 1]

  lemma StreamListCountsDown(idx: int)
    requires 0 <= idx < |StreamList|
    ensures StreamList[idx] == 10 - idx
  {
  }

  /** `rate`: the exponential base. */
  const Rate: real := 0.5

  /** `max_probability`: the initial probability. */
  const MaxProbability: real := 0.9

  /** `rate ** k` */
  function RatePow(k: nat): (r: real)
    ensures 0.0 < r <= 1.0
  {
    if k == 0 then 1.0 else Rate * RatePow(k - 1)
  }

  lemma {:induction false} RatePowAntitone(a: nat, b: nat)
    requires a <= b
    ensures RatePow(b) <= RatePow(a)
  {
    if a < b {
      RatePowAntitone(a, b - 1);
    }
  }

  /** `j > min_stream` */
  predicate Above(j: int, m: Option<int>) {
    m.None? || j > m.value
  }

  /** `j == min_stream` */
  predicate AtThreshold(j: int, m: Option<int>) {
    m.Some? && j == m.value
  }

  /** `j <= min_stream` */
  predicate AtOrBelow(j: int, m: Option<int>) {
    m.Some? && j <= m.value
  }

  /** How many of the orders lo..10 are at or below the threshold, that is,
      how far `iteration` has been advanced when the countdown reaches lo - 1. */
  function Decays(m: Option<int>, lo: int): nat
    decreases 11 - lo
  {
    if lo > 10 then 0 else (if AtOrBelow(lo, m) then 1 else 0) + Decays(m, lo + 1)
  }

  /**
    The entry the countdown leaves at order j. Orders at or below the
    threshold, and order 1 always, get `max_probability * rate ** iteration`
    with the counter as it stands when j is reached; every other order keeps
    `max_probability`. The `j == min_stream` write is always replaced by the
    `j <= min_stream` one, so it leaves no trace here.
  */
  function CurveAt(m: Option<int>, j: int): real {
    if j == 1 || AtOrBelow(j, m) then MaxProbability * RatePow(1 + Decays(m, j + 1))
    else MaxProbability
  }

  /** The whole dictionary: orders 1..10 and nothing else. */
  function Curve(m: Option<int>): map<int, real> {
    map j | 1 <= j <= 10 :: CurveAt(m, j)
  }

  /** The entries the countdown has written once it has passed every order above lo. */
  function CurveAbove(m: Option<int>, lo: int): map<int, real>
    decreases 10 - lo
  {
    if lo >= 10 then map[] else CurveAbove(m, lo + 1)[lo + 1 := CurveAt(m, lo + 1)]
  }

  /** Those entries are the curve's values at the orders lo + 1 .. 10. */
  lemma {:induction false} CurveAboveEntries(m: Option<int>, lo: int)
    ensures forall k :: k in CurveAbove(m, lo) <==> lo < k <= 10
    ensures forall k :: lo < k <= 10 ==> CurveAbove(m, lo)[k] == CurveAt(m, k)
    decreases 10 - lo
  {
    if lo < 10 {
      CurveAboveEntries(m, lo + 1);
    }
  }

  /** Passing order j adds exactly its entry. */
  lemma CurveAboveStep(m: Option<int>, j: int)
    requires 1 <= j <= 10
    ensures CurveAbove(m, j - 1) == CurveAbove(m, j)[j := CurveAt(m, j)]
  {
  }

  /** Once every order 1..10 is passed, the entries are the whole curve. */
  lemma CurveAboveZero(m: Option<int>)
    ensures CurveAbove(m, 0) == Curve(m)
  {
    CurveAboveEntries(m, 0);
  }

  /** The value the countdown leaves at order j when `iteration` stands at the given count. */
  function Written(m: Option<int>, j: int, iteration: nat): real {
    if j == 1 || AtOrBelow(j, m) then MaxProbability * RatePow(iteration) else MaxProbability
  }

  /**
    One pass of the loop body at order j: the four guarded writes in source
    order; `stop` is the `break` at order 1, and `iteration` advances only in
    the `j <= min_stream` branch, which the `break` skips.
  */
  method CountdownStep(d0: map<int, real>, j: int, iteration0: nat, minStream: Option<int>)
    returns (d: map<int, real>, iteration: nat, stop: bool)
    ensures d == d0[j := Written(minStream, j, iteration0)]
    ensures stop <==> j == 1
    ensures iteration == if !stop && AtOrBelow(j, minStream) then iteration0 + 1 else iteration0
  {
    d := d0;
    iteration := iteration0;
    stop := false;
    assert Above(j, minStream) <==> !AtOrBelow(j, minStream);
    if Above(j, minStream) {
      d := d[j := MaxProbability];
    }
    if AtThreshold(j, minStream) {
      d := d[j := MaxProbability];
    }
    if j == 1 {
      d := d[j := MaxProbability * RatePow(iteration)];
      stop := true;
      return;
    }
    if AtOrBelow(j, minStream) {
      d := d[j := MaxProbability * RatePow(iteration)];
      iteration := iteration + 1;
    }
  }

  /** With `iteration` counting the decays above j, the value written at j is the curve's. */
  lemma WrittenIsCurve(m: Option<int>, j: int, iteration: nat)
    requires 1 <= j <= 10 && iteration == 1 + Decays(m, j + 1)
    ensures Written(m, j, iteration) == CurveAt(m, j)
  {
  }

  /**
    The countdown loop of the curve builder over `stream_list`, with the
    `iteration` counter starting at 1 and the `break` at order 1.
  */
  method BuildCurve(minStream: Option<int>) returns (d: map<int, real>)
    ensures forall j :: j in d <==> 1 <= j <= 10
    ensures d == Curve(minStream)
  {
    d := map[];
    var iteration: nat := 1;
    var idx := 0;
    while idx < |StreamList|
      invariant 0 <= idx <= 9
      invariant d == CurveAbove(minStream, 10 - idx)
      invariant iteration == 1 + Decays(minStream, 11 - idx)
    {
      StreamListCountsDown(idx);
      var j := StreamList[idx];
      WrittenIsCurve(minStream, j, iteration);
      CurveAboveStep(minStream, j);
      var stop;
      d, iteration, stop := CountdownStep(d, j, iteration, minStream);
      if stop {
        CurveAboveZero(minStream);
        break;
      }
      idx := idx + 1;
    }
  }

  /** `iteration` counts exactly the orders from lo up to min(threshold, 10). */
  lemma {:induction false} DecaysClosed(m: Option<int>, lo: int)
    requires 1 <= lo <= 11
    ensures Decays(m, lo) == if m.None? || m.value < lo then 0
                             else (if m.value < 10 then m.value else 10) - lo + 1
    decreases 11 - lo
  {
    if lo <= 10 {
      DecaysClosed(m, lo + 1);
    }
  }

  /** Every order above the threshold, except order 1, keeps `max_probability`. */
  lemma CurveAboveThreshold(m: Option<int>, j: int)
    requires 2 <= j <= 10 && Above(j, m)
    ensures j in Curve(m) && Curve(m)[j] == MaxProbability
  {
  }

  /** For a threshold m in 1..10, order j <= m gets 0.9 * 0.5^(m - j + 1). */
  lemma CurveBelowThreshold(m: int, j: int)
    requires 1 <= m <= 10 && 1 <= j <= m
    ensures j in Curve(Some(m)) && Curve(Some(m))[j] == MaxProbability * RatePow(m - j + 1)
  {
    DecaysClosed(Some(m), j + 1);
  }

  /** The threshold order itself gets 0.45, not `max_probability`: the
      `j == min_stream` write is overwritten by the `j <= min_stream` one. */
  lemma CurveAtThreshold(m: int)
    requires 1 <= m <= 10
    ensures Curve(Some(m))[m] == 0.45
  {
    CurveBelowThreshold(m, m);
  }

  /** With a threshold above 10 the decay starts at order 10 itself. */
  lemma CurveHighThreshold(m: int, j: int)
    requires m >= 10 && 1 <= j <= 10
    ensures Curve(Some(m))[j] == MaxProbability * RatePow(11 - j)
  {
    DecaysClosed(Some(m), j + 1);
  }

  /** Order 1 is 0.45 whenever the threshold is null or below 1. */
  lemma CurveOrderOneLowThreshold(m: Option<int>)
    requires m.None? || m.value < 1
    ensures Curve(m)[1] == 0.45
  {
    DecaysClosed(m, 2);
  }

  /** A null threshold behaves exactly like any threshold of at most 0. */
  lemma CurveNullThreshold(m: int)
    requires m <= 0
    ensures Curve(None) == Curve(Some(m))
  {
    forall j | 1 <= j <= 10 ensures CurveAt(None, j) == CurveAt(Some(m), j) {
      DecaysClosed(None, j + 1);
      DecaysClosed(Some(m), j + 1);
    }
  }

  lemma {:induction false} DecaysAntitone(m: Option<int>, a: int, b: int)
    requires a <= b
    ensures Decays(m, b) <= Decays(m, a)
    decreases b - a
  {
    if a < b {
      DecaysAntitone(m, a + 1, b);
    }
  }

  /** Curve values never decrease with stream order. */
  lemma CurveMonotone(m: Option<int>, i: int, j: int)
    requires 1 <= i <= j <= 10
    ensures Curve(m)[i] <= Curve(m)[j]
  {
    if j == 1 || AtOrBelow(j, m) {
      if i < j {
        DecaysAntitone(m, i + 1, j + 1);
        RatePowAntitone(1 + Decays(m, j + 1), 1 + Decays(m, i + 1));
      }
    }
  }

  /** Every curve value is a probability in (0, 0.9]. */
  lemma CurveBounds(m: Option<int>, j: int)
    requires 1 <= j <= 10
    ensures 0.0 < Curve(m)[j] <= MaxProbability
  {
  }

  /** The curve for threshold 5. */
  lemma CurveForFive()
    ensures Curve(Some(5)) == map[10 := 0.9, 9 := 0.9, 8 := 0.9, 7 := 0.9, 6 := 0.9,
                                  5 := 0.45, 4 := 0.225, 3 := 0.1125, 2 := 0.05625, 1 := 0.028125]
  {
    var c := Curve(Some(5));
    var e := map[10 := 0.9, 9 := 0.9, 8 := 0.9, 7 := 0.9, 6 := 0.9,
                 5 := 0.45, 4 := 0.225, 3 := 0.1125, 2 := 0.05625, 1 := 0.028125];
    assert c.Keys == e.Keys;
    forall j | j in c ensures c[j] == e[j] {
      if j <= 5 {
        CurveBelowThreshold(5, j);
        assert RatePow(1) == 0.5 && RatePow(2) == 0.25 && RatePow(3) == 0.125;
        assert RatePow(4) == 0.0625 && RatePow(5) == 0.03125;
      }
    }
  }
}
