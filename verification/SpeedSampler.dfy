/** The encoder speed sampler: `Speed::Run` retries until it has eight usable pairs of angle
    readings, undoes the wrap-around of each pair and divides the summed angle by the summed time. */
module SpeedSampler {

  const COUNTS: int := 16383
  const WRAP: int := 10467
  const WANTED: nat := 8

  /** One pass of the loop: two angle readings and the microseconds between them. */
  datatype Pair = Pair(first: int, second: int, micros: int)

  predicate Usable(x: Pair) {
    x.first >= 0 && x.second >= 0 && 0 <= x.micros <= 2500
  }

  function UsableOf(stream: seq<Pair>): seq<Pair> {
    if stream == [] then []
    else UsableOf(stream[..|stream| - 1]) + (if Usable(stream[|stream| - 1]) then [stream[|stream| - 1]] else [])
  }

  /** The signed difference after correction for a pass through the zero angle. */
  function Unwrapped(x: Pair): int {
    var difference := (x.second - x.first) * -1;
    if difference < -WRAP then difference + COUNTS
    else if difference > WRAP then difference - COUNTS
    else difference
  }

  function Turned(xs: seq<Pair>): int {
    if xs == [] then 0 else Turned(xs[..|xs| - 1]) + Unwrapped(xs[|xs| - 1])
  }

  function Micros(xs: seq<Pair>): int {
    if xs == [] then 0 else Micros(xs[..|xs| - 1]) + xs[|xs| - 1].micros
  }

  // --- what unwrapping recovers ----------------------------------------------------------------

  /** `x` shows a displacement of `d` counts on the circle, sensor values being 14 bits wide. */
  predicate Shows(x: Pair, d: int) {
    0 <= x.first <= COUNTS && 0 <= x.second <= COUNTS && (x.first - x.second - d) % COUNTS == 0
  }

  lemma MultipleOfCounts(k: int, raw: int, d: int)
    requires raw - d == k * COUNTS && -COUNTS <= raw <= COUNTS && -8191 <= d <= 8191
    ensures raw == d || raw == d + COUNTS || raw == d - COUNTS
  {
    assert -2 < k < 2;
  }

  /** For a displacement of up to half a turn, unwrapping is right exactly if the readings did not
      pass through zero or the displacement is at most 5915 counts. */
  lemma UnwrapRecovers(x: Pair, d: int)
    requires Shows(x, d) && -8191 <= d <= 8191
    ensures Unwrapped(x) == d <==> x.first - x.second == d || -5915 <= d <= 5915
  {
    var raw := x.first - x.second;
    MultipleOfCounts((raw - d) / COUNTS, raw, d);
  }

  /** 5916 counts across zero are already misread. */
  lemma UnwrapLimit()
    ensures Shows(Pair(5915, 16382, 0), 5916) && Unwrapped(Pair(5915, 16382, 0)) != 5916
  {}

  function Sum(ds: seq<int>): int {
    if ds == [] then 0 else Sum(ds[..|ds| - 1]) + ds[|ds| - 1]
  }

  /** The displacements unwrapping gets right: up to half a turn without a pass through zero, up to
      5915 counts with one. */
  predicate Recovered(x: Pair, d: int) {
    Shows(x, d) && -8191 <= d <= 8191 && (x.first - x.second == d || -5915 <= d <= 5915)
  }

  /** The summed differences are the true net rotation if every displacement is one of these. */
  lemma {:induction false} NetRotation(xs: seq<Pair>, truth: seq<int>)
    requires |xs| == |truth|
    requires forall k :: 0 <= k < |xs| ==> Recovered(xs[k], truth[k])
    ensures Turned(xs) == Sum(truth)
  {
    if xs != [] {
      var n := |xs| - 1;
      NetRotation(xs[..n], truth[..n]);
      UnwrapRecovers(xs[n], truth[n]);
    }
  }

  lemma {:induction false} MicrosBound(xs: seq<Pair>)
    requires forall k :: 0 <= k < |xs| ==> Usable(xs[k])
    ensures 0 <= Micros(xs) <= 2500 * |xs|
    ensures Micros(xs) == 0 <==> forall k :: 0 <= k < |xs| ==> xs[k].micros == 0
  {
    if xs != [] {
      var n := |xs| - 1;
      MicrosBound(xs[..n]);
      assert xs[..n + 1] == xs;
      assert forall k :: 0 <= k < n ==> xs[..n][k] == xs[k];
      assert Usable(xs[n]);
    }
  }

  lemma {:induction false} UsableOfIsUsable(stream: seq<Pair>)
    ensures forall k :: 0 <= k < |UsableOf(stream)| ==> Usable(UsableOf(stream)[k])
  {
    if stream != [] {
      UsableOfIsUsable(stream[..|stream| - 1]);
    }
  }

  /** Later pairs only add to the usable ones. */
  lemma {:induction false} UsableGrows(stream: seq<Pair>, n: nat)
    requires n <= |stream|
    ensures UsableOf(stream[..n]) <= UsableOf(stream)
    decreases |stream| - n
  {
    if n < |stream| {
      assert stream[..n + 1][..n] == stream[..n];
      UsableGrows(stream, n + 1);
    } else {
      assert stream[..n] == stream;
    }
  }

  // --- the loop --------------------------------------------------------------------------------

  /** `speed_` in turns per second; a sum of zero microseconds gives no finite quotient. */
  datatype Velocity = Finite(turnsPerSecond: real) | NotFinite

  function VelocityOf(xs: seq<Pair>): Velocity {
    if Micros(xs) == 0 then NotFinite
    else Finite(Turned(xs) as real / 16383.0 / (Micros(xs) as real / 1000000.0))
  }

  /** The quotient fails exactly if no time was measured in any of the pairs. */
  lemma NoTime(xs: seq<Pair>)
    requires forall k :: 0 <= k < |xs| ==> Usable(xs[k])
    ensures VelocityOf(xs) == NotFinite <==> forall k :: 0 <= k < |xs| ==> xs[k].micros == 0
  {
    MicrosBound(xs);
  }

  /** That can happen: eight readings of a turning wheel within the same microsecond each. */
  lemma ZeroTime(x: Pair, stream: seq<Pair>)
    requires x == Pair(200, 100, 0) && stream == [x, x, x, x, x, x, x, x]
    ensures UsableOf(stream) == stream && |stream| == WANTED
    ensures VelocityOf(UsableOf(stream)[..WANTED]) == NotFinite
  {
    AllUsable(stream);
    NoTime(stream);
    assert stream[..WANTED] == stream;
  }

  lemma {:induction false} AllUsable(stream: seq<Pair>)
    requires forall k :: 0 <= k < |stream| ==> Usable(stream[k])
    ensures UsableOf(stream) == stream
  {
    if stream != [] {
      AllUsable(stream[..|stream| - 1]);
    }
  }

  /** The displacements scaled to microturns: `v` turns per second for `micros` microseconds. */
  function Microturns(v: real, micros: int): real {
    v * 16383.0 * micros as real
  }

  lemma ScaledTime(v: real, a: int, b: int)
    ensures Microturns(v, a + b) == Microturns(v, a) + Microturns(v, b)
  {
    assert (a + b) as real == a as real + b as real;
  }

  lemma {:induction false} TurnedBetween(xs: seq<Pair>, truth: seq<int>, low: real, high: real)
    requires |xs| == |truth|
    requires forall k :: 0 <= k < |xs| ==>
               Recovered(xs[k], truth[k]) && Microturns(low, xs[k].micros) <= truth[k] as real * 1000000.0 <= Microturns(high, xs[k].micros)
    ensures Microturns(low, Micros(xs)) <= Turned(xs) as real * 1000000.0 <= Microturns(high, Micros(xs))
  {
    if xs != [] {
      var n := |xs| - 1;
      hide Microturns, Recovered;
      TurnedBetween(xs[..n], truth[..n], low, high);
      TruthIsUnwrapped(xs[n], truth[n]);
      ScaledTime(low, Micros(xs[..n]), xs[n].micros);
      ScaledTime(high, Micros(xs[..n]), xs[n].micros);
    } else {
      assert Microturns(low, 0) == 0.0 == Microturns(high, 0);
    }
  }

  lemma TruthIsUnwrapped(x: Pair, d: int)
    requires Recovered(x, d)
    ensures Unwrapped(x) == d
  {
    UnwrapRecovers(x, d);
  }

  lemma MicroturnsGrow(u: real, v: real, micros: int)
    requires u < v && micros > 0
    ensures Microturns(u, micros) < Microturns(v, micros)
  {
    var m := 16383.0 * micros as real;
    assert Microturns(v, micros) - Microturns(u, micros) == (v - u) * m;
    Positive(v - u, m);
  }

  lemma Positive(a: real, b: real)
    requires a > 0.0 && b > 0.0
    ensures a * b > 0.0
  {}

  lemma QuotientTimes(total: int, micros: int)
    requires micros > 0
    ensures Microturns(total as real / 16383.0 / (micros as real / 1000000.0), micros) == total as real * 1000000.0
  {
    var m := micros as real;
    var turns, seconds := total as real / 16383.0, m / 1000000.0;
    assert turns / seconds * seconds == turns;
    assert m == seconds * 1000000.0;
    assert Microturns(turns / seconds, micros) == turns / seconds * seconds * 1000000.0 * 16383.0;
  }

  lemma Quotient(total: int, micros: int, low: real, high: real)
    requires micros > 0 && Microturns(low, micros) <= total as real * 1000000.0 <= Microturns(high, micros)
    ensures low <= total as real / 16383.0 / (micros as real / 1000000.0) <= high
  {
    hide Microturns;
    var v := total as real / 16383.0 / (micros as real / 1000000.0);
    QuotientTimes(total, micros);
    if v < low {
      MicroturnsGrow(v, low, micros);
    } else if high < v {
      MicroturnsGrow(high, v, micros);
    }
  }

  /** The published speed lies between the slowest and the fastest of the sampled ones. */
  lemma SpeedBetween(xs: seq<Pair>, truth: seq<int>, low: real, high: real)
    requires |xs| == |truth| && Micros(xs) > 0
    requires forall k :: 0 <= k < |xs| ==>
               Recovered(xs[k], truth[k]) && Microturns(low, xs[k].micros) <= truth[k] as real * 1000000.0 <= Microturns(high, xs[k].micros)
    ensures VelocityOf(xs).Finite? && low <= VelocityOf(xs).turnsPerSecond <= high
  {
    TurnedBetween(xs, truth, low, high);
    Quotient(Turned(xs), Micros(xs), low, high);
  }

  /** A wheel of constant speed `v`, in turns per second, is measured exactly. */
  lemma ConstantSpeed(xs: seq<Pair>, truth: seq<int>, v: real)
    requires |xs| == |truth| && Micros(xs) > 0
    requires forall k :: 0 <= k < |xs| ==> Recovered(xs[k], truth[k]) && truth[k] as real * 1000000.0 == v * 16383.0 * xs[k].micros as real
    ensures VelocityOf(xs) == Finite(v)
  {
    SpeedBetween(xs, truth, v, v);
  }

  /** Exactly these pairs are used: both readings valid, at most 2.5 ms apart. */
  lemma UsableBounds(x: Pair)
    ensures Usable(x) <==> x.first >= 0 && x.second >= 0 && 0.0 <= x.micros as real / 1000000.0 <= 0.0025
  {}

  class Speed {
    var result1: int
    var result2: int
    var difference: int
    var differenceTotal: int
    var timeTaken: real
    var timeTotal: real
    var published: Velocity

    constructor ()
    {
      result1, result2, difference, differenceTotal := 0, 0, 0, 0;
      timeTaken, timeTotal := 0.0, 0.0;
      published := Finite(0.0);
    }

    /** The loop body: reject the pair, or add its corrected difference and its time. */
    method Take(x: Pair) returns (accepted: bool)
      modifies `result1, `result2, `difference, `differenceTotal, `timeTaken, `timeTotal
      ensures accepted <==> Usable(x)
      ensures result1 == x.first && result2 == x.second
      ensures differenceTotal == old(differenceTotal) + if accepted then Unwrapped(x) else 0
      ensures timeTotal == old(timeTotal) + if accepted then x.micros as real / 1000000.0 else 0.0
    {
      result1 := x.first;
      result2 := x.second;
      if result1 < 0 || result2 < 0 {
        return false;
      }
      timeTaken := x.micros as real / 1000000.0;
      if timeTaken > 0.0025 || timeTaken < 0.0 {
        return false;
      }
      difference := (result2 - result1) * -1;
      if difference < -WRAP {
        difference := difference + COUNTS;
      } else if difference > WRAP {
        difference := difference - COUNTS;
      }
      differenceTotal := differenceTotal + difference;
      timeTotal := timeTotal + timeTaken;
      return true;
    }

    /** `Run` on the readings the sensor will deliver. It returns at all only if eight usable pairs
        come; it then has summed exactly the first eight, and always publishes: the final test for
        a reading of -1 never succeeds. */
    method Run(stream: seq<Pair>) returns (used: nat)
      requires |UsableOf(stream)| >= WANTED
      modifies this
      ensures used <= |stream| && UsableOf(stream[..used]) == UsableOf(stream)[..WANTED]
      ensures differenceTotal == Turned(UsableOf(stream)[..WANTED])
      ensures timeTotal == Micros(UsableOf(stream)[..WANTED]) as real / 1000000.0 && 0.0 <= timeTotal <= 0.02
      ensures published == VelocityOf(UsableOf(stream)[..WANTED])
    {
      differenceTotal := 0;
      timeTotal := 0.0;
      used := 0;
      var i := 1;
      assert stream[..0] == [];
      while i <= WANTED
        invariant 1 <= i <= WANTED + 1 && used <= |stream|
        invariant |UsableOf(stream[..used])| == i - 1
        invariant differenceTotal == Turned(UsableOf(stream[..used]))
        invariant timeTotal == Micros(UsableOf(stream[..used])) as real / 1000000.0
        invariant i > WANTED ==> result1 >= 0 && result2 >= 0
        decreases |stream| - used
      {
        ghost var before := UsableOf(stream[..used]);
        NotExhausted(stream, used);
        var x := stream[used];
        UsableAppend(stream, used);
        SumsAppend(before, x);
        used := used + 1;
        var accepted := Take(x);
        if accepted {
          i := i + 1;
        }
      }
      UsableGrows(stream, used);
      assert UsableOf(stream[..used]) == UsableOf(stream)[..WANTED];
      UsableOfIsUsable(stream[..used]);
      MicrosBound(UsableOf(stream[..used]));

      var speed := if timeTotal == 0.0 then NotFinite else Finite(differenceTotal as real / 16383.0 / timeTotal);
      if result1 == -1 || result2 == -1 {
        assert false;
      } else {
        published := speed;
      }
    }
  }

  lemma UsableAppend(stream: seq<Pair>, n: nat)
    requires n < |stream|
    ensures Usable(stream[n]) ==> UsableOf(stream[..n + 1]) == UsableOf(stream[..n]) + [stream[n]]
    ensures !Usable(stream[n]) ==> UsableOf(stream[..n + 1]) == UsableOf(stream[..n])
  {
    assert stream[..n + 1][..n] == stream[..n];
  }

  lemma SumsAppend(xs: seq<Pair>, x: Pair)
    ensures Turned(xs + [x]) == Turned(xs) + Unwrapped(x)
    ensures Micros(xs + [x]) == Micros(xs) + x.micros
  {
    assert (xs + [x])[..|xs|] == xs;
  }

  lemma NotExhausted(stream: seq<Pair>, used: nat)
    requires used <= |stream| && |UsableOf(stream[..used])| < |UsableOf(stream)|
    ensures used < |stream|
  {
    assert stream[..|stream|] == stream;
  }
}
