/** Laws of the controller over whole sequences of calls. */
module MiniPidLaws {
  import opened MiniPid

  /** What one two-argument `getOutput` is given. */
  datatype Sample = Sample(actual: real, setpoint: real)

  function OutputOf(c: Pid, x: Sample): real {
    Output(c, x.actual, x.setpoint)
  }

  function PriorOf(c: Pid, x: Sample): real {
    PriorOutput(c, x.actual, x.setpoint)
  }

  /** The controller after a whole history of samples. */
  function After(c: Pid, history: seq<Sample>): Pid {
    if history == [] then c else
    var x := history[|history| - 1];
    AfterOutput(After(c, history[..|history| - 1]), x.actual, x.setpoint)
  }

  /** Settings and gains survive every sample. */
  lemma {:induction false} SettingsKept(c: Pid, history: seq<Sample>)
    ensures var e := After(c, history);
            e == c.(setpoint := e.setpoint, lastActual := e.lastActual, firstRun := e.firstRun,
                 errorSum := e.errorSum, lastOutput := e.lastOutput)
  {
    if history != [] {
      SettingsKept(c, history[..|history| - 1]);
    }
  }

  // --- output limits and filter ----------------------------------------------------------------

  /** How far a value lies outside the output limits. */
  function Excess(c: Pid, value: real): real {
    if value > c.maxOutput then value - c.maxOutput
    else if value < c.minOutput then c.minOutput - value
    else 0.0
  }

  predicate Filtering(c: Pid) {
    c.minOutput < c.maxOutput && 0.0 <= c.outputFilter < 1.0
  }

  lemma NonNegative(a: real, b: real)
    requires 0.0 <= a && 0.0 <= b
    ensures 0.0 <= a * b
  {}

  lemma BlendUpper(prior: real, current: real, f: real, max: real)
    requires 0.0 <= f < 1.0 && current <= max
    ensures Blend(prior, current, f) - max <= f * (prior - max)
  {
    NonNegative(1.0 - f, max - current);
  }

  lemma BlendLower(prior: real, current: real, f: real, min: real)
    requires 0.0 <= f < 1.0 && min <= current
    ensures min - Blend(prior, current, f) <= f * (min - prior)
  {
    NonNegative(1.0 - f, current - min);
  }

  lemma ScaledExcess(f: real, a: real, b: real)
    requires 0.0 <= f && a <= b && 0.0 <= b
    ensures f * a <= f * b && 0.0 <= f * b
  {
    NonNegative(f, b - a);
    NonNegative(f, b);
  }

  lemma ExcessOf(c: Pid, value: real, bound: real)
    requires Filtering(c)
    ensures value - c.maxOutput <= Excess(c, value) && c.minOutput - value <= Excess(c, value) && 0.0 <= Excess(c, value)
    ensures value - c.maxOutput <= bound && c.minOutput - value <= bound && 0.0 <= bound ==> Excess(c, value) <= bound
  {}

  lemma ScaledBounds(f: real, prior: real, blend: real, min: real, max: real, excess: real)
    requires 0.0 <= f && 0.0 <= excess && prior - max <= excess && min - prior <= excess
    requires blend - max <= f * (prior - max) && min - blend <= f * (min - prior)
    ensures blend - max <= f * excess && min - blend <= f * excess && 0.0 <= f * excess
  {
    ScaledExcess(f, prior - max, excess);
    ScaledExcess(f, min - prior, excess);
  }

  /** Blending with a value inside the limits shrinks the excess by the filter strength. */
  lemma BlendExcess(c: Pid, prior: real, current: real)
    requires Filtering(c) && c.minOutput <= current <= c.maxOutput
    ensures Excess(c, Blend(prior, current, c.outputFilter)) <= c.outputFilter * Excess(c, prior)
  {
    hide Blend, Excess;
    var f, blend, excess := c.outputFilter, Blend(prior, current, c.outputFilter), Excess(c, prior);
    BlendUpper(prior, current, f, c.maxOutput);
    BlendLower(prior, current, f, c.minOutput);
    ExcessOf(c, prior, 0.0);
    ScaledBounds(f, prior, blend, c.minOutput, c.maxOutput, excess);
    ExcessOf(c, blend, f * excess);
  }

  predicate SameLimits(c: Pid, e: Pid) {
    c.minOutput == e.minOutput && c.maxOutput == e.maxOutput && c.outputFilter == e.outputFilter
  }

  lemma OutputExcess(c: Pid, e: Pid, x: Sample)
    requires Filtering(c) && SameLimits(c, e)
    ensures Excess(c, OutputOf(e, x)) <= c.outputFilter * Excess(c, PriorOf(e, x))
  {
    var prior, limited := PriorOf(e, x), LimitedOutput(e, x.actual, x.setpoint);
    BlendExcess(c, prior, limited);
    assert Blend(prior, limited, 0.0) == limited;
  }

  function Power(f: real, n: nat): real {
    if n == 0 then 1.0 else f * Power(f, n - 1)
  }

  /** `first` shrunk n times by the factor f. */
  function Shrunk(f: real, n: nat, first: real): real {
    if n == 0 then first else Shrunk(f, n - 1, f * first)
  }

  lemma ShrunkStep(f: real, n: nat, first: real)
    requires n > 0
    ensures Shrunk(f, n, first) == Shrunk(f, n - 1, f * first)
    ensures Shrunk(f, 0, f * first) == f * first
  {}

  lemma {:induction false} ShrunkIsPower(f: real, n: nat, first: real)
    ensures Shrunk(f, n, first) == Power(f, n) * first
  {
    if n > 0 {
      ShrunkIsPower(f, n - 1, f * first);
      assert Power(f, n - 1) * (f * first) == (f * Power(f, n - 1)) * first;
    }
  }

  /** The output of the last call. */
  function LastOutput(c: Pid, history: seq<Sample>): real
    requires history != []
    decreases |history|
  {
    if |history| == 1 then OutputOf(c, history[0])
    else LastOutput(AfterOutput(c, history[0].actual, history[0].setpoint), history[1..])
  }

  lemma NextCall(c: Pid, e: Pid, x: Sample, first: real) returns (next: Pid)
    requires Filtering(c) && SameLimits(c, e) && Excess(c, PriorOf(e, x)) <= first
    ensures next == AfterOutput(e, x.actual, x.setpoint)
    ensures SameLimits(c, next) && !next.firstRun && next.lastOutput == OutputOf(e, x)
    ensures Excess(c, next.lastOutput) <= c.outputFilter * first
  {
    next := AfterOutput(e, x.actual, x.setpoint);
    OutputExcess(c, e, x);
    NonNegative(c.outputFilter, first - Excess(c, PriorOf(e, x)));
  }

  lemma {:induction false} Decay(c: Pid, e: Pid, history: seq<Sample>, first: real)
    requires Filtering(c) && SameLimits(c, e) && history != []
    requires Excess(c, PriorOf(e, history[0])) <= first
    ensures Excess(c, LastOutput(e, history)) <= Shrunk(c.outputFilter, |history|, first)
    decreases |history|
  {
    var f, n := c.outputFilter, |history|;
    var next := NextCall(c, e, history[0], first);
    ShrunkStep(f, n, first);
    if n > 1 {
      Decay(c, next, history[1..], f * first);
      assert LastOutput(e, history) == LastOutput(next, history[1..]);
    } else {
      assert LastOutput(e, history) == next.lastOutput;
    }
  }

  /** With limits and a filter set, the output after n calls lies outside the limits by at most
      `f^n` times what the output before the first call did. */
  lemma FilteredLimit(c: Pid, history: seq<Sample>, first: real)
    requires Filtering(c) && history != [] && Excess(c, PriorOf(c, history[0])) <= first
    ensures Excess(c, LastOutput(c, history)) <= Power(c.outputFilter, |history|) * first
  {
    hide LastOutput, Excess, Power, Shrunk;
    Decay(c, c, history, first);
    ShrunkIsPower(c.outputFilter, |history|, first);
  }

  lemma {:induction false} ShrunkZero(f: real, n: nat, first: real)
    requires first == 0.0 || (f == 0.0 && n > 0)
    ensures Shrunk(f, n, first) == 0.0
  {
    if n > 0 {
      ShrunkZero(f, n - 1, f * first);
    }
  }

  /** Once inside the limits the output stays inside, and without a filter it always is. */
  lemma StaysInside(c: Pid, history: seq<Sample>)
    requires Filtering(c) && history != []
    requires c.outputFilter == 0.0 || c.minOutput <= PriorOf(c, history[0]) <= c.maxOutput
    ensures c.minOutput <= LastOutput(c, history) <= c.maxOutput
  {
    var first := Excess(c, PriorOf(c, history[0]));
    Decay(c, c, history, first);
    ShrunkZero(c.outputFilter, |history|, first);
  }

  // --- the textbook controller -----------------------------------------------------------------

  /** Limits, ramp, filter, setpoint range and integral cap all off. */
  predicate Plain(c: Pid) {
    && c.minOutput == c.maxOutput && c.outputRampRate == 0.0 && c.outputFilter == 0.0
    && c.setpointRange == 0.0 && c.maxIOutput == 0.0
  }

  function ErrorTotal(history: seq<Sample>): real {
    if history == [] then 0.0 else
    var x := history[|history| - 1];
    ErrorTotal(history[..|history| - 1]) + (x.setpoint - x.actual)
  }

  lemma {:induction false} SumOfErrors(c: Pid, history: seq<Sample>)
    requires Plain(c) && c.firstRun && c.errorSum == 0.0
    ensures After(c, history).errorSum == ErrorTotal(history)
    ensures After(c, history).firstRun == (history == [])
    ensures history != [] ==> After(c, history).lastActual == history[|history| - 1].actual
  {
    if history != [] {
      SumOfErrors(c, history[..|history| - 1]);
      SettingsKept(c, history[..|history| - 1]);
    }
  }

  /** A plain new controller computes F*sp + P*e + I*(sum of earlier errors) - D*(change of the
      measured value), the first call having no change. */
  lemma TextbookPid(c: Pid, history: seq<Sample>, x: Sample)
    requires Plain(c) && c.firstRun && c.errorSum == 0.0
    ensures var previous := if history == [] then x.actual else history[|history| - 1].actual;
            OutputOf(After(c, history), x)
            == c.f * x.setpoint + c.p * (x.setpoint - x.actual) + c.i * ErrorTotal(history) - c.d * (x.actual - previous)
  {
    hide After, ErrorTotal, OutputOf;
    SumOfErrors(c, history);
    SettingsKept(c, history);
    var e := After(c, history);
    var previous := if history == [] then x.actual else history[|history| - 1].actual;
    PlainOutput(c, e, x, ErrorTotal(history), previous);
  }

  lemma PlainOutput(c: Pid, e: Pid, x: Sample, total: real, previous: real)
    requires Plain(e) && e.p == c.p && e.i == c.i && e.d == c.d && e.f == c.f
    requires e.errorSum == total && PriorActual(e, x.actual) == previous
    ensures OutputOf(e, x)
            == c.f * x.setpoint + c.p * (x.setpoint - x.actual) + c.i * total - c.d * (x.actual - previous)
  {
    assert FeedForwardTerm(e, x.actual, x.setpoint) == c.f * x.setpoint;
    assert ProportionalTerm(e, x.actual, x.setpoint) == c.p * (x.setpoint - x.actual);
    assert IntegralTerm(e) == c.i * total;
    assert DerivativeTerm(e, x.actual) == -c.d * (x.actual - previous);
    assert OutputOf(e, x) == RawOutput(e, x.actual, x.setpoint);
  }

  // --- ramp ------------------------------------------------------------------------------------

  function Abs(x: real): real {
    if x < 0.0 then -x else x
  }

  /** How far ramp and limits move the output: at most the rate, unless the limits pull further. */
  lemma RestrictedMove(c: Pid, raw: real, prior: real)
    requires c.outputRampRate > 0.0 && c.minOutput <= c.maxOutput
    ensures var move := Abs(Restricted(c, raw, prior) - prior);
            && 0.0 <= move && 0.0 <= Excess(c, prior)
            && (c.minOutput == c.maxOutput ==> move <= c.outputRampRate)
            && (c.minOutput < c.maxOutput ==> Excess(c, prior) <= move && (move <= c.outputRampRate || move == Excess(c, prior)))
  {}

  lemma ScaledAbs(k: real, x: real)
    requires 0.0 <= k
    ensures Abs(k * x) == k * Abs(x)
  {
    if x < 0.0 {
      NonNegative(k, -x);
      assert k * -x == -(k * x);
    } else {
      NonNegative(k, x);
    }
  }

  /** The filter scales the move by the rest of its strength. */
  lemma BlendMove(prior: real, current: real, f: real)
    requires 0.0 <= f < 1.0
    ensures Abs(Blend(prior, current, f) - prior) == (1.0 - f) * Abs(current - prior)
  {
    assert Blend(prior, current, f) - prior == (1.0 - f) * (current - prior);
    ScaledAbs(1.0 - f, current - prior);
  }

  lemma WithinRate(k: real, move: real, excess: real, rate: real)
    requires 0.0 <= k <= 1.0 && 0.0 <= excess <= move && (move <= rate || move == excess)
    ensures k * move <= rate <==> k * excess <= rate
  {
    if move != excess {
      NonNegative(1.0 - k, move);
      assert (1.0 - k) * move == move - k * move;
      NonNegative(k, move - excess);
      assert k * (move - excess) == k * move - k * excess;
    }
  }

  lemma Shorter(k: real, move: real)
    requires 0.0 <= k <= 1.0 && 0.0 <= move
    ensures k * move <= move
  {
    NonNegative(1.0 - k, move);
    assert (1.0 - k) * move == move - k * move;
  }

  /** Settings every sequence of calls keeps: reversed limits and filters outside [0, 1) are refused. */
  predicate Sound(c: Pid) {
    c.minOutput <= c.maxOutput && 0.0 <= c.outputFilter < 1.0
  }

  /** The previous output lies so close to the limits that being pulled back stays within the rate. */
  predicate WithinReach(c: Pid, prior: real) {
    c.minOutput == c.maxOutput || (1.0 - c.outputFilter) * Excess(c, prior) <= c.outputRampRate
  }

  lemma FilteredMove(c: Pid, x: Sample)
    requires Sound(c)
    ensures Abs(OutputOf(c, x) - PriorOf(c, x))
            == (1.0 - c.outputFilter) * Abs(LimitedOutput(c, x.actual, x.setpoint) - PriorOf(c, x))
  {
    hide LimitedOutput, PriorOutput;
    var prior, limited := PriorOf(c, x), LimitedOutput(c, x.actual, x.setpoint);
    BlendMove(prior, limited, c.outputFilter);
  }

  lemma MoveWithin(f: real, move: real, excess: real, rate: real, off: bool)
    requires 0.0 <= f < 1.0 && 0.0 <= move && (off ==> move <= rate)
    requires !off ==> 0.0 <= excess <= move && (move <= rate || move == excess)
    ensures (1.0 - f) * move <= rate <==> off || (1.0 - f) * excess <= rate
  {
    if off {
      Shorter(1.0 - f, move);
    } else {
      WithinRate(1.0 - f, move, excess, rate);
    }
  }

  /** One call keeps to the ramp exactly if the previous output allows it. */
  lemma RampStep(c: Pid, x: Sample)
    requires c.outputRampRate > 0.0 && Sound(c)
    ensures Abs(OutputOf(c, x) - PriorOf(c, x)) <= c.outputRampRate <==> WithinReach(c, PriorOf(c, x))
  {
    var prior, limited := PriorOf(c, x), LimitedOutput(c, x.actual, x.setpoint);
    hide RawOutput, PriorOutput, Restricted, OutputOf, Excess;
    FilteredMove(c, x);
    RestrictedMove(c, RawOutput(c, x.actual, x.setpoint), prior);
    hide Abs, LimitedOutput;
    MoveWithin(c.outputFilter, Abs(limited - prior), Excess(c, prior), c.outputRampRate, c.minOutput == c.maxOutput);
  }

  lemma StaysWithinReach(c: Pid, x: Sample)
    requires Sound(c) && WithinReach(c, PriorOf(c, x))
    ensures WithinReach(c, OutputOf(c, x))
  {
    hide OutputOf, PriorOf, Excess, WithinReach;
    if c.minOutput != c.maxOutput {
      OutputExcess(c, c, x);
      CloserWithinReach(c, PriorOf(c, x), OutputOf(c, x));
    } else {
      LimitsOff(c, OutputOf(c, x));
    }
  }

  lemma LimitsOff(c: Pid, value: real)
    requires c.minOutput == c.maxOutput
    ensures WithinReach(c, value)
  {}

  lemma CloserWithinReach(c: Pid, prior: real, value: real)
    requires Filtering(c) && WithinReach(c, prior) && Excess(c, value) <= c.outputFilter * Excess(c, prior)
    ensures WithinReach(c, value)
  {
    ExcessOf(c, prior, 0.0);
    hide Excess;
    ShrunkMove(c.outputFilter, Excess(c, prior), Excess(c, value));
  }

  lemma ShrunkMove(f: real, before: real, after: real)
    requires 0.0 <= f < 1.0 && 0.0 <= before && after <= f * before
    ensures (1.0 - f) * after <= (1.0 - f) * before
  {
    Shorter(f, before);
    NonNegative(1.0 - f, before - after);
  }

  /** Each output of a run differs from the one before by at most `rate`. */
  predicate Ramped(c: Pid, history: seq<Sample>, rate: real)
    decreases |history|
  {
    history == [] || (
      && Abs(OutputOf(c, history[0]) - PriorOf(c, history[0])) <= rate
      && Ramped(AfterOutput(c, history[0].actual, history[0].setpoint), history[1..], rate))
  }

  /** Over every run the outputs keep to the ramp exactly if the limits are off or the output before
      the first call lies outside them by no more than what one filtered call may move. */
  lemma {:induction false} RampHolds(c: Pid, history: seq<Sample>)
    requires c.outputRampRate > 0.0 && Sound(c) && history != []
    ensures Ramped(c, history, c.outputRampRate) <==> WithinReach(c, PriorOf(c, history[0]))
    decreases |history|
  {
    hide Output, PriorOutput, NextErrorSum, WithinReach;
    var x, rest := history[0], history[1..];
    RampStep(c, x);
    if WithinReach(c, PriorOf(c, x)) && rest != [] {
      StaysWithinReach(c, x);
      var next := AfterOutput(c, x.actual, x.setpoint);
      PriorIsLast(next, rest[0]);
      SameReach(c, next, OutputOf(c, x));
      RampHolds(next, rest);
    }
  }

  lemma PriorIsLast(c: Pid, x: Sample)
    requires !c.firstRun
    ensures PriorOf(c, x) == c.lastOutput
  {}

  lemma SameReach(c: Pid, e: Pid, value: real)
    requires SameLimits(c, e) && c.outputRampRate == e.outputRampRate
    ensures WithinReach(c, value) == WithinReach(e, value)
  {}

  // --- anti-windup -----------------------------------------------------------------------------

  /** Strictly inside both the output limits and the ramp, where these are on. */
  predicate Unrestricted(c: Pid, raw: real, prior: real) {
    && (c.minOutput == c.maxOutput || c.minOutput < raw < c.maxOutput)
    && (c.outputRampRate == 0.0 || prior - c.outputRampRate < raw < prior + c.outputRampRate)
  }

  /** A call adds its error to the sum exactly if the raw output is strictly inside and the cap
      leaves the new sum alone, or the output is not inside and there was no sum to lose. */
  lemma Accumulates(c: Pid, error: real, raw: real, prior: real)
    requires c.maxIOutput != 0.0 ==> c.maxError >= 0.0
    ensures ErrorSumAfter(c, error, raw, prior) == c.errorSum + error
            <==> if Unrestricted(c, raw, prior)
                 then c.maxIOutput == 0.0 || -c.maxError <= c.errorSum + error <= c.maxError
                 else c.errorSum == 0.0
  {}

  /** Without a cap: exactly if it is inside or there was no sum to lose. */
  lemma AccumulatesUncapped(c: Pid, error: real, raw: real, prior: real)
    requires c.maxIOutput == 0.0
    ensures ErrorSumAfter(c, error, raw, prior) == c.errorSum + error
            <==> c.errorSum == 0.0 || Unrestricted(c, raw, prior)
  {
    Accumulates(c, error, raw, prior);
  }

  /** Exactly at a limit the sum starts over, although the limit does not change the output. */
  lemma AtLimitStartsOver(c: Pid, error: real, raw: real, prior: real)
    requires c.minOutput < c.maxOutput && (raw == c.minOutput || raw == c.maxOutput)
    ensures ErrorSumAfter(c, error, raw, prior) == error
    ensures c.outputRampRate == 0.0 ==> Restricted(c, raw, prior) == raw
  {}

  /** The cap bounds the sum while outputs are inside; a restart may exceed it by its error alone. */
  lemma CapBoundsSum(c: Pid, error: real, raw: real, prior: real)
    requires c.maxIOutput != 0.0 && c.maxError >= 0.0
    ensures -c.maxError <= ErrorSumAfter(c, error, raw, prior) <= c.maxError
            <==> Unrestricted(c, raw, prior) || -c.maxError <= error <= c.maxError
  {}

  // --- changing the integral gain --------------------------------------------------------------

  lemma NonZero(a: real, b: real)
    requires a != 0.0 && b != 0.0
    ensures a * b != 0.0
  {}

  lemma Rescaled(sum: real, before: real, after: real)
    requires after != 0.0
    ensures after * (sum * before / after) == before * sum
    ensures -after * (sum * before / after) == -(before * sum)
  {
    var q := sum * before / after;
    assert q * after == sum * before;
    assert -after * q == -(q * after);
  }

  /** Contribution of the integral term under a cap, zero meaning none. A negative cap leaves two
      values only. */
  function Capped(cap: real, product: real): real {
    if cap != 0.0 then Clamp(product, -cap, cap) else product
  }

  lemma CappedSame(cap: real, u: real, v: real)
    requires u == v || u == -v || v == 0.0
    ensures Capped(cap, u) == Capped(cap, v) <==> if cap >= 0.0 then u == v else (u > cap <==> v > cap)
  {}

  /** `setI` rescales the error sum so that the integral term does not jump. It succeeds exactly if
      there was an integral gain and the new one has the sign the controller wants, or if nothing
      had accumulated. A cap does not hide a jump, unless it is negative, when all that counts is
      the side of the cap. */
  lemma SetIKeepsTerm(c: Pid, i: real)
    requires i != 0.0
    ensures IntegralTerm(WithI(c, i)) == IntegralTerm(c)
            <==> if c.maxIOutput >= 0.0 then c.errorSum == 0.0 || (c.i != 0.0 && Signed(i, c.reversed) == i)
                 else (Product(WithI(c, i)) > c.maxIOutput <==> Product(c) > c.maxIOutput)
  {
    hide WithI, Capped, Signed, Product;
    var e := WithI(c, i);
    SignedGain(c, i);
    TermIsCapped(c);
    TermIsCapped(e);
    ProductAfter(c, i);
    CappedSame(c.maxIOutput, Product(e), Product(c));
  }

  function Product(c: Pid): real {
    c.i * c.errorSum
  }

  lemma TermIsCapped(c: Pid)
    ensures IntegralTerm(c) == Capped(c.maxIOutput, Product(c))
  {}

  lemma ProductAfter(c: Pid, i: real)
    requires i != 0.0
    ensures var e := WithI(c, i);
            && (Product(e) == Product(c) <==> c.errorSum == 0.0 || (c.i != 0.0 && Signed(i, c.reversed) == i))
            && (Product(e) == Product(c) || Product(e) == -Product(c) || Product(c) == 0.0)
  {
    hide WithI, Signed;
    var e := WithI(c, i);
    SignedGain(c, i);
    Contribution(c.errorSum, c.i, i, e.i, e.errorSum);
  }

  lemma SignedGain(c: Pid, i: real)
    requires i != 0.0
    ensures WithI(c, i).i == Signed(i, c.reversed) && (WithI(c, i).i == i || WithI(c, i).i == -i)
    ensures WithI(c, i).errorSum == if c.i != 0.0 then c.errorSum * c.i / i else c.errorSum
    ensures WithI(c, i).maxIOutput == c.maxIOutput
  {}

  lemma Contribution(sum: real, before: real, i: real, after: real, scaled: real)
    requires i != 0.0 && (after == i || after == -i)
    requires scaled == if before != 0.0 then sum * before / i else sum
    ensures after * scaled == before * sum <==> sum == 0.0 || (before != 0.0 && after == i)
    ensures after * scaled == before * sum || after * scaled == -(before * sum) || before * sum == 0.0
  {
    if sum == 0.0 {
      assert scaled == 0.0;
    } else if before == 0.0 {
      NonZero(after, sum);
    } else {
      Rescaled(sum, before, i);
      NonZero(before, sum);
    }
  }

  // --- reset -----------------------------------------------------------------------------------

  /** Any call a client may make. `GetAt` and `GetAgain` are `getOutput` with one argument and with
      none: they reuse the last setpoint, and the last measured value. A `setI` that would divide by
      zero is taken to change nothing. */
  datatype Call =
    | Get(x: Sample)
    | GetAt(actual: real)
    | GetAgain
    | SetPid(p: real, i: real, d: real)
    | SetI(gain: real)
    | SetMaxI(maximum: real)
    | SetLimits(minimum: real, maximum: real)
    | SetFilter(strength: real)
    | SetRamp(rate: real)
    | SetRange(range: real)
    | SetReversed(reversed: bool)
    | SetSetpoint(setpoint: real)
    | Reset

  /** The sample on which a `getOutput` of any form works. */
  function SampleOf(c: Pid, call: Call): Sample {
    match call
    case Get(x) => x
    case GetAt(actual) => Sample(actual, c.setpoint)
    case _ => Sample(c.lastActual, c.setpoint)
  }

  predicate Asks(call: Call) {
    call.Get? || call.GetAt? || call.GetAgain?
  }

  function Configured(c: Pid, call: Call): Pid {
    match call
    case SetPid(p, i, d) => WithSigns(c.(p := p, i := i, d := d))
    case SetI(gain) => if CanSetI(c, gain) then WithI(c, gain) else c
    case SetMaxI(maximum) => WithMaxIOutput(c, maximum)
    case SetLimits(minimum, maximum) => WithOutputLimits(c, minimum, maximum)
    case SetFilter(strength) => WithOutputFilter(c, strength)
    case SetRamp(rate) => c.(outputRampRate := rate)
    case SetRange(range) => c.(setpointRange := range)
    case SetReversed(reversed) => c.(reversed := reversed)
    case SetSetpoint(setpoint) => c.(setpoint := setpoint)
    case _ => AfterReset(c)
  }

  function Apply(c: Pid, call: Call): Pid {
    if Asks(call) then AfterOutput(c, SampleOf(c, call).actual, SampleOf(c, call).setpoint) else Configured(c, call)
  }

  function ApplyAll(c: Pid, calls: seq<Call>): Pid
    decreases |calls|
  {
    if calls == [] then c else ApplyAll(Apply(c, calls[0]), calls[1..])
  }

  /** The answers a client sees. */
  function Answers(c: Pid, calls: seq<Call>): seq<real>
    decreases |calls|
  {
    if calls == [] then [] else
    (if Asks(calls[0]) then [OutputOf(c, SampleOf(c, calls[0]))] else []) + Answers(Apply(c, calls[0]), calls[1..])
  }

  /** A new controller with the same configuration and no past. */
  function Renewed(c: Pid): Pid {
    c.(errorSum := 0.0, setpoint := 0.0, lastActual := 0.0, firstRun := true, lastOutput := 0.0)
  }

  /** What `getOutput` relies on has been given: a setpoint for the form with one argument, a setpoint
      and a measured value for the form with none. */
  predicate Anchored(calls: seq<Call>, setpoint: bool, actual: bool)
    decreases |calls|
  {
    calls == [] ||
    match calls[0]
    case Get(_) => Anchored(calls[1..], true, true)
    case GetAt(_) => setpoint && Anchored(calls[1..], true, true)
    case GetAgain => setpoint && actual && Anchored(calls[1..], true, true)
    case SetSetpoint(_) => Anchored(calls[1..], true, actual)
    case _ => Anchored(calls[1..], setpoint, actual)
  }

  /** Equal but for the stored setpoint and measured value, where these are not known to agree, and
      before a first run the remembered output. */
  predicate Twins(a: Pid, b: Pid, setpoint: bool, actual: bool) {
    && a.(setpoint := b.setpoint, lastActual := b.lastActual, lastOutput := b.lastOutput) == b
    && (!a.firstRun ==> a.lastActual == b.lastActual && a.lastOutput == b.lastOutput)
    && (setpoint ==> a.setpoint == b.setpoint)
    && (actual ==> a.lastActual == b.lastActual)
  }

  /** Nothing a call computes depends on what twins may differ in. */
  lemma TwinsTerms(a: Pid, b: Pid, y: real, s: real)
    requires Twins(a, b, false, false)
    ensures Target(a, y, s) == Target(b, y, s)
    ensures RawOutput(a, y, s) == RawOutput(b, y, s) && PriorOutput(a, y, s) == PriorOutput(b, y, s)
  {
    assert FeedForwardTerm(a, y, s) == FeedForwardTerm(b, y, s) && ProportionalTerm(a, y, s) == ProportionalTerm(b, y, s);
    assert IntegralTerm(a) == IntegralTerm(b) && DerivativeTerm(a, y) == DerivativeTerm(b, y);
  }

  lemma TwinsAnswer(a: Pid, b: Pid, x: Sample)
    requires Twins(a, b, false, false)
    ensures OutputOf(a, x) == OutputOf(b, x)
    ensures NextErrorSum(a, x.actual, x.setpoint) == NextErrorSum(b, x.actual, x.setpoint)
  {
    hide RawOutput, PriorOutput, Target, Clamp, Bounded, Blend;
    TwinsTerms(a, b, x.actual, x.setpoint);
  }

  lemma TwinsMeet(a: Pid, b: Pid, x: Sample)
    requires Twins(a, b, false, false)
    ensures Twins(AfterOutput(a, x.actual, x.setpoint), AfterOutput(b, x.actual, x.setpoint), true, true)
  {
    hide Output, NextErrorSum;
    TwinsAnswer(a, b, x);
  }

  lemma TwinsStay(a: Pid, b: Pid, call: Call, setpoint: bool, actual: bool)
    requires Twins(a, b, setpoint, actual) && !Asks(call)
    ensures Twins(Configured(a, call), Configured(b, call), setpoint || call.SetSetpoint?, actual)
  {
    if call.SetI? && CanSetI(a, call.gain) {
      assert b == a.(setpoint := b.setpoint, lastActual := b.lastActual, lastOutput := b.lastOutput);
      WithIFrame(a, call.gain, b.setpoint, b.lastActual, b.lastOutput);
    }
    hide WithI;
  }

  lemma WithIFrame(c: Pid, gain: real, setpoint: real, lastActual: real, lastOutput: real)
    requires CanSetI(c, gain)
    ensures var e := WithI(c, gain);
            && WithI(c.(setpoint := setpoint, lastActual := lastActual, lastOutput := lastOutput), gain)
            == e.(setpoint := setpoint, lastActual := lastActual, lastOutput := lastOutput)
            && e.setpoint == c.setpoint && e.lastActual == c.lastActual && e.lastOutput == c.lastOutput
            && e.firstRun == c.firstRun
  {}

  lemma {:induction false} TwinsAgree(a: Pid, b: Pid, calls: seq<Call>, setpoint: bool, actual: bool)
    requires Twins(a, b, setpoint, actual) && Anchored(calls, setpoint, actual)
    ensures Answers(a, calls) == Answers(b, calls)
    decreases |calls|
  {
    if calls != [] {
      hide Configured, AfterOutput, OutputOf;
      var call, rest := calls[0], calls[1..];
      if Asks(call) {
        var x := SampleOf(a, call);
        assert SampleOf(b, call) == x;
        TwinsAnswer(a, b, x);
        TwinsMeet(a, b, x);
        TwinsAgree(Apply(a, call), Apply(b, call), rest, true, true);
      } else {
        TwinsStay(a, b, call, setpoint, actual);
        TwinsAgree(Apply(a, call), Apply(b, call), rest, setpoint || call.SetSetpoint?, actual);
      }
    }
  }

  /** Whatever happened before, after `reset` every later sequence of calls is answered as by a new
      controller with the same configuration, despite the stale `lastActual` and `lastOutput`,
      provided the shorter forms of `getOutput` are not used before they have something to go by. */
  lemma ResetIsRenewal(c: Pid, past: seq<Call>, future: seq<Call>)
    requires Anchored(future, false, false)
    ensures var e := ApplyAll(c, past);
            Answers(AfterReset(e), future) == Answers(Renewed(e), future)
  {
    var e := ApplyAll(c, past);
    TwinsAgree(AfterReset(e), Renewed(e), future, false, false);
  }

  /** Sequences that use the form with two arguments only need no proviso. */
  lemma {:induction false} TwoArgumentsAnchor(calls: seq<Call>, setpoint: bool, actual: bool)
    requires forall k :: 0 <= k < |calls| ==> !calls[k].GetAt? && !calls[k].GetAgain?
    ensures Anchored(calls, setpoint, actual)
    decreases |calls|
  {
    if calls != [] {
      var call := calls[0];
      TwoArgumentsAnchor(calls[1..], setpoint || call.Get? || call.SetSetpoint?, actual || call.Get?);
    }
  }

  /** What a first call works on before limits and filter: the sum of its first two terms. */
  function Opening(c: Pid, actual: real, setpoint: real): real {
    ProportionalTerm(c, actual, setpoint) + FeedForwardTerm(c, actual, setpoint)
  }

  function Limited(c: Pid, value: real): real {
    if c.minOutput != c.maxOutput then Clamp(value, c.minOutput, c.maxOutput) else value
  }

  /** Zero, unless the integral cap or the ramp rate is negative, which the source does not refuse. */
  function Drift(c: Pid): real {
    var cap := if c.maxIOutput < 0.0 then c.maxIOutput else 0.0;
    if c.outputRampRate != 0.0 then Clamp(cap, -c.outputRampRate, c.outputRampRate) else cap
  }

  function Filtered(c: Pid, value: real): real {
    var limited := Limited(c, value + Drift(c));
    if c.outputFilter != 0.0 then Blend(value, limited, c.outputFilter) else limited
  }

  /** On a first run with an empty error sum only limits and filter have an effect, ramp and integral
      cap being sensible. */
  lemma FirstAnswer(c: Pid, x: Sample)
    requires c.firstRun && c.errorSum == 0.0
    ensures OutputOf(c, x) == Filtered(c, Opening(c, x.actual, x.setpoint))
  {
    FirstTerms(c, x);
    FirstRestricted(c, Opening(c, x.actual, x.setpoint));
    hide Opening, Restricted, Limited, Blend, Drift, IntegralTerm;
  }

  lemma FirstTerms(c: Pid, x: Sample)
    requires c.firstRun && c.errorSum == 0.0
    ensures PriorOf(c, x) == Opening(c, x.actual, x.setpoint)
    ensures RawOutput(c, x.actual, x.setpoint) == Opening(c, x.actual, x.setpoint) + IntegralTerm(c)
    ensures IntegralTerm(c) == if c.maxIOutput < 0.0 then c.maxIOutput else 0.0
  {
    assert DerivativeTerm(c, x.actual) == 0.0;
  }

  lemma FirstRestricted(c: Pid, value: real)
    requires c.errorSum == 0.0
    ensures Restricted(c, value + IntegralTerm(c), value) == Limited(c, value + Drift(c))
  {
    assert IntegralTerm(c) == if c.maxIOutput < 0.0 then c.maxIOutput else 0.0;
    hide IntegralTerm;
  }

  lemma NoDrift(c: Pid)
    requires c.outputRampRate >= 0.0 && c.maxIOutput >= 0.0
    ensures Drift(c) == 0.0
  {}

  lemma LimitedGrows(c: Pid, u: real, v: real)
    requires u <= v && c.minOutput <= c.maxOutput
    ensures Limited(c, u) <= Limited(c, v)
  {}

  lemma Grows(u: real, v: real, k: real)
    requires 0.0 <= k && u <= v
    ensures u * k <= v * k
    ensures 0.0 < k && u < v ==> u * k < v * k
  {
    NonNegative(k, v - u);
    if 0.0 < k && u < v {
      NonZero(k, v - u);
    }
    assert k * (v - u) == v * k - u * k;
  }

  lemma BlendGrowsPrior(u: real, v: real, current: real, f: real)
    requires 0.0 < f && u < v
    ensures Blend(u, current, f) < Blend(v, current, f)
  {
    Grows(u, v, f);
  }

  lemma BlendGrowsCurrent(prior: real, s: real, t: real, f: real)
    requires f < 1.0 && s <= t
    ensures Blend(prior, s, f) <= Blend(prior, t, f)
  {
    Grows(s, t, 1.0 - f);
  }

  lemma BlendGrows(u: real, v: real, s: real, t: real, f: real)
    requires 0.0 < f < 1.0 && u < v && s <= t
    ensures Blend(u, s, f) < Blend(v, t, f)
  {
    hide Blend;
    BlendGrowsPrior(u, v, s, f);
    BlendGrowsCurrent(v, s, t, f);
  }

  /** With a filter different openings give different answers; without one the limits may hide the
      difference. */
  lemma FilteredSame(c: Pid, u: real, v: real)
    requires Sound(c)
    ensures Filtered(c, u) == Filtered(c, v)
            <==> u == v || (c.outputFilter == 0.0 && Limited(c, u + Drift(c)) == Limited(c, v + Drift(c)))
  {
    hide Limited, Blend, Drift;
    if c.outputFilter != 0.0 {
      var drift := Drift(c);
      if u < v {
        LimitedGrows(c, u + drift, v + drift);
        BlendGrows(u, v, Limited(c, u + drift), Limited(c, v + drift), c.outputFilter);
      } else if v < u {
        LimitedGrows(c, v + drift, u + drift);
        BlendGrows(v, u, Limited(c, v + drift), Limited(c, u + drift), c.outputFilter);
      }
    }
  }

  /** The proviso is needed: the one-argument form used right after a reset works with the old
      setpoint. It answers as a new controller would exactly if that setpoint makes no difference to
      the first two terms, or, without a filter, none that gets past the output limits. */
  lemma StaleSetpoint(c: Pid, actual: real)
    requires Sound(c)
    ensures var stale, unset := Opening(c, actual, c.setpoint), Opening(c, actual, 0.0);
            Answers(AfterReset(c), [GetAt(actual)]) == Answers(Renewed(c), [GetAt(actual)])
            <==> stale == unset
                 || (c.outputFilter == 0.0 && Limited(c, stale + Drift(c)) == Limited(c, unset + Drift(c)))
  {
    hide Answers, OutputOf, Filtered;
    var a, b := AfterReset(c), Renewed(c);
    var u, v := OutputOf(a, Sample(actual, c.setpoint)), OutputOf(b, Sample(actual, 0.0));
    OneAnswer(a, actual);
    OneAnswer(b, actual);
    assert [u] == [v] <==> u == v by {
      assert [u][0] == u && [v][0] == v;
    }
    FirstAnswer(a, Sample(actual, c.setpoint));
    FirstAnswer(b, Sample(actual, 0.0));
    ForgetfulFiltered(c, actual);
    FilteredSame(c, Opening(c, actual, c.setpoint), Opening(c, actual, 0.0));
  }

  /** Neither reset nor renewal touches what these functions look at. */
  lemma ForgetfulFiltered(c: Pid, actual: real)
    ensures forall s: real :: Opening(AfterReset(c), actual, s) == Opening(c, actual, s) == Opening(Renewed(c), actual, s)
    ensures forall v: real :: Filtered(AfterReset(c), v) == Filtered(c, v) == Filtered(Renewed(c), v)
  {}

  /** On a plain controller: exactly if the old setpoint has no weight. */
  lemma StaleSetpointPlain(c: Pid, actual: real)
    requires Plain(c)
    ensures Answers(AfterReset(c), [GetAt(actual)]) == Answers(Renewed(c), [GetAt(actual)])
            <==> (c.f + c.p) * c.setpoint == 0.0
  {
    hide Answers, AfterReset, Renewed;
    StaleSetpoint(c, actual);
    NoDrift(c);
    PlainOpening(c, actual, c.setpoint);
    PlainOpening(c, actual, 0.0);
    Weight(c.f, c.p, c.setpoint, actual);
  }

  lemma PlainOpening(c: Pid, actual: real, setpoint: real)
    requires Plain(c)
    ensures Opening(c, actual, setpoint) == c.f * setpoint + c.p * (setpoint - actual)
  {}

  lemma OneAnswer(c: Pid, actual: real)
    ensures Answers(c, [GetAt(actual)]) == [OutputOf(c, Sample(actual, c.setpoint))]
  {
    assert [GetAt(actual)][1..] == [];
  }

  lemma FirstOutput(c: Pid, x: Sample)
    requires Plain(c) && c.firstRun && c.errorSum == 0.0
    ensures OutputOf(c, x) == c.f * x.setpoint + c.p * (x.setpoint - x.actual)
  {
    hide OutputOf;
    TextbookPid(c, [], x);
  }

  lemma Weight(f: real, p: real, s: real, y: real)
    ensures (f * s + p * (s - y)) - (f * 0.0 + p * (0.0 - y)) == (f + p) * s
  {}

  // --- ramp and limits on controllers a client can make ----------------------------------------

  lemma {:induction false} SoundAlways(c: Pid, calls: seq<Call>)
    requires Sound(c)
    ensures Sound(ApplyAll(c, calls))
    decreases |calls|
  {
    if calls != [] {
      SoundStep(c, calls[0]);
      SoundAlways(Apply(c, calls[0]), calls[1..]);
    }
  }

  lemma SoundStep(c: Pid, call: Call)
    requires Sound(c)
    ensures Sound(Apply(c, call))
  {
    hide Output, NextErrorSum;
  }

  /** Limits set while the output is far outside them beat the ramp: a proportional controller that
      put out 10 falls to the new limit of 1 at once, although the ramp rate is 0.5. */
  lemma LimitsBeatRamp(c: Pid)
    requires c == ApplyAll(Fresh(1.0, 0.0, 0.0, 0.0), [Get(Sample(0.0, 10.0)), SetLimits(-1.0, 1.0), SetRamp(0.5)])
    ensures !Ramped(c, [Sample(0.0, 0.0)], c.outputRampRate) && c.outputRampRate == 0.5
  {
    hide Output, NextErrorSum, Ramped, ApplyAll, PriorOutput;
    var start := Fresh(1.0, 0.0, 0.0, 0.0);
    ThreeCalls(start, Get(Sample(0.0, 10.0)), SetLimits(-1.0, 1.0), SetRamp(0.5));
    FirstOutput(start, Sample(0.0, 10.0));
    PriorIsLast(c, Sample(0.0, 0.0));
    RampHolds(c, [Sample(0.0, 0.0)]);
  }

  lemma ThreeCalls(c: Pid, u: Call, v: Call, w: Call)
    ensures ApplyAll(c, [u, v, w]) == Apply(Apply(Apply(c, u), v), w)
  {
    hide Apply;
    assert [u, v, w][1..] == [v, w] && [v, w][1..] == [w] && [w][1..] == [];
    assert ApplyAll(Apply(c, u), [v, w]) == ApplyAll(Apply(Apply(c, u), v), [w]);
    assert ApplyAll(Apply(Apply(c, u), v), [w]) == ApplyAll(Apply(Apply(Apply(c, u), v), w), []);
  }

  /** One call on a controller with unit gains and limits of -1 and 1. */
  lemma UnitCall(c: Pid, x: Sample, prior: real)
    requires c.p == 1.0 && c.i == 1.0 && c.d == 0.0 && c.f == 0.0 && c.setpointRange == 0.0 && c.outputRampRate == 0.0
    requires c.minOutput == -1.0 && c.maxOutput == 1.0 && c.outputFilter == 0.0 && c.maxIOutput == c.maxError == 2.0
    requires -1.0 <= c.errorSum <= 1.0 && x.actual == 0.0 && prior == PriorOf(c, x)
    requires -1.0 <= x.setpoint + c.errorSum <= 1.0
    ensures OutputOf(c, x) == x.setpoint + c.errorSum
    ensures NextErrorSum(c, x.actual, x.setpoint) == ErrorSumAfter(c, x.setpoint, x.setpoint + c.errorSum, prior)
  {
    UnitTerms(c, x);
    hide RawOutput, PriorOutput, ErrorSumAfter;
    assert Target(c, x.actual, x.setpoint) == x.setpoint;
  }

  lemma UnitTerms(c: Pid, x: Sample)
    requires c.p == 1.0 && c.i == 1.0 && c.d == 0.0 && c.f == 0.0 && c.setpointRange == 0.0
    requires c.maxIOutput == 2.0 && -1.0 <= c.errorSum <= 1.0 && x.actual == 0.0
    ensures RawOutput(c, x.actual, x.setpoint) == x.setpoint + c.errorSum
  {
    assert FeedForwardTerm(c, x.actual, x.setpoint) == 0.0;
    assert ProportionalTerm(c, x.actual, x.setpoint) == x.setpoint;
    assert IntegralTerm(c) == c.errorSum;
    assert DerivativeTerm(c, x.actual) == 0.0;
  }

  /** A run onto the limit: the second call puts out exactly 1, and the error accumulated by the
      first is lost although the output was not cut. */
  lemma LimitRun(start: Pid, end: Pid, x: Sample)
    requires x == Sample(0.0, 0.5)
    requires start == ApplyAll(Fresh(1.0, 1.0, 0.0, 0.0), [SetLimits(-1.0, 1.0)])
    requires end == Apply(Apply(start, Get(x)), Get(x))
    ensures Apply(start, Get(x)).errorSum == 0.5
    ensures end.lastOutput == 1.0 == end.maxOutput && end.errorSum == 0.5
  {
    OneCall(Fresh(1.0, 1.0, 0.0, 0.0), SetLimits(-1.0, 1.0));
    hide ApplyAll, Output, NextErrorSum, PriorOutput;
    UnitCall(start, x, PriorOf(start, x));
    var middle := Apply(start, Get(x));
    Accumulates(start, 0.5, 0.5, PriorOf(start, x));
    assert middle.errorSum == 0.5;
    UnitCall(middle, x, PriorOf(middle, x));
    AtLimitStartsOver(middle, 0.5, 1.0, PriorOf(middle, x));
  }

  lemma OneCall(c: Pid, call: Call)
    ensures ApplyAll(c, [call]) == Apply(c, call)
  {
    hide Apply;
    assert [call][1..] == [];
  }
}
