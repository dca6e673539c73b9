/** What the controller answers, written out: every stage of `getOutput` and every setting against an
    independent description. */
module MiniPidAnswers {
  import opened MiniPid
  import opened MiniPidLaws

  /** `r` is the point of [min, max] closest to `value`. */
  predicate Nearest(r: real, value: real, min: real, max: real) {
    && min <= r <= max
    && (value <= min ==> r == min) && (value >= max ==> r == max) && (min <= value <= max ==> r == value)
  }

  lemma ClampNearest(value: real, min: real, max: real)
    requires min <= max
    ensures Nearest(Clamp(value, min, max), value, min, max)
  {}

  // --- one call --------------------------------------------------------------------------------

  /** Settings of which none is negative: a zero range, cap or rate means none. */
  predicate Sensible(c: Pid) {
    Sound(c) && c.setpointRange >= 0.0 && c.maxIOutput >= 0.0 && c.outputRampRate >= 0.0
  }

  predicate WithinOrSame(r: real, value: real, off: bool, min: real, max: real) {
    if off then r == value else Nearest(r, value, min, max)
  }

  function SumOf(c: Pid, x: Sample, target: real, integral: real): real {
    c.f * target + c.p * (target - x.actual) + integral - c.d * (x.actual - c.lastActual)
  }

  function Contribution(c: Pid): real {
    c.i * c.errorSum
  }

  /** The stages of one call. */
  datatype Stages = Stages(target: real, integral: real, ramped: real, limited: real)

  /** The setpoint pulled to within its range of the measured value, the integral term cut at its cap,
      the sum of the four terms under the ramp, and the limits. */
  predicate Explains(g: Stages, c: Pid, x: Sample) {
    && WithinOrSame(g.target, x.setpoint, c.setpointRange == 0.0, x.actual - c.setpointRange, x.actual + c.setpointRange)
    && WithinOrSame(g.integral, Contribution(c), c.maxIOutput == 0.0, -c.maxIOutput, c.maxIOutput)
    && WithinOrSame(g.ramped, SumOf(c, x, g.target, g.integral), c.outputRampRate == 0.0,
                    c.lastOutput - c.outputRampRate, c.lastOutput + c.outputRampRate)
    && WithinOrSame(g.limited, g.ramped, c.minOutput == c.maxOutput, c.minOutput, c.maxOutput)
  }

  lemma TargetStage(c: Pid, x: Sample)
    requires c.setpointRange >= 0.0
    ensures WithinOrSame(Target(c, x.actual, x.setpoint), x.setpoint, c.setpointRange == 0.0,
                         x.actual - c.setpointRange, x.actual + c.setpointRange)
  {}

  lemma IntegralStage(c: Pid)
    requires c.maxIOutput >= 0.0
    ensures WithinOrSame(IntegralTerm(c), Contribution(c), c.maxIOutput == 0.0, -c.maxIOutput, c.maxIOutput)
  {
    if c.maxIOutput > 0.0 {
      ClampNearest(Contribution(c), -c.maxIOutput, c.maxIOutput);
    }
    hide Clamp, Nearest;
  }

  lemma SumStage(c: Pid, x: Sample)
    requires !c.firstRun
    ensures RawOutput(c, x.actual, x.setpoint) == SumOf(c, x, Target(c, x.actual, x.setpoint), IntegralTerm(c))
  {
    hide Target, IntegralTerm;
    assert DerivativeTerm(c, x.actual) == -c.d * (x.actual - c.lastActual) == -(c.d * (x.actual - c.lastActual));
  }

  lemma RampStage(c: Pid, raw: real, prior: real) returns (ramped: real)
    requires c.outputRampRate >= 0.0 && c.minOutput <= c.maxOutput
    ensures WithinOrSame(ramped, raw, c.outputRampRate == 0.0, prior - c.outputRampRate, prior + c.outputRampRate)
    ensures WithinOrSame(Restricted(c, raw, prior), ramped, c.minOutput == c.maxOutput, c.minOutput, c.maxOutput)
  {
    ramped := if c.outputRampRate != 0.0 then Clamp(raw, prior - c.outputRampRate, prior + c.outputRampRate) else raw;
  }

  lemma FilterStage(c: Pid, x: Sample, prior: real, limited: real)
    requires prior == PriorOf(c, x) && limited == LimitedOutput(c, x.actual, x.setpoint)
    ensures OutputOf(c, x) == prior * c.outputFilter + limited * (1.0 - c.outputFilter)
  {
    hide PriorOutput, LimitedOutput;
  }

  /** Every call after the first, with any sensible settings, goes through these stages, and its answer
      is the filtered last of them. */
  lemma OutputExplained(c: Pid, x: Sample) returns (g: Stages)
    requires Sensible(c) && !c.firstRun
    ensures Explains(g, c, x)
    ensures OutputOf(c, x) == c.lastOutput * c.outputFilter + g.limited * (1.0 - c.outputFilter)
  {
    hide LimitedOutput, OutputOf, PriorOf, Explains, Restricted, RawOutput;
    g := StagesOf(c, x);
    LimitedIs(c, x, g);
    FilterStage(c, x, c.lastOutput, g.limited);
  }

  lemma LimitedIs(c: Pid, x: Sample, g: Stages)
    requires !c.firstRun && g.limited == Restricted(c, RawOutput(c, x.actual, x.setpoint), c.lastOutput)
    ensures LimitedOutput(c, x.actual, x.setpoint) == g.limited && PriorOf(c, x) == c.lastOutput
  {
    hide Restricted, RawOutput;
  }

  lemma StagesOf(c: Pid, x: Sample) returns (g: Stages)
    requires Sensible(c) && !c.firstRun
    ensures Explains(g, c, x) && g.limited == Restricted(c, RawOutput(c, x.actual, x.setpoint), c.lastOutput)
  {
    hide Target, RawOutput, Restricted, IntegralTerm, WithinOrSame, SumOf, Contribution;
    var raw := RawOutput(c, x.actual, x.setpoint);
    TargetStage(c, x);
    IntegralStage(c);
    SumStage(c, x);
    var ramped := RampStage(c, raw, c.lastOutput);
    g := Stages(Target(c, x.actual, x.setpoint), IntegralTerm(c), ramped, Restricted(c, raw, c.lastOutput));
  }

  lemma SameNearest(r: real, q: real, value: real, off: bool, min: real, max: real)
    requires WithinOrSame(r, value, off, min, max) && WithinOrSame(q, value, off, min, max)
    ensures r == q
  {}

  /** The stages leave nothing open. */
  lemma OneExplanation(g: Stages, h: Stages, c: Pid, x: Sample)
    requires Explains(g, c, x) && Explains(h, c, x)
    ensures g == h
  {
    hide WithinOrSame, SumOf, Contribution;
    SameNearest(g.target, h.target, x.setpoint, c.setpointRange == 0.0, x.actual - c.setpointRange, x.actual + c.setpointRange);
    SameNearest(g.integral, h.integral, Contribution(c), c.maxIOutput == 0.0, -c.maxIOutput, c.maxIOutput);
    SameNearest(g.ramped, h.ramped, SumOf(c, x, g.target, g.integral), c.outputRampRate == 0.0,
                c.lastOutput - c.outputRampRate, c.lastOutput + c.outputRampRate);
    SameNearest(g.limited, h.limited, g.ramped, c.minOutput == c.maxOutput, c.minOutput, c.maxOutput);
  }

  // --- the error sum ---------------------------------------------------------------------------

  /** Outside, or at, any limit in force the sum starts over; inside it grows, up to its cap. */
  lemma ErrorSumExplained(c: Pid, error: real, raw: real, prior: real)
    requires c.maxIOutput != 0.0 ==> c.maxError >= 0.0
    ensures var sum := ErrorSumAfter(c, error, raw, prior);
            if !Unrestricted(c, raw, prior) then sum == error
            else WithinOrSame(sum, c.errorSum + error, c.maxIOutput == 0.0, -c.maxError, c.maxError)
  {}

  /** The error sum after a call, from the stages of the call. */
  lemma NextSumExplained(c: Pid, x: Sample, g: Stages)
    requires Sensible(c) && !c.firstRun && Explains(g, c, x) && (c.maxIOutput != 0.0 ==> c.maxError >= 0.0)
    ensures var raw, error := SumOf(c, x, g.target, g.integral), g.target - x.actual;
            var sum := AfterOutput(c, x.actual, x.setpoint).errorSum;
            if !Unrestricted(c, raw, c.lastOutput) then sum == error
            else WithinOrSame(sum, c.errorSum + error, c.maxIOutput == 0.0, -c.maxError, c.maxError)
  {
    hide WithinOrSame, SumOf, Contribution, Target, IntegralTerm, ErrorSumAfter, RawOutput, Unrestricted, Output;
    TargetStage(c, x);
    IntegralStage(c);
    SumStage(c, x);
    SameNearest(g.target, Target(c, x.actual, x.setpoint), x.setpoint, c.setpointRange == 0.0,
                x.actual - c.setpointRange, x.actual + c.setpointRange);
    SameNearest(g.integral, IntegralTerm(c), Contribution(c), c.maxIOutput == 0.0, -c.maxIOutput, c.maxIOutput);
    PriorIsLast(c, x);
    ErrorSumExplained(c, g.target - x.actual, RawOutput(c, x.actual, x.setpoint), c.lastOutput);
  }

  // --- over whole histories --------------------------------------------------------------------

  lemma {:induction false} AfterFacts(c: Pid, history: seq<Sample>)
    requires c.firstRun
    ensures var e := After(c, history);
            && e.firstRun == (history == [])
            && (history != [] ==> e.lastActual == history[|history| - 1].actual)
  {}

  function Cut(value: real, min: real, max: real): real {
    if value >= max then max else if value <= min then min else value
  }

  lemma CutIsNearest(r: real, value: real, min: real, max: real)
    requires min <= max && Nearest(r, value, min, max)
    ensures r == Cut(value, min, max)
  {}

  /** Output limits on; ramp, filter and setpoint range off. */
  predicate LimitedOnly(c: Pid) {
    && c.minOutput < c.maxOutput && c.maxIOutput >= 0.0
    && c.outputRampRate == 0.0 && c.outputFilter == 0.0 && c.setpointRange == 0.0
  }

  function Integral(c: Pid): real {
    if c.maxIOutput > 0.0 then Cut(c.i * c.errorSum, -c.maxIOutput, c.maxIOutput) else c.i * c.errorSum
  }

  lemma LimitedCall(c: Pid, x: Sample)
    requires LimitedOnly(c) && !c.firstRun
    ensures OutputOf(c, x) == Cut(SumOf(c, x, x.setpoint, Integral(c)), c.minOutput, c.maxOutput)
  {
    var g := OutputExplained(c, x);
    IntegralIsCut(c, g.integral);
    hide OutputOf, SumOf, Integral;
    CutIsNearest(g.limited, g.ramped, c.minOutput, c.maxOutput);
  }

  lemma IntegralIsCut(c: Pid, integral: real)
    requires WithinOrSame(integral, Contribution(c), c.maxIOutput == 0.0, -c.maxIOutput, c.maxIOutput) && c.maxIOutput >= 0.0
    ensures integral == Integral(c)
  {}

  /** F*sp + P*e + (I*sum cut at the integral cap) - D*(change of the measured value), cut at the output
      limits. */
  function LimitedAnswer(c: Pid, sum: real, previous: real, x: Sample): real {
    var product := c.i * sum;
    var integral := if c.maxIOutput > 0.0 && product >= c.maxIOutput then c.maxIOutput
                    else if c.maxIOutput > 0.0 && product <= -c.maxIOutput then -c.maxIOutput
                    else product;
    var u := c.f * x.setpoint + c.p * (x.setpoint - x.actual) + integral - c.d * (x.actual - previous);
    if u >= c.maxOutput then c.maxOutput else if u <= c.minOutput then c.minOutput else u
  }

  lemma LimitedFormula(c: Pid, x: Sample)
    requires LimitedOnly(c) && !c.firstRun
    ensures OutputOf(c, x) == LimitedAnswer(c, c.errorSum, c.lastActual, x)
  {
    LimitedCall(c, x);
    hide OutputOf;
  }

  /** Only settings and gains enter. */
  lemma AnswerFrame(c: Pid, e: Pid, sum: real, previous: real, x: Sample)
    requires e == c.(setpoint := e.setpoint, lastActual := e.lastActual, firstRun := e.firstRun,
                 errorSum := e.errorSum, lastOutput := e.lastOutput)
    ensures LimitedAnswer(e, sum, previous, x) == LimitedAnswer(c, sum, previous, x)
  {
    FrameUpdate(c, e.setpoint, e.lastActual, e.firstRun, e.errorSum, e.lastOutput, sum, previous, x);
    hide LimitedAnswer;
  }

  lemma FrameUpdate(c: Pid, setpoint: real, lastActual: real, firstRun: bool, errorSum: real, lastOutput: real,
                    sum: real, previous: real, x: Sample)
    ensures LimitedAnswer(c.(setpoint := setpoint, lastActual := lastActual, firstRun := firstRun,
                          errorSum := errorSum, lastOutput := lastOutput), sum, previous, x)
            == LimitedAnswer(c, sum, previous, x)
  {}

  /** The textbook controller under output limits: this is the n-th output of a new controller over
      any history. */
  lemma LimitedPid(c: Pid, history: seq<Sample>, x: Sample)
    requires LimitedOnly(c) && c.firstRun && history != []
    ensures OutputOf(After(c, history), x)
            == LimitedAnswer(c, After(c, history).errorSum, history[|history| - 1].actual, x)
  {
    hide After, OutputOf, LimitedAnswer;
    var e := After(c, history);
    SettingsKept(c, history);
    AfterFacts(c, history);
    LimitedFormula(e, x);
    AnswerFrame(c, e, e.errorSum, e.lastActual, x);
  }

  /** The first call of a new controller under limits. */
  lemma LimitedFirst(c: Pid, x: Sample)
    requires LimitedOnly(c) && c.firstRun && c.errorSum == 0.0
    ensures var u := c.f * x.setpoint + c.p * (x.setpoint - x.actual);
            OutputOf(c, x) == if u >= c.maxOutput then c.maxOutput else if u <= c.minOutput then c.minOutput else u
  {
    FirstAnswer(c, x);
    NoDrift(c);
    LimitedOpening(c, x);
    hide OutputOf, Opening;
  }

  lemma LimitedOpening(c: Pid, x: Sample)
    requires c.setpointRange == 0.0
    ensures Opening(c, x.actual, x.setpoint) == c.f * x.setpoint + c.p * (x.setpoint - x.actual)
  {}

  /** Every call of a run has the same output before the filter. */
  predicate Steady(c: Pid, history: seq<Sample>, level: real)
    decreases |history|
  {
    history == [] || (
      && LimitedOutput(c, history[0].actual, history[0].setpoint) == level
      && Steady(AfterOutput(c, history[0].actual, history[0].setpoint), history[1..], level))
  }

  lemma FilteredCall(c: Pid, x: Sample, level: real, first: real) returns (next: Pid)
    requires LimitedOutput(c, x.actual, x.setpoint) == level && PriorOf(c, x) - level == first
    ensures next == AfterOutput(c, x.actual, x.setpoint)
    ensures !next.firstRun && next.outputFilter == c.outputFilter && next.lastOutput == OutputOf(c, x)
    ensures next.lastOutput - level == c.outputFilter * first
  {
    hide LimitedOutput, PriorOf;
    next := AfterOutput(c, x.actual, x.setpoint);
    FilterStage(c, x, PriorOf(c, x), level);
    assert c.outputFilter * first == (first + level) * c.outputFilter - level * c.outputFilter;
  }

  lemma {:induction false} FilterShrinks(c: Pid, history: seq<Sample>, level: real, first: real)
    requires history != [] && Steady(c, history, level) && PriorOf(c, history[0]) - level == first
    ensures LastOutput(c, history) - level == Shrunk(c.outputFilter, |history|, first)
    decreases |history|
  {
    hide Output, LimitedOutput, PriorOutput, NextErrorSum;
    var f, n := c.outputFilter, |history|;
    var next := FilteredCall(c, history[0], level, first);
    ShrunkStep(f, n, first);
    if n > 1 {
      PriorIsLast(next, history[1]);
      FilterShrinks(next, history[1..], level, f * first);
      assert LastOutput(c, history) == LastOutput(next, history[1..]);
    } else {
      assert Shrunk(f, n, first) == f * first;
      assert LastOutput(c, history) == OutputOf(c, history[0]) == next.lastOutput;
      assert next.lastOutput - level == f * first;
    }
  }

  /** The filter approaches a steady level geometrically: after n calls the distance is f^n times the
      one before the first. */
  lemma FilterConverges(c: Pid, history: seq<Sample>, level: real)
    requires history != [] && Steady(c, history, level)
    ensures LastOutput(c, history) - level == Power(c.outputFilter, |history|) * (PriorOf(c, history[0]) - level)
  {
    hide LastOutput, Steady, PriorOf, Power, Shrunk;
    FilterShrinks(c, history, level, PriorOf(c, history[0]) - level);
    ShrunkIsPower(c.outputFilter, |history|, PriorOf(c, history[0]) - level);
  }

  /** The shorter forms of `getOutput` repeat what the last call was given. */
  lemma ShorterForms(c: Pid, x: Sample, actual: real)
    ensures Answers(c, [Get(x), GetAt(actual), GetAgain])
            == Answers(c, [Get(x), Get(Sample(actual, x.setpoint)), Get(Sample(actual, x.setpoint))])
  {
    hide OutputOf, Output, NextErrorSum;
    var y := Sample(actual, x.setpoint);
    var c1 := Apply(c, Get(x));
    assert Apply(c1, GetAt(actual)) == Apply(c1, Get(y));
    var c2 := Apply(c1, Get(y));
    ThreeAnswers(c, Get(x), GetAt(actual), GetAgain);
    ThreeAnswers(c, Get(x), Get(y), Get(y));
    assert SampleOf(c2, GetAgain) == y && SampleOf(c1, GetAt(actual)) == y;
  }

  lemma ThreeAnswers(c: Pid, u: Call, v: Call, w: Call)
    requires Asks(u) && Asks(v) && Asks(w)
    ensures var c1 := Apply(c, u);
            var c2 := Apply(c1, v);
            Answers(c, [u, v, w]) == [OutputOf(c, SampleOf(c, u)), OutputOf(c1, SampleOf(c1, v)), OutputOf(c2, SampleOf(c2, w))]
  {
    hide Apply, OutputOf, SampleOf, Asks;
    var c1 := Apply(c, u);
    var c2 := Apply(c1, v);
    assert [u, v, w][1..] == [v, w] && [v, w][1..] == [w] && [w][1..] == [];
    assert Answers(c2, [w]) == [OutputOf(c2, SampleOf(c2, w))] + Answers(Apply(c2, w), []);
    assert Answers(c1, [v, w]) == [OutputOf(c1, SampleOf(c1, v))] + Answers(c2, [w]);
  }

  // --- settings --------------------------------------------------------------------------------

  /** Whatever gains are asked for, the sizes are taken and the signs agree with the direction. */
  lemma SignsAgree(c: Pid, p: real, i: real, d: real)
    ensures var e := Apply(c, SetPid(p, i, d));
            && Abs(e.p) == Abs(p) && Abs(e.i) == Abs(i) && Abs(e.d) == Abs(d) && Abs(e.f) == Abs(c.f)
            && (c.reversed ==> e.p <= 0.0 && e.i <= 0.0 && e.d <= 0.0 && e.f <= 0.0)
            && (!c.reversed ==> 0.0 <= e.p && 0.0 <= e.i && 0.0 <= e.d && 0.0 <= e.f)
  {}

  /** The error cap is the sum at which the integral contribution reaches its own. */
  lemma CapReached(c: Pid, maximum: real)
    requires c.i != 0.0
    ensures var e := Apply(c, SetMaxI(maximum)); e.maxIOutput == maximum && e.i * e.maxError == maximum
  {
    assert maximum / c.i * c.i == maximum;
  }

  /** So it is after a change of the gain, in size. */
  lemma CapFollowsGain(c: Pid, gain: real)
    requires gain != 0.0 && c.maxIOutput != 0.0
    ensures var e := Apply(c, SetI(gain)); e.maxIOutput == c.maxIOutput && gain * e.maxError == c.maxIOutput
  {
    assert c.maxIOutput / gain * gain == c.maxIOutput;
  }

  /** A filter strength takes effect exactly if it lies in [0, 1); otherwise the old one stays. */
  lemma FilterTaken(c: Pid, strength: real)
    ensures var e := Apply(c, SetFilter(strength));
            e == c.(outputFilter := if 0.0 <= strength < 1.0 then strength else c.outputFilter)
  {}

  /** Output limits leave room for an integral contribution of at most their span. */
  lemma LimitsBoundIntegral(c: Pid, minimum: real, maximum: real)
    requires minimum <= maximum && c.maxIOutput >= 0.0
    ensures var e := Apply(c, SetLimits(minimum, maximum));
            && e.minOutput == minimum && e.maxOutput == maximum
            && 0.0 <= e.maxIOutput <= maximum - minimum
            && (0.0 < c.maxIOutput <= maximum - minimum ==> e.maxIOutput == c.maxIOutput && e.maxError == c.maxError)
            && (c.maxIOutput == 0.0 || maximum - minimum <= c.maxIOutput ==> e.maxIOutput == maximum - minimum)
  {
    assert Apply(c, SetLimits(minimum, maximum)).maxIOutput == maximum - minimum
      || Apply(c, SetLimits(minimum, maximum)).maxIOutput == c.maxIOutput;
  }
}
