/** The PID controller. `Controller` is the C++ class, its methods updating the fields in place;
    `Pid` is the same record as a value, on which the specification functions work. */
module MiniPid {

  /** `limited`, `ramped` and so on are decided, as in the source, by comparing settings with 0. */
  datatype Pid = Pid(
    p: real, i: real, d: real, f: real,
    maxIOutput: real, maxError: real, errorSum: real,
    maxOutput: real, minOutput: real,
    setpoint: real, lastActual: real,
    firstRun: bool, reversed: bool,
    outputRampRate: real, lastOutput: real, outputFilter: real, setpointRange: real)

  function Fresh(p: real, i: real, d: real, f: real): Pid {
    Pid(p, i, d, f, 0.0, 0.0, 0.0, 0.0, 0.0, 0.0, 0.0, true, false, 0.0, 0.0, 0.0, 0.0)
  }

  function Clamp(value: real, min: real, max: real): (r: real)
    ensures min <= max ==> min <= r <= max
    ensures min <= value <= max ==> r == value
  {
    if value > max then max else if value < min then min else value
  }

  /** Strictly inside, although the source's comment says inclusive. */
  predicate Bounded(value: real, min: real, max: real) {
    min < value < max
  }

  // --- one call of getOutput, in its stages ----------------------------------------------------

  function Target(c: Pid, actual: real, setpoint: real): real {
    if c.setpointRange != 0.0
    then Clamp(setpoint, actual - c.setpointRange, actual + c.setpointRange)
    else setpoint
  }

  function FeedForwardTerm(c: Pid, actual: real, setpoint: real): real {
    c.f * Target(c, actual, setpoint)
  }

  function ProportionalTerm(c: Pid, actual: real, setpoint: real): real {
    c.p * (Target(c, actual, setpoint) - actual)
  }

  /** The output before this call, as the call sees it: on a first run it is the proportional plus
      feed-forward output. */
  function PriorOutput(c: Pid, actual: real, setpoint: real): real {
    if c.firstRun then ProportionalTerm(c, actual, setpoint) + FeedForwardTerm(c, actual, setpoint) else c.lastOutput
  }

  function PriorActual(c: Pid, actual: real): real {
    if c.firstRun then actual else c.lastActual
  }

  function DerivativeTerm(c: Pid, actual: real): real {
    -c.d * (actual - PriorActual(c, actual))
  }

  function IntegralTerm(c: Pid): real {
    var raw := c.i * c.errorSum;
    if c.maxIOutput != 0.0 then Clamp(raw, -c.maxIOutput, c.maxIOutput) else raw
  }

  lemma IntegralFrame(c: Pid, setpoint: real, lastActual: real, firstRun: bool, lastOutput: real)
    ensures IntegralTerm(c.(setpoint := setpoint, lastActual := lastActual, firstRun := firstRun, lastOutput := lastOutput))
            == IntegralTerm(c)
  {}

  /** The sum of the four terms, before any limit. */
  function RawOutput(c: Pid, actual: real, setpoint: real): real {
    FeedForwardTerm(c, actual, setpoint) + ProportionalTerm(c, actual, setpoint) + IntegralTerm(c) + DerivativeTerm(c, actual)
  }

  /** Anti-windup: outside the output or ramp limits the sum restarts from the current error. */
  function ErrorSumAfter(c: Pid, error: real, raw: real, prior: real): real {
    if c.minOutput != c.maxOutput && !Bounded(raw, c.minOutput, c.maxOutput) then error
    else if c.outputRampRate != 0.0 && !Bounded(raw, prior - c.outputRampRate, prior + c.outputRampRate) then error
    else if c.maxIOutput != 0.0 then Clamp(c.errorSum + error, -c.maxError, c.maxError)
    else c.errorSum + error
  }

  function NextErrorSum(c: Pid, actual: real, setpoint: real): real {
    ErrorSumAfter(c, Target(c, actual, setpoint) - actual, RawOutput(c, actual, setpoint), PriorOutput(c, actual, setpoint))
  }

  /** Ramp first, limits second, so that the limits always hold. */
  function Restricted(c: Pid, raw: real, prior: real): real {
    var ramped := if c.outputRampRate != 0.0 then Clamp(raw, prior - c.outputRampRate, prior + c.outputRampRate) else raw;
    if c.minOutput != c.maxOutput then Clamp(ramped, c.minOutput, c.maxOutput) else ramped
  }

  function LimitedOutput(c: Pid, actual: real, setpoint: real): real {
    Restricted(c, RawOutput(c, actual, setpoint), PriorOutput(c, actual, setpoint))
  }

  /** The exponential filter: `strength` of the previous output, the rest of the current one. */
  function Blend(prior: real, current: real, strength: real): real {
    prior * strength + current * (1.0 - strength)
  }

  function Output(c: Pid, actual: real, setpoint: real): real {
    var limited := LimitedOutput(c, actual, setpoint);
    if c.outputFilter != 0.0
    then Blend(PriorOutput(c, actual, setpoint), limited, c.outputFilter)
    else limited
  }

  function AfterOutput(c: Pid, actual: real, setpoint: real): Pid {
    c.(setpoint := setpoint, lastActual := actual, firstRun := false,
    errorSum := NextErrorSum(c, actual, setpoint), lastOutput := Output(c, actual, setpoint))
  }

  // --- configuration ---------------------------------------------------------------------------

  /** `checkSigns`: all gains nonnegative, or all nonpositive when reversed. */
  function Signed(gain: real, reversed: bool): real {
    if reversed then (if gain > 0.0 then -gain else gain) else (if gain < 0.0 then -gain else gain)
  }

  function WithSigns(c: Pid): Pid {
    c.(p := Signed(c.p, c.reversed), i := Signed(c.i, c.reversed), d := Signed(c.d, c.reversed), f := Signed(c.f, c.reversed))
  }

  function WithMaxIOutput(c: Pid, maximum: real): Pid {
    var capped := c.(maxIOutput := maximum);
    if c.i != 0.0 then capped.(maxError := maximum / c.i) else capped
  }

  function WithOutputLimits(c: Pid, minimum: real, maximum: real): Pid {
    if maximum < minimum then c else
    var limited := c.(maxOutput := maximum, minOutput := minimum);
    if c.maxIOutput == 0.0 || c.maxIOutput > maximum - minimum
    then WithMaxIOutput(limited, maximum - minimum)
    else limited
  }

  function WithOutputFilter(c: Pid, strength: real): Pid {
    if strength == 0.0 || Bounded(strength, 0.0, 1.0) then c.(outputFilter := strength) else c
  }

  /** `setI` divides by the new gain if there was one before or the integral term is capped; a zero
      there has no meaning over the reals. */
  predicate CanSetI(c: Pid, i: real) {
    i != 0.0 || (c.i == 0.0 && c.maxIOutput == 0.0)
  }

  function WithI(c: Pid, i: real): Pid
    requires CanSetI(c, i)
  {
    var scaled := if c.i != 0.0 then c.(errorSum := c.errorSum * c.i / i) else c;
    var capped := if c.maxIOutput != 0.0 then scaled.(maxError := c.maxIOutput / i) else scaled;
    WithSigns(capped.(i := i))
  }

  function AfterReset(c: Pid): Pid {
    c.(firstRun := true, errorSum := 0.0)
  }

  // --- the class -------------------------------------------------------------------------------

  class Controller {
    var p: real
    var i: real
    var d: real
    var f: real
    var maxIOutput: real
    var maxError: real
    var errorSum: real
    var maxOutput: real
    var minOutput: real
    var setpoint: real
    var lastActual: real
    var firstRun: bool
    var reversed: bool
    var outputRampRate: real
    var lastOutput: real
    var outputFilter: real
    var setpointRange: real

    function View(): Pid
      reads this
    {
      Pid(p, i, d, f, maxIOutput, maxError, errorSum, maxOutput, minOutput, setpoint, lastActual,
          firstRun, reversed, outputRampRate, lastOutput, outputFilter, setpointRange)
    }

    constructor (p: real, i: real, d: real, f: real)
      ensures View() == Fresh(p, i, d, f)
    {
      this.p, this.i, this.d, this.f := p, i, d, f;
      maxIOutput, maxError, errorSum := 0.0, 0.0, 0.0;
      maxOutput, minOutput := 0.0, 0.0;
      setpoint, lastActual := 0.0, 0.0;
      firstRun, reversed := true, false;
      outputRampRate, lastOutput, outputFilter, setpointRange := 0.0, 0.0, 0.0, 0.0;
    }

    method CheckSigns()
      modifies this
      ensures View() == WithSigns(old(View()))
    {
      if reversed {
        if p > 0.0 { p := p * -1.0; }
        if i > 0.0 { i := i * -1.0; }
        if d > 0.0 { d := d * -1.0; }
        if f > 0.0 { f := f * -1.0; }
      } else {
        if p < 0.0 { p := p * -1.0; }
        if i < 0.0 { i := i * -1.0; }
        if d < 0.0 { d := d * -1.0; }
        if f < 0.0 { f := f * -1.0; }
      }
    }

    method SetPID(p: real, i: real, d: real)
      modifies this
      ensures View() == WithSigns(old(View()).(p := p, i := i, d := d))
    {
      this.p, this.i, this.d := p, i, d;
      CheckSigns();
    }

    method SetI(i: real)
      requires CanSetI(View(), i)
      modifies this
      ensures View() == WithI(old(View()), i)
    {
      if this.i != 0.0 {
        errorSum := errorSum * this.i / i;
      }
      if maxIOutput != 0.0 {
        maxError := maxIOutput / i;
      }
      this.i := i;
      CheckSigns();
    }

    method SetMaxIOutput(maximum: real)
      modifies this
      ensures View() == WithMaxIOutput(old(View()), maximum)
    {
      maxIOutput := maximum;
      if i != 0.0 {
        maxError := maxIOutput / i;
      }
    }

    method SetOutputLimits(minimum: real, maximum: real)
      modifies this
      ensures View() == WithOutputLimits(old(View()), minimum, maximum)
    {
      if maximum < minimum {
        return;
      }
      maxOutput := maximum;
      minOutput := minimum;
      if maxIOutput == 0.0 || maxIOutput > maximum - minimum {
        SetMaxIOutput(maximum - minimum);
      }
    }

    method SetDirection(reversed: bool)
      modifies this
      ensures View() == old(View()).(reversed := reversed)
    {
      this.reversed := reversed;
    }

    method SetSetpoint(setpoint: real)
      modifies this
      ensures View() == old(View()).(setpoint := setpoint)
    {
      this.setpoint := setpoint;
    }

    method SetOutputRampRate(rate: real)
      modifies this
      ensures View() == old(View()).(outputRampRate := rate)
    {
      outputRampRate := rate;
    }

    method SetSetpointRange(range: real)
      modifies this
      ensures View() == old(View()).(setpointRange := range)
    {
      setpointRange := range;
    }

    method SetOutputFilter(strength: real)
      modifies this
      ensures View() == WithOutputFilter(old(View()), strength)
    {
      if strength == 0.0 || Bounded(strength, 0.0, 1.0) {
        outputFilter := strength;
      }
    }

    method Reset()
      modifies this
      ensures View() == AfterReset(old(View()))
    {
      firstRun := true;
      errorSum := 0.0;
    }

    method UpdateErrorSum(error: real, output: real)
      modifies `errorSum
      ensures errorSum == ErrorSumAfter(old(View()), error, output, lastOutput)
    {
      if minOutput != maxOutput && !Bounded(output, minOutput, maxOutput) {
        errorSum := error;
      } else if outputRampRate != 0.0 && !Bounded(output, lastOutput - outputRampRate, lastOutput + outputRampRate) {
        errorSum := error;
      } else if maxIOutput != 0.0 {
        errorSum := Clamp(errorSum + error, -maxError, maxError);
      } else {
        errorSum := errorSum + error;
      }
    }

    method Restrict(output: real) returns (limited: real)
      ensures limited == Restricted(View(), output, lastOutput)
    {
      limited := output;
      if outputRampRate != 0.0 {
        limited := Clamp(limited, lastOutput - outputRampRate, lastOutput + outputRampRate);
      }
      if minOutput != maxOutput {
        limited := Clamp(limited, minOutput, maxOutput);
      }
    }

    method IntegralOutput() returns (iOutput: real)
      ensures iOutput == IntegralTerm(View())
    {
      hide Clamp;
      iOutput := i * errorSum;
      if maxIOutput != 0.0 {
        iOutput := Clamp(iOutput, -maxIOutput, maxIOutput);
      }
    }

    /** The first half of `getOutput`: ramp of the setpoint, first-run defaults and the four terms. */
    method AddTerms(actual: real, setpoint: real) returns (error: real, output: real)
      modifies this
      ensures error == Target(old(View()), actual, setpoint) - actual
      ensures output == RawOutput(old(View()), actual, setpoint)
      ensures View() == old(View()).(setpoint := setpoint, lastActual := actual, firstRun := false,
                                     lastOutput := PriorOutput(old(View()), actual, setpoint))
    {
      hide Clamp;
      ghost var c := View();
      this.setpoint := setpoint;
      var target := setpoint;
      if setpointRange != 0.0 {
        target := Clamp(target, actual - setpointRange, actual + setpointRange);
      }
      assert target == Target(c, actual, setpoint);
      error := target - actual;
      var fOutput := f * target;
      var pOutput := p * error;
      assert fOutput == FeedForwardTerm(c, actual, setpoint) && pOutput == ProportionalTerm(c, actual, setpoint);
      if firstRun {
        lastActual := actual;
        lastOutput := pOutput + fOutput;
        firstRun := false;
      }
      assert lastActual == PriorActual(c, actual);
      var dOutput := -d * (actual - lastActual);
      assert dOutput == DerivativeTerm(c, actual);
      lastActual := actual;
      IntegralFrame(c, setpoint, actual, false, lastOutput);
      hide IntegralTerm;
      var iOutput := IntegralOutput();
      output := fOutput + pOutput + iOutput + dOutput;
    }

    /** `getOutput(actual, setpoint)`. */
    method GetOutput(actual: real, setpoint: real) returns (output: real)
      modifies this
      ensures output == Output(old(View()), actual, setpoint)
      ensures View() == AfterOutput(old(View()), actual, setpoint)
    {
      var error;
      error, output := AddTerms(actual, setpoint);
      UpdateErrorSum(error, output);
      output := Restrict(output);
      if outputFilter != 0.0 {
        output := Blend(lastOutput, output, outputFilter);
      }
      lastOutput := output;
    }

    /** `getOutput(actual)`: with the last setpoint. */
    method GetOutputAt(actual: real) returns (output: real)
      modifies this
      ensures output == Output(old(View()), actual, old(setpoint))
      ensures View() == AfterOutput(old(View()), actual, old(setpoint))
    {
      output := GetOutput(actual, setpoint);
    }

    /** `getOutput()`: with the last setpoint and the last measured value. */
    method GetOutputAgain() returns (output: real)
      modifies this
      ensures output == Output(old(View()), old(lastActual), old(setpoint))
      ensures View() == AfterOutput(old(View()), old(lastActual), old(setpoint))
    {
      output := GetOutput(lastActual, setpoint);
    }
  }
}
