/** The actuator chain of the recovery controller: ServoPID and ThrottlePID turn controller outputs
    into pulse lengths, `Pca` turns pulse lengths into PWM ticks on channels 11 and 15. */
module Actuator {
  import opened MiniPid
  import opened MiniPidAnswers
  import opened MiniPidLaws
  import opened Pca9685

  const MAX_PWM: real := 4096.0
  const HERTZ: real := 60.0
  const SPEED_CHANNEL: nat := 15
  const DIRECT_CHANNEL: nat := 11

  /** `calcTicks` ends the process when the pulse is out of range. */
  datatype Ticks = Exit | Ticks(n: int)

  function CalcTicks(impulseMs: real): Ticks {
    if impulseMs > 2.0 || impulseMs < 1.0 then Exit
    else Ticks((MAX_PWM * impulseMs * 0.001 / (1.0 / HERTZ)).Floor)
  }

  function Pulse(output: real): real {
    output / 2.0 + 1.5
  }

  /** Exactly the pulses of 1 to 2 ms have ticks, 245 to 491 of them, and at least 368 from 1.5 ms on. */
  lemma TickRange(impulseMs: real)
    ensures CalcTicks(impulseMs) != Exit <==> 1.0 <= impulseMs <= 2.0
    ensures 1.0 <= impulseMs <= 2.0 ==> 245 <= CalcTicks(impulseMs).n <= 491
    ensures 1.5 <= impulseMs <= 2.0 ==> 368 <= CalcTicks(impulseMs).n
  {
    var exact := MAX_PWM * impulseMs * 0.001 / (1.0 / HERTZ);
    assert exact == 245.76 * impulseMs;
  }

  /** 60 periods of 4096 ticks a second are 245.76 ticks a millisecond, rounded down. */
  lemma TicksExact(impulseMs: real)
    requires 1.0 <= impulseMs <= 2.0
    ensures CalcTicks(impulseMs) == Ticks((245.76 * impulseMs).Floor)
  {
    assert MAX_PWM * impulseMs * 0.001 / (1.0 / HERTZ) == 245.76 * impulseMs;
  }

  /** A controller with fixed output limits and nothing else to restrict it, whatever its gains and its
      past. It is never reset. */
  predicate LimitedTo(c: Pid, min: real, max: real) {
    && c.minOutput == min && c.maxOutput == max && LimitedOnly(c)
    && (c.firstRun ==> c.errorSum == 0.0)
  }

  /** What such a controller answers, on its first call as later on. */
  lemma TurnAnswer(c: Pid, x: Sample, min: real, max: real)
    requires LimitedTo(c, min, max)
    ensures OutputOf(c, x) == LimitedAnswer(c, c.errorSum, PriorActual(c, x.actual), x)
  {
    if c.firstRun {
      LimitedFirst(c, x);
    } else {
      LimitedFormula(c, x);
    }
    hide OutputOf;
  }

  lemma OutputWithinLimits(c: Pid, actual: real, setpoint: real, min: real, max: real)
    requires LimitedTo(c, min, max) && min < max
    ensures min <= Output(c, actual, setpoint) <= max
    ensures LimitedTo(AfterOutput(c, actual, setpoint), min, max)
  {}

  /** A controller limited to [-1, 1] (or [0, 1]) always yields a pulse that `calcTicks` accepts. */
  lemma PulseInRange(c: Pid, actual: real, setpoint: real, min: real)
    requires LimitedTo(c, min, 1.0) && -1.0 <= min <= 0.0
    ensures var pulse := Pulse(Output(c, actual, setpoint));
            && CalcTicks(pulse).Ticks? && 245 <= CalcTicks(pulse).n <= 491
            && (min == 0.0 ==> 368 <= CalcTicks(pulse).n)
  {
    OutputWithinLimits(c, actual, setpoint, min, 1.0);
    TickRange(Pulse(Output(c, actual, setpoint)));
  }

  predicate InRange(s: Signal, least: nat) {
    s.Pwm? && s.on == 0 && least <= s.off <= 491
  }

  // --- Pca -------------------------------------------------------------------------------------

  /** `exited` records that `calcTicks` ended the process. */
  class Pca {
    const chip: Chip
    var exited: bool

    ghost predicate Valid()
      reads this, chip
    {
      chip.Valid()
    }

    /** What safety rests on: the process lives and both channels carry pulses in range. */
    ghost predicate Safe()
      requires Valid()
      reads this, chip, chip.channels
    {
      && !exited
      && InRange(chip.Output(DIRECT_CHANNEL), 245)
      && InRange(chip.Output(SPEED_CHANNEL), 368)
    }

    constructor ()
      ensures Valid() && Safe() && fresh(chip) && fresh(chip.channels)
      ensures forall c :: 0 <= c < CHANNELS && c != DIRECT_CHANNEL && c != SPEED_CHANNEL ==> chip.Output(c) == FullOff
    {
      chip := new Chip();
      exited := false;
      new;
      chip.PwmReset();
      assert forall c :: 0 <= c < CHANNELS ==> chip.Output(c) == FullOff;
      var neutral := 1.5;
      TickRange(neutral);
      SetPulse(SPEED_CHANNEL, neutral);
      assert InRange(chip.Output(SPEED_CHANNEL), 368);
      SetPulse(DIRECT_CHANNEL, neutral);
    }

    /** `setSpeed` on channel 15, `setDirect` on channel 11. */
    method SetPulse(channel: nat, pulse: real)
      requires Valid() && channel < CHANNELS
      modifies `exited, chip.channels
      ensures exited == (old(exited) || CalcTicks(pulse) == Exit)
      ensures CalcTicks(pulse).Ticks? ==> chip.Output(channel) == Meaning(PwmWrite(channel, CalcTicks(pulse).n))
      ensures forall c :: 0 <= c < CHANNELS && (c != channel || CalcTicks(pulse) == Exit) ==>
                chip.channels[c] == old(chip.channels[c])
    {
      match CalcTicks(pulse)
      case Exit => exited := true;
      case Ticks(n) => chip.Execute(PwmWrite(channel, n));
    }
  }

  // --- ServoPID and ThrottlePID ----------------------------------------------------------------

  datatype Gains = Gains(p: real, i: real, d: real)

  function Retuned(c: Pid, flagged: bool, gains: Gains): Pid {
    if flagged then WithSigns(c.(p := gains.p, i := gains.i, d := gains.d)) else c
  }

  /** `retuned` is `is_new_data[4]` for the servo and `is_new_data[5]` for the throttle. */
  class PidProcess {
    const pid: Controller
    const pca: Pca
    var gains: Gains
    var retuned: bool

    ghost predicate Valid(min: real)
      reads this, pid, pca, pca.chip
    {
      pca.Valid() && LimitedTo(pid.View(), min, 1.0)
    }

    constructor (pca: Pca, p: real, i: real, d: real, min: real)
      requires pca.Valid() && min < 1.0
      ensures Valid(min) && this.pca == pca && !retuned && fresh(pid)
      ensures pid.View() == WithOutputLimits(Fresh(p, i, d, 0.0), min, 1.0)
    {
      this.pca := pca;
      pid := new Controller(p, i, d, 0.0);
      gains, retuned := Gains(0.0, 0.0, 0.0), false;
      new;
      pid.SetOutputLimits(min, 1.0);
    }

    /** Live retune, when flagged. */
    method Retune()
      modifies `retuned, pid
      ensures !retuned
      ensures pid.View() == Retuned(old(pid.View()), old(retuned), gains)
    {
      if retuned {
        pid.SetPID(gains.p, gains.i, gains.d);
        retuned := false;
      }
    }

    /** `Run`: retune, compute, drive `channel`. Returns the pulse, which ServoPID also writes back
        as the new direction. */
    method Run(ghost min: real, actual: real, setpoint: real, channel: nat) returns (pulse: real)
      requires Valid(min) && -1.0 <= min <= 0.0 && channel < CHANNELS
      modifies `retuned, pid, pca`exited, pca.chip.channels
      ensures Valid(min) && pca.exited == old(pca.exited) && !retuned
      ensures pulse == Pulse(Output(Retuned(old(pid.View()), old(retuned), gains), actual, setpoint))
      ensures pid.View() == AfterOutput(Retuned(old(pid.View()), old(retuned), gains), actual, setpoint)
      ensures InRange(pca.chip.Output(channel), if min == 0.0 then 368 else 245)
      ensures CalcTicks(pulse).Ticks? && CalcTicks(pulse).n >= 0 && pca.chip.Output(channel) == Pwm(0, CalcTicks(pulse).n)
      ensures forall c :: 0 <= c < CHANNELS && c != channel ==> pca.chip.channels[c] == old(pca.chip.channels[c])
    {
      Retune();
      ghost var c := pid.View();
      PulseInRange(c, actual, setpoint, min);
      OutputWithinLimits(c, actual, setpoint, min, 1.0);
      var output := pid.GetOutput(actual, setpoint);
      pulse := Pulse(output);
      pca.SetPulse(channel, pulse);
    }
  }

  // --- the whole vehicle -----------------------------------------------------------------------

  /** What can happen next: other processes write sensor values and targets or request a retune,
      or one of the two processes takes its turn. */
  datatype Event =
    | Sense(direction: real, speed: real, targetSpeed: real)
    | RetuneServo(gains: Gains)
    | RetuneThrottle(gains: Gains)
    | ServoTurn
    | ThrottleTurn

  /** One of the two processes with the channel it drives. */
  datatype Loop = Loop(pid: Pid, gains: Gains, retuned: bool, signal: Signal)

  datatype Car = Car(direction: real, speed: real, targetSpeed: real, servo: Loop, throttle: Loop)

  function PulseOf(l: Loop, x: Sample): real {
    Pulse(OutputOf(Retuned(l.pid, l.retuned, l.gains), x))
  }

  function AfterTurn(l: Loop, x: Sample): Loop {
    var ticks := CalcTicks(PulseOf(l, x));
    Loop(AfterOutput(Retuned(l.pid, l.retuned, l.gains), x.actual, x.setpoint), l.gains, false,
         Pwm(0, if ticks.Ticks? && ticks.n >= 0 then ticks.n else 0))
  }

  /** ServoPID steers towards direction 0 and writes its pulse back as the direction; ThrottlePID
      drives the measured speed towards the target. */
  function AfterEvent(v: Car, e: Event): Car {
    match e
    case Sense(d, s, t) => v.(direction := d, speed := s, targetSpeed := t)
    case RetuneServo(gains) => v.(servo := v.servo.(gains := gains, retuned := true))
    case RetuneThrottle(gains) => v.(throttle := v.throttle.(gains := gains, retuned := true))
    case ServoTurn =>
      v.(direction := PulseOf(v.servo, Sample(v.direction, 0.0)), servo := AfterTurn(v.servo, Sample(v.direction, 0.0)))
    case ThrottleTurn => v.(throttle := AfterTurn(v.throttle, Sample(v.speed, v.targetSpeed)))
  }

  function AfterEvents(v: Car, events: seq<Event>): Car {
    if events == [] then v else AfterEvent(AfterEvents(v, events[..|events| - 1]), events[|events| - 1])
  }

  predicate Ready(v: Car) {
    LimitedTo(v.servo.pid, -1.0, 1.0) && LimitedTo(v.throttle.pid, 0.0, 1.0)
    && !v.servo.pid.reversed && !v.throttle.pid.reversed
  }

  lemma TurnKeepsLimits(l: Loop, x: Sample, min: real)
    requires LimitedTo(l.pid, min, 1.0)
    ensures LimitedTo(AfterTurn(l, x).pid, min, 1.0) && AfterTurn(l, x).pid.reversed == l.pid.reversed
  {
    hide Output, NextErrorSum;
  }

  lemma EventKeepsReady(v: Car, e: Event)
    requires Ready(v)
    ensures Ready(AfterEvent(v, e))
  {
    TurnKeepsLimits(v.servo, Sample(v.direction, 0.0), -1.0);
    TurnKeepsLimits(v.throttle, Sample(v.speed, v.targetSpeed), 0.0);
    hide AfterTurn, PulseOf, LimitedTo;
  }

  lemma {:induction false} EventsKeepReady(v: Car, events: seq<Event>)
    requires Ready(v)
    ensures Ready(AfterEvents(v, events))
    decreases |events|
  {
    if events != [] {
      hide Ready, AfterEvent;
      EventsKeepReady(v, events[..|events| - 1]);
      EventKeepsReady(AfterEvents(v, events[..|events| - 1]), events[|events| - 1]);
    }
  }

  /** The controller a turn works with: on a retune the new gains, without their signs. */
  function Tuned(l: Loop): Pid {
    if l.retuned then l.pid.(p := Abs(l.gains.p), i := Abs(l.gains.i), d := Abs(l.gains.d), f := Abs(l.pid.f)) else l.pid
  }

  lemma TunedIs(l: Loop)
    requires !l.pid.reversed
    ensures Retuned(l.pid, l.retuned, l.gains) == Tuned(l)
  {}

  /** A pulse of 1.5 + q/2 ms, 245.76 ticks each, from the start of the period. */
  predicate Carries(s: Signal, q: real) {
    s.Pwm? && s.on == 0 && s.off == (245.76 * (1.5 + q / 2.0)).Floor
  }

  /** A turn in numbers. With q the textbook answer cut to the limits, the pulse is 1.5 + q/2 ms and the
      channel carries floor(245.76 * (1.5 + q/2)) ticks. */
  lemma TurnInNumbers(l: Loop, x: Sample, min: real)
    requires LimitedTo(l.pid, min, 1.0) && -1.0 <= min <= 0.0 && !l.pid.reversed
    ensures var c := Tuned(l);
            var q := LimitedAnswer(c, c.errorSum, if c.firstRun then x.actual else c.lastActual, x);
            && PulseOf(l, x) == 1.5 + q / 2.0
            && Carries(AfterTurn(l, x).signal, q)
  {
    var c := Tuned(l);
    TunedIs(l);
    TunedLimited(l, min);
    TurnAnswer(c, x, min, 1.0);
    PulseInRange(c, x.actual, x.setpoint, min);
    OutputWithinLimits(c, x.actual, x.setpoint, min, 1.0);
    TicksExact(PulseOf(l, x));
    hide LimitedAnswer, Output, CalcTicks, Retuned, AfterOutput, Tuned;
  }

  lemma TunedLimited(l: Loop, min: real)
    requires LimitedTo(l.pid, min, 1.0)
    ensures LimitedTo(Tuned(l), min, 1.0)
  {}

  /** The throttle over any run: channel 15 follows the distance of the target speed from the measured
      one. */
  lemma ThrottleInNumbers(v: Car, events: seq<Event>)
    requires Ready(v)
    ensures var before, after := AfterEvents(v, events), AfterEvents(v, events + [ThrottleTurn]);
            var c := Tuned(before.throttle);
            var x := Sample(before.speed, before.targetSpeed);
            var q := LimitedAnswer(c, c.errorSum, if c.firstRun then before.speed else c.lastActual, x);
            && Carries(after.throttle.signal, q)
            && after == before.(throttle := after.throttle)
  {
    EventsKeepReady(v, events);
    var before := AfterEvents(v, events);
    assert (events + [ThrottleTurn])[..|events|] == events;
    hide AfterTurn, LimitedAnswer, Tuned, PulseOf;
    TurnInNumbers(before.throttle, Sample(before.speed, before.targetSpeed), 0.0);
  }

  /** The servo over any run: channel 11 follows the direction, which then becomes the pulse length. */
  lemma ServoInNumbers(v: Car, events: seq<Event>)
    requires Ready(v)
    ensures var before, after := AfterEvents(v, events), AfterEvents(v, events + [ServoTurn]);
            var c := Tuned(before.servo);
            var x := Sample(before.direction, 0.0);
            var q := LimitedAnswer(c, c.errorSum, if c.firstRun then before.direction else c.lastActual, x);
            && Carries(after.servo.signal, q)
            && after.direction == 1.5 + q / 2.0
            && after == before.(servo := after.servo, direction := after.direction)
  {
    EventsKeepReady(v, events);
    var before := AfterEvents(v, events);
    assert (events + [ServoTurn])[..|events|] == events;
    hide AfterTurn, LimitedAnswer, Tuned, PulseOf;
    TurnInNumbers(before.servo, Sample(before.direction, 0.0), -1.0);
  }

  predicate Proportional(c: Pid) {
    c.i == 0.0 && c.d == 0.0 && c.f == 0.0
  }

  /** Proportional control: gain times what is missing from the setpoint, cut to the limits. */
  function ProportionalAnswer(gain: real, actual: real, setpoint: real, min: real): real {
    Cut(gain * (setpoint - actual), min, 1.0)
  }

  lemma ProportionalIs(c: Pid, previous: real, x: Sample, min: real)
    requires Proportional(c) && LimitedTo(c, min, 1.0)
    ensures LimitedAnswer(c, c.errorSum, previous, x) == ProportionalAnswer(c.p, x.actual, x.setpoint, min)
  {}

  lemma ProportionalTurn(l: Loop, x: Sample, min: real)
    requires LimitedTo(l.pid, min, 1.0) && -1.0 <= min <= 0.0 && !l.pid.reversed && Proportional(Tuned(l))
    ensures var q := ProportionalAnswer(Tuned(l).p, x.actual, x.setpoint, min);
            PulseOf(l, x) == 1.5 + q / 2.0 && Carries(AfterTurn(l, x).signal, q)
  {
    hide Tuned, AfterTurn, PulseOf, LimitedAnswer, ProportionalAnswer, Carries;
    var c := Tuned(l);
    TunedLimited(l, min);
    TurnInNumbers(l, x, min);
    ProportionalIs(c, if c.firstRun then x.actual else c.lastActual, x, min);
  }

  /** As shipped the throttle is proportional: q is P times the missing speed, cut to [0, 1]. */
  lemma ProportionalThrottle(v: Car, events: seq<Event>)
    requires Ready(v) && Proportional(Tuned(AfterEvents(v, events).throttle))
    ensures var before, after := AfterEvents(v, events), AfterEvents(v, events + [ThrottleTurn]);
            Carries(after.throttle.signal,
                    ProportionalAnswer(Tuned(before.throttle).p, before.speed, before.targetSpeed, 0.0))
  {
    EventsKeepReady(v, events);
    assert (events + [ThrottleTurn])[..|events|] == events;
    hide Tuned, AfterTurn, PulseOf, ProportionalAnswer, Carries;
    var before := AfterEvents(v, events);
    ProportionalTurn(before.throttle, Sample(before.speed, before.targetSpeed), 0.0);
  }

  /** The last turn of a run, from what it leaves behind: settings and gains stay, and the controller
      remembers the value it was given. */
  lemma ThrottleLeaves(v: Car)
    requires Ready(v) && Proportional(AfterEvent(v, ThrottleTurn).throttle.pid)
    ensures var w := AfterEvent(v, ThrottleTurn);
            Carries(w.throttle.signal, ProportionalAnswer(w.throttle.pid.p, w.speed, w.targetSpeed, 0.0))
  {
    TurnLeaves(v.throttle, Sample(v.speed, v.targetSpeed));
    hide Tuned, AfterTurn, PulseOf, ProportionalAnswer, Carries;
    ProportionalTurn(v.throttle, Sample(v.speed, v.targetSpeed), 0.0);
  }

  lemma ServoLeaves(v: Car)
    requires Ready(v) && Proportional(AfterEvent(v, ServoTurn).servo.pid)
    ensures var w := AfterEvent(v, ServoTurn);
            var q := ProportionalAnswer(w.servo.pid.p, w.servo.pid.lastActual, 0.0, -1.0);
            w.servo.pid.lastActual == v.direction && w.direction == 1.5 + q / 2.0 && Carries(w.servo.signal, q)
  {
    TurnLeaves(v.servo, Sample(v.direction, 0.0));
    hide Tuned, AfterTurn, PulseOf, ProportionalAnswer, Carries;
    ProportionalTurn(v.servo, Sample(v.direction, 0.0), -1.0);
  }

  lemma TurnLeaves(l: Loop, x: Sample)
    requires !l.pid.reversed
    ensures var c, e := Tuned(l), AfterTurn(l, x).pid;
            e.p == c.p && e.i == c.i && e.d == c.d && e.f == c.f && e.lastActual == x.actual
  {
    TunedIs(l);
    hide Output, NextErrorSum, Retuned, Tuned;
  }

  /** A requested retune takes effect at the next turn of its own process and leaves the other alone. */
  lemma RetuneTakesEffect(v: Car, gains: Gains)
    requires Ready(v)
    ensures var s := AfterEvent(AfterEvent(v, RetuneServo(gains)), ServoTurn);
            var p := s.servo.pid;
            && p.p == Abs(gains.p) && p.i == Abs(gains.i) && p.d == Abs(gains.d)
            && !s.servo.retuned && s.throttle == v.throttle
    ensures var s := AfterEvent(AfterEvent(v, RetuneThrottle(gains)), ThrottleTurn);
            var p := s.throttle.pid;
            && p.p == Abs(gains.p) && p.i == Abs(gains.i) && p.d == Abs(gains.d)
            && !s.throttle.retuned && s.servo == v.servo
  {
    TurnLeaves(v.servo.(gains := gains, retuned := true), Sample(v.direction, 0.0));
    TurnLeaves(v.throttle.(gains := gains, retuned := true), Sample(v.speed, v.targetSpeed));
    hide Output, NextErrorSum, PulseOf, CalcTicks, Retuned;
  }

  class Vehicle {
    const pca: Pca
    const servo: PidProcess
    const throttle: PidProcess
    var direction: real
    var speed: real
    var targetSpeed: real

    ghost predicate Valid()
      reads this, pca, pca.chip, servo, servo.pid, throttle, throttle.pid
    {
      && pca == servo.pca == throttle.pca && servo != throttle && servo.pid != throttle.pid
      && servo.Valid(-1.0) && throttle.Valid(0.0)
      && !servo.pid.reversed && !throttle.pid.reversed
    }

    ghost function View(): Car
      requires Valid()
      reads this, pca, pca.chip, pca.chip.channels, servo, servo.pid, throttle, throttle.pid
    {
      Car(direction, speed, targetSpeed,
          Loop(servo.pid.View(), servo.gains, servo.retuned, pca.chip.Output(DIRECT_CHANNEL)),
          Loop(throttle.pid.View(), throttle.gains, throttle.retuned, pca.chip.Output(SPEED_CHANNEL)))
    }

    constructor ()
      ensures Valid() && pca.Safe() && Ready(View())
      ensures fresh(pca) && fresh(pca.chip) && fresh(pca.chip.channels)
      ensures fresh(servo) && fresh(servo.pid) && fresh(throttle) && fresh(throttle.pid)
      ensures !servo.retuned && !throttle.retuned
      ensures servo.pid.View()
              == WithOutputLimits(Fresh(0.00228677780020377, 0.00277411402751383, -0.000169192834187225, 0.0), -1.0, 1.0)
      ensures throttle.pid.View() == WithOutputLimits(Fresh(0.00228677780020377, 0.0, 0.0, 0.0), 0.0, 1.0)
    {
      var p := new Pca();
      servo := new PidProcess(p, 0.00228677780020377, 0.00277411402751383, -0.000169192834187225, -1.0);
      throttle := new PidProcess(p, 0.00228677780020377, 0.0, 0.0, 0.0);
      pca := p;
      direction, speed, targetSpeed := 0.0, 0.0, 0.0;
    }

    method ServoStep()
      requires Valid() && pca.Safe()
      modifies `direction, pca`exited, pca.chip.channels, servo`retuned, servo.pid
      ensures Valid() && pca.Safe() && View() == AfterEvent(old(View()), ServoTurn)
      ensures forall c :: 0 <= c < CHANNELS && c != DIRECT_CHANNEL ==> pca.chip.channels[c] == old(pca.chip.channels[c])
    {
      hide Output, Pulse, CalcTicks, NextErrorSum, Decode;
      direction := servo.Run(-1.0, direction, 0.0, DIRECT_CHANNEL);
    }

    method ThrottleStep()
      requires Valid() && pca.Safe()
      modifies pca`exited, pca.chip.channels, throttle`retuned, throttle.pid
      ensures Valid() && pca.Safe() && View() == AfterEvent(old(View()), ThrottleTurn)
      ensures forall c :: 0 <= c < CHANNELS && c != SPEED_CHANNEL ==> pca.chip.channels[c] == old(pca.chip.channels[c])
    {
      hide Output, Pulse, CalcTicks, NextErrorSum, Decode;
      var _ := throttle.Run(0.0, speed, targetSpeed, SPEED_CHANNEL);
    }

    method Handle(e: Event)
      requires Valid() && pca.Safe()
      modifies this, pca, pca.chip.channels, servo, servo.pid, throttle, throttle.pid
      ensures Valid() && pca.Safe() && View() == AfterEvent(old(View()), e)
      ensures forall c :: 0 <= c < CHANNELS && c != DIRECT_CHANNEL && c != SPEED_CHANNEL ==>
                pca.chip.channels[c] == old(pca.chip.channels[c])
    {
      hide Decode, LimitedTo, AfterTurn, PulseOf;
      match e {
        case Sense(d, s, t) => direction, speed, targetSpeed := d, s, t;
        case RetuneServo(gains) => servo.gains, servo.retuned := gains, true;
        case RetuneThrottle(gains) => throttle.gains, throttle.retuned := gains, true;
        case ServoTurn => ServoStep();
        case ThrottleTurn => ThrottleStep();
      }
    }

    /** Whatever the sensors read, whatever the targets are and however often the controllers are
        retuned while running: the vehicle goes through the states of `AfterEvents`, the process never
        exits on a bad pulse, channel 11 stays within 245 to 491 ticks, channel 15 within 368 to 491,
        and no other channel is written. After a turn under proportional control the channel carries
        the pulse for gain times what is missing from the setpoint, and the servo's pulse has become
        the direction. */
    method Drive(events: seq<Event>)
      requires Valid() && pca.Safe()
      modifies this, pca, pca.chip.channels, servo, servo.pid, throttle, throttle.pid
      ensures Valid() && pca.Safe() && View() == AfterEvents(old(View()), events)
      ensures forall c :: 0 <= c < CHANNELS && c != DIRECT_CHANNEL && c != SPEED_CHANNEL ==>
                pca.chip.channels[c] == old(pca.chip.channels[c])
      ensures events != [] && events[|events| - 1] == ThrottleTurn && Proportional(throttle.pid.View()) ==>
                Carries(pca.chip.Output(SPEED_CHANNEL), ProportionalAnswer(throttle.pid.p, speed, targetSpeed, 0.0))
      ensures events != [] && events[|events| - 1] == ServoTurn && Proportional(servo.pid.View()) ==>
                var q := ProportionalAnswer(servo.pid.p, servo.pid.lastActual, 0.0, -1.0);
                direction == 1.5 + q / 2.0 && Carries(pca.chip.Output(DIRECT_CHANNEL), q)
    {
      hide AfterEvent, LimitedTo, Decode, Carries, ProportionalAnswer;
      ghost var start := View();
      for n := 0 to |events|
        invariant Valid() && pca.Safe()
        invariant View() == AfterEvents(start, events[..n])
        invariant forall c :: 0 <= c < CHANNELS && c != DIRECT_CHANNEL && c != SPEED_CHANNEL ==>
                    pca.chip.channels[c] == old(pca.chip.channels[c])
      {
        Handle(events[n]);
        assert events[..n + 1][..n] == events[..n];
      }
      assert events[..|events|] == events;
      LastTurn(start, events);
    }
  }

  lemma LastTurn(start: Car, events: seq<Event>)
    requires Ready(start)
    ensures var w := AfterEvents(start, events);
            events != [] && events[|events| - 1] == ThrottleTurn && Proportional(w.throttle.pid) ==>
              Carries(w.throttle.signal, ProportionalAnswer(w.throttle.pid.p, w.speed, w.targetSpeed, 0.0))
    ensures var w := AfterEvents(start, events);
            events != [] && events[|events| - 1] == ServoTurn && Proportional(w.servo.pid) ==>
              var q := ProportionalAnswer(w.servo.pid.p, w.servo.pid.lastActual, 0.0, -1.0);
              w.direction == 1.5 + q / 2.0 && Carries(w.servo.signal, q)
  {
    if events != [] {
      hide Ready, AfterEvent, Carries, ProportionalAnswer;
      var v := AfterEvents(start, events[..|events| - 1]);
      EventsKeepReady(start, events[..|events| - 1]);
      if events[|events| - 1] == ThrottleTurn && Proportional(AfterEvents(start, events).throttle.pid) {
        ThrottleLeaves(v);
      } else if events[|events| - 1] == ServoTurn && Proportional(AfterEvents(start, events).servo.pid) {
        ServoLeaves(v);
      }
    }
  }

  lemma FirstNumbers(s: Signal, q: real)
    requires q == 0.00228677780020377 * 200.0 && Carries(s, q)
    ensures s == Pwm(0, 424)
  {
    assert q == 0.457355560040754;
    assert 424.0 <= 245.76 * (1.5 + q / 2.0) < 425.0;
  }

  lemma FirstTurn(l: Loop)
    requires LimitedTo(l.pid, 0.0, 1.0) && !l.retuned
    requires l.pid == WithOutputLimits(Fresh(0.00228677780020377, 0.0, 0.0, 0.0), 0.0, 1.0)
    ensures AfterTurn(l, Sample(0.0, 200.0)).signal == Pwm(0, 424)
  {
    assert Tuned(l) == l.pid && Proportional(l.pid) && !l.pid.reversed;
    ProportionalTurn(l, Sample(0.0, 200.0), 0.0);
    FirstQuotient(l.pid.p);
    hide Tuned, AfterTurn, PulseOf, ProportionalAnswer, Carries, LimitedTo;
    FirstNumbers(AfterTurn(l, Sample(0.0, 200.0)).signal, ProportionalAnswer(l.pid.p, 0.0, 200.0, 0.0));
  }

  lemma FirstQuotient(gain: real)
    requires gain == 0.00228677780020377
    ensures ProportionalAnswer(gain, 0.0, 200.0, 0.0) == 0.00228677780020377 * 200.0
  {}

  /** A new vehicle standing still with a target speed of 200: 424 of 4096 ticks. */
  lemma FirstThrottle(v: Car, direction: real)
    requires Ready(v) && !v.throttle.retuned
    requires v.throttle.pid == WithOutputLimits(Fresh(0.00228677780020377, 0.0, 0.0, 0.0), 0.0, 1.0)
    ensures AfterEvents(v, [Sense(direction, 0.0, 200.0), ThrottleTurn]).throttle.signal == Pwm(0, 424)
  {
    var sense := Sense(direction, 0.0, 200.0);
    FirstTurn(v.throttle);
    hide AfterTurn, WithOutputLimits, LimitedTo;
    assert [sense, ThrottleTurn][..1] == [sense] && [sense][..0] == [];
    assert AfterEvents(v, [sense]) == AfterEvent(AfterEvents(v, []), sense);
  }
}
