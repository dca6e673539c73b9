/** The PCA9685 PWM chip and the driver pca9685.c on top of it. The chip has four one-byte registers
    for each of its 16 channels, and four ALL_LED registers whose writes go through to every channel
    and which read as zero. */
module Pca9685 {

  const LED0_ON_L: nat := 0x6
  const LEDALL_ON_L: nat := 0xFA
  const PIN_ALL: nat := 16
  const CHANNELS: nat := 16

  type Byte = x: int | 0 <= x < 256

  /** Registers ON_L, ON_H, OFF_L and OFF_H of a channel. */
  datatype Registers = Registers(onL: Byte, onH: Byte, offL: Byte, offH: Byte) {
    function At(k: nat): Byte
      requires k < 4
    {
      match k
      case 0 => onL
      case 1 => onH
      case 2 => offL
      case _ => offH
    }

    function Put(k: nat, v: Byte): Registers
      requires k < 4
    {
      match k
      case 0 => this.(onL := v)
      case 1 => this.(onH := v)
      case 2 => this.(offL := v)
      case _ => this.(offH := v)
    }
  }

  /** What a channel puts out. Full-off beats full-on, and either beats the tick counts. */
  datatype Signal = FullOff | FullOn | Pwm(on: nat, off: nat)

  /** Bit 4 of a high byte is the full-on or full-off flag; setting it is `| 0x10`, clearing it
      is `& 0xEF`. */
  predicate Flag(b: Byte) {
    b / 16 % 2 == 1
  }

  function SetFlag(b: Byte): Byte {
    if Flag(b) then b else b + 16
  }

  function ClearFlag(b: Byte): Byte {
    if Flag(b) then b - 16 else b
  }

  function Decode(r: Registers): Signal {
    if Flag(r.offH) then FullOff
    else if Flag(r.onH) then FullOn
    else Pwm(r.onH % 16 * 256 + r.onL, r.offH % 16 * 256 + r.offL)
  }

  function BaseReg(pin: nat): nat {
    if pin >= PIN_ALL then LEDALL_ON_L else LED0_ON_L + 4 * pin
  }

  /** Pins 0..15 name one channel; pin 16 names all of them. */
  predicate Addresses(pin: nat, c: nat) {
    pin == c || pin == PIN_ALL
  }

  /** A flagged high byte after the driver set or cleared its flag through `pin`. The all-pin reads
      as zero, so its low bits are lost there. */
  function FlagWritten(pin: nat, was: Byte, tf: bool): Byte {
    var read := if pin == PIN_ALL then 0 else was;
    if tf then SetFlag(read) else ClearFlag(read)
  }

  /** A written flag is what was asked for. */
  lemma FlagFollows(pin: nat)
    ensures forall was: Byte, tf: bool :: Flag(FlagWritten(pin, was, tf)) == tf
  {}

  // --- the chip --------------------------------------------------------------------------------

  predicate LedRegister(reg: nat) {
    LED0_ON_L <= reg < LED0_ON_L + 4 * CHANNELS
  }

  predicate AllRegister(reg: nat) {
    LEDALL_ON_L <= reg < LEDALL_ON_L + 4
  }

  /** Channel `c` after `value` is written to register address `reg`. */
  function Written(r: Registers, c: nat, reg: nat, value: Byte): Registers {
    if AllRegister(reg) then r.Put(reg - LEDALL_ON_L, value)
    else if LedRegister(reg) && (reg - LED0_ON_L) / 4 == c then r.Put((reg - LED0_ON_L) % 4, value)
    else r
  }

  class Chip {
    const channels: array<Registers>

    ghost predicate Valid()
      reads this
    {
      channels.Length == CHANNELS
    }

    /** Power-up contents are unspecified; this model starts from all zero. */
    constructor ()
      ensures Valid() && fresh(channels)
    {
      channels := new Registers[CHANNELS](_ => Registers(0, 0, 0, 0));
    }

    ghost function Output(c: nat): Signal
      requires Valid() && c < CHANNELS
      reads this, channels
    {
      Decode(channels[c])
    }

    /** `wiringPiI2CReadReg8`. */
    method Read8(reg: nat) returns (value: Byte)
      requires Valid() && (LedRegister(reg) || AllRegister(reg))
      ensures AllRegister(reg) ==> value == 0
      ensures LedRegister(reg) ==> value == channels[(reg - LED0_ON_L) / 4].At((reg - LED0_ON_L) % 4)
    {
      if AllRegister(reg) {
        value := 0;
      } else {
        value := channels[(reg - LED0_ON_L) / 4].At((reg - LED0_ON_L) % 4);
      }
    }

    /** `wiringPiI2CWriteReg8`. */
    method Write8(reg: nat, value: Byte)
      requires Valid()
      modifies channels
      ensures forall c :: 0 <= c < CHANNELS ==> channels[c] == Written(old(channels[c]), c, reg, value)
    {
      if AllRegister(reg) {
        forall c | 0 <= c < CHANNELS {
          channels[c] := channels[c].Put(reg - LEDALL_ON_L, value);
        }
      } else if LedRegister(reg) {
        var c := (reg - LED0_ON_L) / 4;
        channels[c] := channels[c].Put((reg - LED0_ON_L) % 4, value);
      }
    }

    /** `wiringPiI2CWriteReg16`: low byte first, the chip stepping to the next register. */
    method Write16(reg: nat, value: nat)
      requires Valid() && value < 0x10000
      modifies channels
      ensures forall c :: 0 <= c < CHANNELS ==>
                channels[c] == Written(Written(old(channels[c]), c, reg, value % 256), c, reg + 1, value / 256)
    {
      Write8(reg, value % 256);
      Write8(reg + 1, value / 256);
    }

    // --- the driver ------------------------------------------------------------------------------

    /** `pca9685PWMWrite`: ticks modulo 4096, both flags cleared. */
    method PwmTicks(pin: nat, on: int, off: int)
      requires Valid() && pin <= PIN_ALL
      modifies channels
      ensures forall c :: 0 <= c < CHANNELS ==>
                if Addresses(pin, c) then Output(c) == Pwm(on % 4096, off % 4096) else channels[c] == old(channels[c])
    {
      var reg := BaseReg(pin);
      Write16(reg, on % 4096);
      Write16(reg + 2, off % 4096);
    }

    /** Read a high byte (`k` is 1 or 3), set or clear its flag, write it back. */
    method WriteFlag(pin: nat, k: nat, tf: bool)
      requires Valid() && pin <= PIN_ALL && (k == 1 || k == 3)
      modifies channels
      ensures forall c :: 0 <= c < CHANNELS ==>
                channels[c] == if !Addresses(pin, c) then old(channels[c])
                               else old(channels[c]).Put(k, FlagWritten(pin, old(channels[c]).At(k), tf))
    {
      hide Flag, SetFlag, ClearFlag;
      var reg := BaseReg(pin) + k;
      var state := Read8(reg);
      state := if tf then SetFlag(state) else ClearFlag(state);
      Write8(reg, state);
    }

    /** `pca9685FullOff`. For a single pin only the flag changes; through the all-pin the registers
        read as zero, so the low bits of OFF_H are lost. */
    method SetFullOff(pin: nat, tf: bool)
      requires Valid() && pin <= PIN_ALL
      modifies channels
      ensures forall c :: 0 <= c < CHANNELS ==>
                channels[c] == if !Addresses(pin, c) then old(channels[c])
                               else old(channels[c]).(offH := FlagWritten(pin, old(channels[c]).offH, tf))
      ensures forall c :: 0 <= c < CHANNELS && Addresses(pin, c) && tf ==> Output(c) == FullOff
    {
      hide Flag, FlagWritten;
      FlagFollows(pin);
      WriteFlag(pin, 3, tf);
    }

    /** `pca9685FullOn`; switching on also takes full-off away. */
    method SetFullOn(pin: nat, tf: bool)
      requires Valid() && pin <= PIN_ALL
      modifies channels
      ensures forall c :: 0 <= c < CHANNELS && !Addresses(pin, c) ==> channels[c] == old(channels[c])
      ensures forall c :: 0 <= c < CHANNELS && Addresses(pin, c) && tf ==> Output(c) == FullOn
      ensures forall c :: 0 <= c < CHANNELS && Addresses(pin, c) && !tf ==>
                channels[c] == old(channels[c]).(onH := FlagWritten(pin, old(channels[c]).onH, false))
    {
      hide Flag, FlagWritten;
      FlagFollows(pin);
      WriteFlag(pin, 1, tf);
      if tf {
        SetFullOff(pin, false);
      }
    }

    /** `pca9685PWMReset`. */
    method PwmReset()
      requires Valid()
      modifies channels
      ensures forall c :: 0 <= c < CHANNELS ==> channels[c] == Registers(0, 0, 0, 0x10) && Output(c) == FullOff
    {
      Write16(LEDALL_ON_L, 0x0);
      Write16(LEDALL_ON_L + 2, 0x1000);
      assert Flag(0x10);
    }

    /** `myPwmWrite` and `myOnOffWrite`. */
    method Execute(cmd: Command)
      requires Valid() && cmd.pin <= PIN_ALL
      modifies channels
      ensures forall c :: 0 <= c < CHANNELS ==>
                if Addresses(cmd.pin, c) then Output(c) == Meaning(cmd) else channels[c] == old(channels[c])
    {
      hide Decode, FlagWritten;
      match cmd
      case PwmWrite(pin, value) =>
        if value >= 4096 {
          SetFullOn(pin, true);
        } else if value > 0 {
          PwmTicks(pin, 0, value);
        } else {
          SetFullOff(pin, true);
        }
      case DigitalWrite(pin, value) =>
        if value != 0 {
          SetFullOn(pin, true);
        } else {
          SetFullOff(pin, true);
        }
    }

    /** Any sequence of commands leaves each channel with the signal of the last one addressing it,
        and the registers of a channel nobody addressed as they were. */
    method ExecuteAll(cmds: seq<Command>)
      requires Valid() && forall i :: 0 <= i < |cmds| ==> cmds[i].pin <= PIN_ALL
      modifies channels
      ensures forall c :: 0 <= c < CHANNELS ==> Output(c) == LastSignal(cmds, c, old(Output(c)))
      ensures forall c :: 0 <= c < CHANNELS && Untouched(cmds, c) ==> channels[c] == old(channels[c])
    {
      var n := 0;
      while n < |cmds|
        invariant 0 <= n <= |cmds|
        invariant forall c :: 0 <= c < CHANNELS ==> Output(c) == LastSignal(cmds[..n], c, old(Output(c)))
        invariant forall c :: 0 <= c < CHANNELS && Untouched(cmds[..n], c) ==> channels[c] == old(channels[c])
      {
        hide Decode;
        Execute(cmds[n]);
        assert cmds[..n + 1][..n] == cmds[..n];
        UntouchedBefore(cmds, n);
        n := n + 1;
      }
      assert cmds[..n] == cmds;
    }
  }

  // --- commands and what they leave behind -----------------------------------------------------

  datatype Command = PwmWrite(pin: nat, value: int) | DigitalWrite(pin: nat, value: int)

  /** What pca9685.h promises for a command. */
  function Meaning(cmd: Command): Signal {
    match cmd
    case PwmWrite(_, value) => if value <= 0 then FullOff else if value >= 4096 then FullOn else Pwm(0, value)
    case DigitalWrite(_, value) => if value != 0 then FullOn else FullOff
  }

  // --- what a signal looks like on the pin -----------------------------------------------------

  const PERIOD: nat := 4096

  /** The level at a tick of the period: high from the on-tick until the off-tick, which may lie in the
      next period. */
  predicate High(s: Signal, tick: nat) {
    match s
    case FullOff => false
    case FullOn => true
    case Pwm(on, off) => if on <= off then on <= tick < off else tick < off || on <= tick
  }

  /** How many of the first `n` ticks are high. */
  function HighTicks(s: Signal, n: nat): nat {
    if n == 0 then 0 else HighTicks(s, n - 1) + if High(s, n - 1) then 1 else 0
  }

  lemma {:induction false} HighFromStart(s: Signal, off: nat, n: nat)
    requires s == Pwm(0, off)
    ensures HighTicks(s, n) == if n < off then n else off
  {
    if n > 0 {
      HighFromStart(s, off, n - 1);
    }
  }

  lemma {:induction false} AlwaysTheSame(s: Signal, n: nat)
    requires s == FullOff || s == FullOn
    ensures HighTicks(s, n) == if s == FullOn then n else 0
  {
    if n > 0 {
      AlwaysTheSame(s, n - 1);
    }
  }

  /** A written value is the number of high ticks in each period of 4096, cut to 0 and 4096. */
  lemma DutyCycle(pin: nat, value: int)
    ensures HighTicks(Meaning(PwmWrite(pin, value)), PERIOD) == if value <= 0 then 0 else if value >= 4096 then 4096 else value
    ensures HighTicks(Meaning(DigitalWrite(pin, value)), PERIOD) == if value == 0 then 0 else 4096
  {
    AlwaysTheSame(FullOff, PERIOD);
    AlwaysTheSame(FullOn, PERIOD);
    if 0 < value < 4096 {
      HighFromStart(Pwm(0, value), value, PERIOD);
    }
  }

  function LastSignal(cmds: seq<Command>, c: nat, initial: Signal): Signal {
    if cmds == [] then initial else
    var last := cmds[|cmds| - 1];
    if Addresses(last.pin, c) then Meaning(last) else LastSignal(cmds[..|cmds| - 1], c, initial)
  }

  predicate Untouched(cmds: seq<Command>, c: nat) {
    forall i :: 0 <= i < |cmds| ==> !Addresses(cmds[i].pin, c)
  }

  lemma UntouchedBefore(cmds: seq<Command>, n: nat)
    requires n < |cmds|
    ensures forall c :: Untouched(cmds[..n + 1], c) ==> Untouched(cmds[..n], c) && !Addresses(cmds[n].pin, c)
  {
    forall c | Untouched(cmds[..n + 1], c)
      ensures Untouched(cmds[..n], c) && !Addresses(cmds[n].pin, c)
    {
      assert cmds[..n + 1][n] == cmds[n];
      assert forall i :: 0 <= i < n ==> cmds[..n][i] == cmds[..n + 1][i];
    }
  }

  /** `LastSignal` is what its name says: the meaning of the latest command for the channel. */
  lemma {:induction false} LastCommandWins(cmds: seq<Command>, i: nat, c: nat, initial: Signal)
    requires i < |cmds| && Addresses(cmds[i].pin, c)
    requires forall j :: i < j < |cmds| ==> !Addresses(cmds[j].pin, c)
    ensures LastSignal(cmds, c, initial) == Meaning(cmds[i])
    decreases |cmds|
  {
    if i < |cmds| - 1 {
      LastCommandWins(cmds[..|cmds| - 1], i, c, initial);
    }
  }

  lemma {:induction false} NoCommandNoChange(cmds: seq<Command>, c: nat, initial: Signal)
    requires Untouched(cmds, c)
    ensures LastSignal(cmds, c, initial) == initial
    decreases |cmds|
  {
    if cmds != [] {
      NoCommandNoChange(cmds[..|cmds| - 1], c, initial);
    }
  }

  /** A channel after full-off was switched on and off again through `pin`. */
  function Toggled(pin: nat, r: Registers): Registers {
    r.(offH := FlagWritten(pin, FlagWritten(pin, r.offH, true), false))
  }

  /** "According to PWM or full-on" again, says the source. That holds on a single pin unless the
      channel was full-off already; on the all-pin it also takes that the channel was full-on or
      that bits 8 to 11 of its off tick were zero. */
  lemma ToggleRestores(pin: nat, r: Registers)
    ensures Decode(Toggled(pin, r)) == Decode(r)
            <==> !Flag(r.offH) && (pin != PIN_ALL || Flag(r.onH) || r.offH % 16 == 0)
  {
    var t := Toggled(pin, r);
    assert !Flag(t.offH);
    if pin == PIN_ALL {
      assert t.offH == 0;
    }
  }
}
