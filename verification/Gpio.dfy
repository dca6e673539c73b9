/** Packed GPIO registers of bcm2835.c: function select (ten pins of three bits per word) and the
    Pi 4 pull control (sixteen pins of two bits per word), against plain pin-to-value tables. */
module Gpio {

  type Word = bv32

  // --- bits ------------------------------------------------------------------------------------

  /** `peri_set_bits`: only the bits under the mask come from `value`. */
  function Merged(v: Word, value: Word, mask: Word): Word {
    (v & !mask) | (value & mask)
  }

  lemma MergedInside(v: Word, value: Word, mask: Word)
    ensures Merged(v, value, mask) & mask == value & mask
  {}

  lemma MergedOutside(v: Word, value: Word, mask: Word, other: Word)
    requires mask & other == 0
    ensures Merged(v, value, mask) & other == v & other
  {}

  // --- function select: three bits a pin -------------------------------------------------------

  /** `BCM2835_GPIO_FSEL_MASK << (3 * k)`. */
  function Mask3(k: nat): Word
    requires k < 10
  {
    match k
    case 0 => 0x7
    case 1 => 0x38
    case 2 => 0x1C0
    case 3 => 0xE00
    case 4 => 0x7000
    case 5 => 0x3_8000
    case 6 => 0x1C_0000
    case 7 => 0xE0_0000
    case 8 => 0x700_0000
    case _ => 0x3800_0000
  }

  /** `x << (3 * k)`. */
  function Shift3(x: Word, k: nat): Word
    requires k < 10
  {
    match k
    case 0 => x
    case 1 => x << 3
    case 2 => x << 6
    case 3 => x << 9
    case 4 => x << 12
    case 5 => x << 15
    case 6 => x << 18
    case 7 => x << 21
    case 8 => x << 24
    case _ => x << 27
  }

  /** The three bits of pin `k` of a word. */
  function Field3(w: Word, k: nat): Word
    requires k < 10
  {
    match k
    case 0 => w & 7
    case 1 => (w >> 3) & 7
    case 2 => (w >> 6) & 7
    case 3 => (w >> 9) & 7
    case 4 => (w >> 12) & 7
    case 5 => (w >> 15) & 7
    case 6 => (w >> 18) & 7
    case 7 => (w >> 21) & 7
    case 8 => (w >> 24) & 7
    case _ => (w >> 27) & 7
  }

  lemma Field3Masked(w: Word, k: nat)
    requires k < 10
    ensures Field3(w & Mask3(k), k) == Field3(w, k)
  {}

  lemma Field3Shifted(x: Word, k: nat)
    requires k < 10
    ensures Field3(Shift3(x, k), k) == x & 7
  {}

  lemma Mask3Disjoint(k: nat, j: nat)
    requires k < 10 && j < 10 && k != j
    ensures Mask3(k) & Mask3(j) == 0
  {}

  lemma SameUnderMask3(a: Word, b: Word, k: nat)
    requires k < 10 && a & Mask3(k) == b & Mask3(k)
    ensures Field3(a, k) == Field3(b, k)
  {
    hide *;
    Field3Masked(a, k);
    Field3Masked(b, k);
  }

  lemma Merged3Inside(v: Word, x: Word, k: nat)
    requires k < 10
    ensures Field3(Merged(v, Shift3(x, k), Mask3(k)), k) == x & 7
  {
    hide *;
    MergedInside(v, Shift3(x, k), Mask3(k));
    SameUnderMask3(Merged(v, Shift3(x, k), Mask3(k)), Shift3(x, k), k);
    Field3Shifted(x, k);
  }

  lemma Merged3Outside(v: Word, value: Word, k: nat, j: nat)
    requires k < 10 && j < 10 && j != k
    ensures Field3(Merged(v, value, Mask3(k)), j) == Field3(v, j)
  {
    hide *;
    Mask3Disjoint(k, j);
    MergedOutside(v, value, Mask3(k), Mask3(j));
    SameUnderMask3(Merged(v, value, Mask3(k)), v, j);
  }

  /** The two bits of a word no pin uses. */
  const SPARE: Word := 0xC000_0000

  lemma Merged3Spare(v: Word, value: Word, k: nat)
    requires k < 10
    ensures Merged(v, value, Mask3(k)) & SPARE == v & SPARE
  {
    assert Mask3(k) & SPARE == 0;
    MergedOutside(v, value, Mask3(k), SPARE);
  }

  /** The fields and the spare bits are all there is in a word. */
  lemma FieldsDetermineWord(a: Word, b: Word)
    requires forall k :: 0 <= k < 10 ==> Field3(a, k) == Field3(b, k)
    requires a & SPARE == b & SPARE
    ensures a == b
  {
    assert Field3(a, 0) == Field3(b, 0) && Field3(a, 1) == Field3(b, 1) && Field3(a, 2) == Field3(b, 2);
    assert Field3(a, 3) == Field3(b, 3) && Field3(a, 4) == Field3(b, 4) && Field3(a, 5) == Field3(b, 5);
    assert Field3(a, 6) == Field3(b, 6) && Field3(a, 7) == Field3(b, 7) && Field3(a, 8) == Field3(b, 8);
    assert Field3(a, 9) == Field3(b, 9);
  }

  /** The mode table the six registers hold; pins 54 to 59 have fields but no pads. */
  function Modes(regs: seq<Word>): (table: seq<Word>)
    requires |regs| == 6
    ensures |table| == 60
  {
    seq(60, pin requires 0 <= pin < 60 => Field3(regs[pin / 10], pin % 10))
  }

  function Selected(regs: seq<Word>, pin: nat, mode: Word): (r: seq<Word>)
    requires |regs| == 6 && pin < 60
    ensures |r| == 6
  {
    var k := pin % 10;
    regs[pin / 10 := Merged(regs[pin / 10], Shift3(mode, k), Mask3(k))]
  }

  lemma SelectedMode(regs: seq<Word>, pin: nat, mode: Word, p: nat)
    requires |regs| == 6 && pin < 60 && p < 60
    ensures Modes(Selected(regs, pin, mode))[p] == if p == pin then mode & 7 else Modes(regs)[p]
  {
    hide Merged, Mask3, Shift3, Field3;
    if p == pin {
      Merged3Inside(regs[pin / 10], mode, pin % 10);
    } else if p / 10 == pin / 10 {
      assert p % 10 != pin % 10;
      Merged3Outside(regs[pin / 10], Shift3(mode, pin % 10), pin % 10, p % 10);
    }
  }

  /** One `gpio_fsel` is one update of the table, and spare bits stay as they were. */
  lemma SelectedModes(regs: seq<Word>, pin: nat, mode: Word)
    requires |regs| == 6 && pin < 60
    ensures Modes(Selected(regs, pin, mode)) == Modes(regs)[pin := mode & 7]
    ensures forall i :: 0 <= i < 6 ==> Selected(regs, pin, mode)[i] & SPARE == regs[i] & SPARE
  {
    hide Merged, Mask3, Shift3, Field3;
    forall p | 0 <= p < 60
      ensures Modes(Selected(regs, pin, mode))[p] == Modes(regs)[pin := mode & 7][p]
    {
      SelectedMode(regs, pin, mode, p);
    }
    Merged3Spare(regs[pin / 10], Shift3(mode, pin % 10), pin % 10);
  }

  /** The table loses nothing: equal tables and equal spare bits mean equal registers. */
  lemma ModesDetermineRegisters(a: seq<Word>, b: seq<Word>)
    requires |a| == |b| == 6 && Modes(a) == Modes(b)
    requires forall i :: 0 <= i < 6 ==> a[i] & SPARE == b[i] & SPARE
    ensures a == b
  {
    hide Field3;
    forall i | 0 <= i < 6
      ensures a[i] == b[i]
    {
      forall k | 0 <= k < 10
        ensures Field3(a[i], k) == Field3(b[i], k)
      {
        var pin := 10 * i + k;
        assert Modes(a)[pin] == Field3(a[pin / 10], pin % 10);
        assert Modes(b)[pin] == Field3(b[pin / 10], pin % 10);
      }
      FieldsDetermineWord(a[i], b[i]);
    }
  }

  datatype Select = Select(pin: nat, mode: bv8)

  predicate Legal(cmds: seq<Select>) {
    forall i :: 0 <= i < |cmds| ==> cmds[i].pin < 60
  }

  /** The plain table after a series of calls. */
  function Applied(table: seq<Word>, cmds: seq<Select>): (r: seq<Word>)
    requires |table| == 60 && Legal(cmds)
    ensures |r| == 60
  {
    if cmds == [] then table else
    var last := cmds[|cmds| - 1];
    Applied(table, cmds[..|cmds| - 1])[last.pin := (last.mode as Word) & 7]
  }

  /** Whatever the order of the calls: a pin has the low three bits of its last mode, and a pin that
      was never named keeps what it had. */
  lemma {:induction false} LastSelectWins(table: seq<Word>, cmds: seq<Select>, i: nat)
    requires |table| == 60 && Legal(cmds)
    requires i < |cmds| && forall j :: i < j < |cmds| ==> cmds[j].pin != cmds[i].pin
    ensures Applied(table, cmds)[cmds[i].pin] == (cmds[i].mode as Word) & 7
    decreases |cmds|
  {
    var n := |cmds| - 1;
    if i < n {
      LastSelectWins(table, cmds[..n], i);
      assert cmds[n].pin != cmds[i].pin;
    }
  }

  lemma {:induction false} UnnamedPinKeepsMode(table: seq<Word>, cmds: seq<Select>, pin: nat)
    requires |table| == 60 && Legal(cmds) && pin < 60
    requires forall j :: 0 <= j < |cmds| ==> cmds[j].pin != pin
    ensures Applied(table, cmds)[pin] == table[pin]
    decreases |cmds|
  {
    if cmds != [] {
      UnnamedPinKeepsMode(table, cmds[..|cmds| - 1], pin);
    }
  }

  // --- pulls of the Pi 4: two bits a pin -------------------------------------------------------

  const PUD_OFF: bv8 := 0
  const PUD_DOWN: bv8 := 1
  const PUD_UP: bv8 := 2
  const PUD_ERROR: bv8 := 8

  /** `3 << (2 * k)`. */
  function Mask2(k: nat): Word
    requires k < 16
  {
    match k
    case 0 => 0x3
    case 1 => 0xC
    case 2 => 0x30
    case 3 => 0xC0
    case 4 => 0x300
    case 5 => 0xC00
    case 6 => 0x3000
    case 7 => 0xC000
    case 8 => 0x3_0000
    case 9 => 0xC_0000
    case 10 => 0x30_0000
    case 11 => 0xC0_0000
    case 12 => 0x300_0000
    case 13 => 0xC00_0000
    case 14 => 0x3000_0000
    case _ => 0xC000_0000
  }

  /** `x << (2 * k)`. */
  function Shift2(x: Word, k: nat): Word
    requires k < 16
  {
    match k
    case 0 => x
    case 1 => x << 2
    case 2 => x << 4
    case 3 => x << 6
    case 4 => x << 8
    case 5 => x << 10
    case 6 => x << 12
    case 7 => x << 14
    case 8 => x << 16
    case 9 => x << 18
    case 10 => x << 20
    case 11 => x << 22
    case 12 => x << 24
    case 13 => x << 26
    case 14 => x << 28
    case _ => x << 30
  }

  /** The two bits of pin `k` of a word. */
  function Field2(w: Word, k: nat): Word
    requires k < 16
  {
    match k
    case 0 => w & 3
    case 1 => (w >> 2) & 3
    case 2 => (w >> 4) & 3
    case 3 => (w >> 6) & 3
    case 4 => (w >> 8) & 3
    case 5 => (w >> 10) & 3
    case 6 => (w >> 12) & 3
    case 7 => (w >> 14) & 3
    case 8 => (w >> 16) & 3
    case 9 => (w >> 18) & 3
    case 10 => (w >> 20) & 3
    case 11 => (w >> 22) & 3
    case 12 => (w >> 24) & 3
    case 13 => (w >> 26) & 3
    case 14 => (w >> 28) & 3
    case _ => (w >> 30) & 3
  }

  lemma Field2Masked(w: Word, k: nat)
    requires k < 16
    ensures Field2(w & Mask2(k), k) == Field2(w, k)
  {}

  lemma Field2Shifted(x: Word, k: nat)
    requires k < 16 && x < 4
    ensures Field2(Shift2(x, k), k) == x && Shift2(x, k) & Mask2(k) == Shift2(x, k)
  {}

  lemma Mask2Disjoint(k: nat, j: nat)
    requires k < 16 && j < 16 && k != j
    ensures Mask2(k) & Mask2(j) == 0
  {}

  lemma SameUnderMask2(a: Word, b: Word, k: nat)
    requires k < 16 && a & Mask2(k) == b & Mask2(k)
    ensures Field2(a, k) == Field2(b, k)
  {
    hide *;
    Field2Masked(a, k);
    Field2Masked(b, k);
  }

  /** `set_pud` or-s the shifted pull in without masking it. */
  function Placed(v: Word, value: Word, mask: Word): Word {
    (v & !mask) | value
  }

  lemma PlacedIsMerged(v: Word, value: Word, mask: Word)
    requires value & mask == value
    ensures Placed(v, value, mask) == Merged(v, value, mask)
  {
    SameOr(v & !mask, value & mask, value);
  }

  lemma SameOr(c: Word, a: Word, b: Word)
    requires a == b
    ensures c | a == c | b
  {}

  lemma Merged2Inside(v: Word, pull: Word, k: nat)
    requires k < 16 && pull < 4
    ensures Field2(Merged(v, Shift2(pull, k), Mask2(k)), k) == pull
  {
    hide *;
    MergedInside(v, Shift2(pull, k), Mask2(k));
    SameUnderMask2(Merged(v, Shift2(pull, k), Mask2(k)), Shift2(pull, k), k);
    Field2Shifted(pull, k);
  }

  lemma Merged2Outside(v: Word, value: Word, k: nat, j: nat)
    requires k < 16 && j < 16 && j != k
    ensures Field2(Merged(v, value, Mask2(k)), j) == Field2(v, j)
  {
    hide *;
    Mask2Disjoint(k, j);
    MergedOutside(v, value, Mask2(k), Mask2(j));
    SameUnderMask2(Merged(v, value, Mask2(k)), v, j);
  }

  /** The pull bits of the pins of the four Pi 4 registers. */
  function Pulls(regs: seq<Word>): (table: seq<Word>)
    requires |regs| == 4
    ensures |table| == 64
  {
    seq(64, pin requires 0 <= pin < 64 => Field2(regs[pin / 16], pin % 16))
  }

  /** The two bits `set_pud` writes for a request, if it writes at all. */
  function PullBits(pud: bv8): Word
    requires pud < 3
  {
    if pud == PUD_UP then 1 else if pud == PUD_DOWN then 2 else 0
  }

  function PudOf(bits: Word): bv8 {
    if bits == 0 then PUD_OFF else if bits == 1 then PUD_UP else if bits == 2 then PUD_DOWN else PUD_ERROR
  }

  /** The registers after `set_pud`; an unknown request writes nothing. */
  function WithPud(regs: seq<Word>, pin: nat, pud: bv8): (r: seq<Word>)
    requires |regs| == 4 && pin < 64
    ensures |r| == 4
  {
    if pud < 3 then regs[pin / 16 := Placed(regs[pin / 16], Shift2(PullBits(pud), pin % 16), Mask2(pin % 16))] else regs
  }

  lemma PullOfPin(regs: seq<Word>, pin: nat, pud: bv8, p: nat)
    requires |regs| == 4 && pin < 64 && p < 64 && pud < 3
    ensures Pulls(WithPud(regs, pin, pud))[p] == if p == pin then PullBits(pud) else Pulls(regs)[p]
  {
    hide Merged, Placed, Mask2, Shift2, Field2;
    var v, pull, k := regs[pin / 16], PullBits(pud), pin % 16;
    Field2Shifted(pull, k);
    PlacedIsMerged(v, Shift2(pull, k), Mask2(k));
    if p == pin {
      Merged2Inside(v, pull, k);
    } else if p / 16 == pin / 16 {
      assert p % 16 != k;
      Merged2Outside(v, Shift2(pull, k), k, p % 16);
    }
  }

  lemma PullsUpdate(regs: seq<Word>, pin: nat, pud: bv8)
    requires |regs| == 4 && pin < 64 && pud < 3
    ensures Pulls(WithPud(regs, pin, pud)) == Pulls(regs)[pin := PullBits(pud)]
  {
    forall p | 0 <= p < 64
      ensures Pulls(WithPud(regs, pin, pud))[p] == Pulls(regs)[pin := PullBits(pud)][p]
    {
      PullOfPin(regs, pin, pud, p);
    }
  }

  /** What the two bits of a pin do to it, from the register description of the BCM2711. */
  datatype Resistor = NoPull | PullUp | PullDown | Reserved

  function ResistorOf(bits: Word): Resistor {
    match bits
    case 0 => NoPull
    case 1 => PullUp
    case 2 => PullDown
    case _ => Reserved
  }

  /** Request 0 switches the resistor off, 1 pulls down and 2 pulls up; `get_pud` names the same three. */
  lemma RequestedResistor(regs: seq<Word>, pin: nat, pud: bv8)
    requires |regs| == 4 && pin < 64 && pud < 3
    ensures ResistorOf(Pulls(WithPud(regs, pin, pud))[pin]) == if pud == 0 then NoPull else if pud == 1 then PullDown else PullUp
  {
    PullsUpdate(regs, pin, pud);
    hide Pulls, WithPud;
  }

  lemma ReportedResistor(bits: Word)
    ensures PudOf(bits) == match ResistorOf(bits) case NoPull => 0 case PullDown => 1 case PullUp => 2 case Reserved => 8
  {}

  /** Reading back on a Pi 4 gives what was requested exactly for the three named requests, or when
      the request is the error code itself and the pin already held the unused pattern. All other
      pins keep their pull. */
  lemma PudRoundTrip(regs: seq<Word>, pin: nat, pud: bv8)
    requires |regs| == 4 && pin < 64
    ensures PudOf(Pulls(WithPud(regs, pin, pud))[pin]) == pud
      <==> pud < 3 || (pud == PUD_ERROR && Pulls(regs)[pin] == 3)
    ensures forall p :: 0 <= p < 64 && p != pin ==> Pulls(WithPud(regs, pin, pud))[p] == Pulls(regs)[p]
  {
    if pud < 3 {
      PullsUpdate(regs, pin, pud);
    } else {
      TwoBits(regs[pin / 16], pin % 16);
    }
  }

  lemma TwoBits(w: Word, k: nat)
    requires k < 16
    ensures Field2(w, k) < 4
  {}

  /** The pull sequence of older boards: the request on GPPUD, the pin clocked on or off. */
  datatype PullStep = Control(pud: bv8) | Clock(pin: nat, on: bool)

  // --- the pins of SPI0 ------------------------------------------------------------------------

  const FSEL_INPT: bv8 := 0
  const FSEL_ALT0: bv8 := 4

  /** CE1, CE0, MISO, MOSI and CLK, in the order the code selects them. */
  function SpiSelects(mode: bv8): (cmds: seq<Select>)
    ensures Legal(cmds)
  {
    [Select(7, mode), Select(8, mode), Select(9, mode), Select(10, mode), Select(11, mode)]
  }

  lemma SpiTable(table: seq<Word>, mode: bv8, pin: nat)
    requires |table| == 60 && pin < 60
    ensures Applied(table, SpiSelects(mode))[pin] == if 7 <= pin <= 11 then (mode as Word) & 7 else table[pin]
  {
    hide Applied;
    if 7 <= pin <= 11 {
      LastSelectWins(table, SpiSelects(mode), pin - 7);
    } else {
      UnnamedPinKeepsMode(table, SpiSelects(mode), pin);
    }
  }

  /** Opening and closing SPI0 turns pins 7 to 11 into inputs and leaves every other pin alone; it
      restores the modes exactly if those five were inputs before. */
  lemma SpiSession(table: seq<Word>)
    requires |table| == 60
    ensures var open := Applied(table, SpiSelects(FSEL_ALT0));
            var closed := Applied(open, SpiSelects(FSEL_INPT));
            && (forall p :: 7 <= p <= 11 ==> open[p] == 4 && closed[p] == 0)
            && (forall p :: 0 <= p < 60 && !(7 <= p <= 11) ==> open[p] == closed[p] == table[p])
            && (closed == table <==> forall p :: 7 <= p <= 11 ==> table[p] == 0)
  {
    hide Applied, SpiSelects;
    var open := Applied(table, SpiSelects(FSEL_ALT0));
    var closed := Applied(open, SpiSelects(FSEL_INPT));
    forall p | 0 <= p < 60
      ensures open[p] == if 7 <= p <= 11 then 4 else table[p]
      ensures closed[p] == if 7 <= p <= 11 then 0 else table[p]
    {
      SpiTable(table, FSEL_ALT0, p);
      SpiTable(open, FSEL_INPT, p);
    }
  }

  /** The mapped GPIO block and the control register of SPI0. */
  class Peripheral {
    const fsel: array<Word>
    const pull: array<Word>
    const pi4: bool
    /** Whether `bcm2835_init` could map the SPI0 block. */
    const spiMapped: bool
    /** Values written to SPI0_CS. */
    ghost var csWrites: seq<Word>
    /** Writes to GPPUD and GPPUDCLK, which only boards before the Pi 4 see. */
    ghost var clocked: seq<PullStep>

    ghost predicate Valid()
      reads this
    {
      fsel.Length == 6 && pull.Length == 4 && fsel != pull
    }

    /** The two register files as the board powers up, whatever they hold. */
    constructor (modes: seq<Word>, pulls: seq<Word>, pi4: bool, spiMapped: bool)
      requires |modes| == 6 && |pulls| == 4
      ensures Valid() && fresh(fsel) && fresh(pull)
      ensures fsel[..] == modes && pull[..] == pulls && csWrites == [] && clocked == []
      ensures this.pi4 == pi4 && this.spiMapped == spiMapped
    {
      this.pi4, this.spiMapped, csWrites, clocked := pi4, spiMapped, [], [];
      fsel := new Word[6](i requires 0 <= i < 6 => modes[i]);
      pull := new Word[4](i requires 0 <= i < 4 => pulls[i]);
    }

    /** `bcm2835_peri_set_bits` on one of the function select registers. */
    method SetBits(reg: nat, value: Word, mask: Word)
      requires Valid() && reg < 6
      modifies fsel
      ensures fsel[..] == old(fsel[..])[reg := Merged(old(fsel[reg]), value, mask)]
    {
      hide Merged;
      fsel[reg] := Merged(fsel[reg], value, mask);
    }

    /** `bcm2835_gpio_fsel`. */
    method Fsel(pin: nat, mode: bv8)
      requires Valid() && pin < 60
      modifies fsel
      ensures Modes(fsel[..]) == old(Modes(fsel[..]))[pin := (mode as Word) & 7]
      ensures forall i :: 0 <= i < 6 ==> fsel[i] & SPARE == old(fsel[i]) & SPARE
    {
      hide Merged, Mask3, Shift3, Field3, Modes;
      var mask := Mask3(pin % 10);
      var value := Shift3(mode as Word, pin % 10);
      SelectedModes(fsel[..], pin, mode as Word);
      SetBits(pin / 10, value, mask);
      assert fsel[..] == Selected(old(fsel[..]), pin, mode as Word);
    }

    /** Any series of `bcm2835_gpio_fsel` calls acts on the packed registers as on a plain table. */
    method FselAll(cmds: seq<Select>)
      requires Valid() && Legal(cmds)
      modifies fsel
      ensures Modes(fsel[..]) == Applied(old(Modes(fsel[..])), cmds)
      ensures forall i :: 0 <= i < 6 ==> fsel[i] & SPARE == old(fsel[i]) & SPARE
    {
      hide Field3, Modes;
      for i := 0 to |cmds|
        invariant Modes(fsel[..]) == Applied(old(Modes(fsel[..])), cmds[..i])
        invariant forall r :: 0 <= r < 6 ==> fsel[r] & SPARE == old(fsel[r]) & SPARE
      {
        assert cmds[..i + 1][..i] == cmds[..i];
        Fsel(cmds[i].pin, cmds[i].mode);
      }
      assert cmds[..|cmds|] == cmds;
    }

    /** `bcm2835_spi_begin`. */
    method SpiBegin() returns (ok: bool)
      requires Valid()
      modifies fsel, this`csWrites
      ensures ok == spiMapped
      ensures Modes(fsel[..]) == if ok then Applied(old(Modes(fsel[..])), SpiSelects(FSEL_ALT0)) else old(Modes(fsel[..]))
      ensures csWrites == if ok then old(csWrites) + [0, 0x30] else old(csWrites)
    {
      hide Modes;
      if !spiMapped {
        return false;
      }
      FselAll(SpiSelects(FSEL_ALT0));
      csWrites := csWrites + [0] + [0x30];
      return true;
    }

    /** `bcm2835_spi_end`, which does not ask whether SPI0 was ever opened. */
    method SpiEnd()
      requires Valid()
      modifies fsel
      ensures Modes(fsel[..]) == Applied(old(Modes(fsel[..])), SpiSelects(FSEL_INPT))
    {
      FselAll(SpiSelects(FSEL_INPT));
    }

    /** `bcm2835_gpio_set_pud`: one register update on a Pi 4, four clocked steps on older boards. */
    method SetPud(pin: nat, pud: bv8)
      requires Valid() && pin < 64
      modifies pull, this`clocked
      ensures pull[..] == if pi4 then WithPud(old(pull[..]), pin, pud) else old(pull[..])
      ensures clocked == old(clocked) +
        if pi4 then [] else [Control(pud), Clock(pin, true), Control(PUD_OFF), Clock(pin, false)]
    {
      if pi4 {
        SetPull(pin, pud);
      } else {
        clocked := clocked + [Control(pud)] + [Clock(pin, true)] + [Control(PUD_OFF)] + [Clock(pin, false)];
      }
    }

    method SetPull(pin: nat, pud: bv8)
      requires Valid() && pin < 64
      modifies pull
      ensures pull[..] == WithPud(old(pull[..]), pin, pud)
    {
      hide Placed, Shift2, Mask2;
      var p;
      match pud {
        case 0 => p := 0;
        case 2 => p := 1;
        case 1 => p := 2;
        case _ => return;
      }
      var k := pin % 16;
      pull[pin / 16] := Placed(pull[pin / 16], Shift2(p, k), Mask2(k));
    }

    /** `bcm2835_gpio_get_pud`: boards before the Pi 4 cannot be asked. */
    method GetPud(pin: nat) returns (ret: bv8)
      requires Valid() && pin < 64
      ensures ret == if pi4 then PudOf(Pulls(pull[..])[pin]) else PUD_ERROR
    {
      ret := PUD_ERROR;
      if pi4 {
        var bits := Field2(pull[pin / 16], pin % 16);
        ret := PudOf(bits);
      }
    }

    /** Setting a pull and asking for it, over any register contents and on either kind of board. */
    method SetAndGetPud(pin: nat, pud: bv8) returns (ret: bv8)
      requires Valid() && pin < 64
      modifies pull, this`clocked
      ensures ret == pud <==>
        if pi4 then pud < 3 || (pud == PUD_ERROR && old(Pulls(pull[..]))[pin] == 3) else pud == PUD_ERROR
      ensures forall p :: 0 <= p < 64 && p != pin ==> Pulls(pull[..])[p] == old(Pulls(pull[..]))[p]
    {
      hide Pulls, WithPud, PudOf;
      PudRoundTrip(pull[..], pin, pud);
      SetPud(pin, pud);
      ret := GetPud(pin);
    }
  }
}
