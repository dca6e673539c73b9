/** I2C transfers over the BSC controller (section 3 of the BCM2835 ARM Peripherals manual):
    `i2c_write` and `i2c_read` against a controller that moves bytes between status reads as it
    likes and may report a missing acknowledge or a clock-stretch timeout at any time. */
module I2c {

  type Byte = bv8

  const FIFO_SIZE: nat := 16
  const DLEN_RANGE: nat := 0x1_0000

  /** The control register as it reads back: bits 15, 1 and 0. ST and CLEAR act once when written and
      read back as zero. `doneBit` is where the status register has its DONE. */
  datatype Control = Control(enabled: bool, doneBit: bool, read: bool)

  datatype Reason = Ok | ErrorNack | ErrorClkt | ErrorData

  datatype Status = Status(txd: bool, rxd: bool, done: bool)

  function Min(a: nat, b: nat): nat {
    if a < b then a else b
  }

  /** The controller: its FIFO, the 16-bit DLEN register, the bytes moved over the bus since the
      start, and the status flags. DONE is raised only when `dlen` bytes have moved or an error is
      flagged, and the controller then stands still. `idles` is the number of status reads that may
      still find nothing changed although something could have been. */
  class Controller {
    var reading: bool
    var started: bool
    var fifo: seq<Byte>
    var dlen: nat
    var bus: seq<Byte>
    var done: bool
    var err: bool
    var clkt: bool
    var idles: nat
    var control: Control

    ghost predicate Valid()
      reads this
    {
      && |fifo| <= FIFO_SIZE && dlen < DLEN_RANGE && |bus| <= dlen
      && (done ==> started && (|bus| == dlen || err || clkt))
      && (reading ==> |fifo| <= |bus| && fifo == bus[|bus| - |fifo|..])
    }

    /** Bytes the bus could move right now. */
    function Room(): nat
      requires Valid()
      reads this
    {
      Min(if reading then FIFO_SIZE - |fifo| else |fifo|, dlen - |bus|)
    }

    function CanFinish(): bool
      reads this
    {
      |bus| == dlen || err || clkt
    }

    /** Falls with every status read unless the controller waits for the driver or has finished. */
    ghost function Left(): int
      requires Valid()
      reads this
    {
      idles + (dlen - |bus|) + (if done then 0 else 1)
    }

    constructor (idles: nat)
      ensures Valid()
    {
      this.idles := idles;
      fifo, bus, dlen, control := [], [], 0, Control(false, false, false);
      reading, started, done, err, clkt := false, false, false, false, false;
    }

    /** Clear the FIFO and the status flags and set the data length, which is a 16-bit register. */
    method Prepare(len: nat, reading: bool)
      modifies this
      ensures Valid() && fifo == [] && bus == [] && dlen == len % DLEN_RANGE && idles == old(idles)
      ensures this.reading == reading && !started && !done && !err && !clkt
    {
      fifo, bus, dlen := [], [], len % DLEN_RANGE;
      this.reading, started, done, err, clkt := reading, false, false, false, false;
    }

    /** The control register written with I2CEN, ST and the direction. */
    method Start()
      requires Valid()
      modifies `started, `control
      ensures Valid() && started && control == Control(true, false, reading)
    {
      started := true;
      control := Control(true, false, reading);
    }

    /** The last access of both transfers sets what is DONE in the status register, but does so in the
        control register. As ST and CLEAR read back as zero this starts no transfer and clears nothing. */
    method Finish()
      modifies `control
      ensures control == old(control).(doneBit := true)
    {
      control := control.(doneBit := true);
    }

    /** Move one byte: out of the FIFO, or whatever byte the slave sends into it. */
    method Move()
      requires Valid() && Room() > 0
      modifies `fifo, `bus
      ensures Valid() && |bus| == |old(bus)| + 1 && old(bus) <= bus
      ensures !reading ==> bus + fifo == old(bus + fifo)
      ensures reading ==> |bus| - |fifo| == old(|bus| - |fifo|)
    {
      if reading {
        var b: Byte :| true;
        fifo := fifo + [b];
        bus := bus + [b];
      } else {
        bus := bus + [fifo[0]];
        fifo := fifo[1..];
      }
    }

    /** Up to `n` bytes, as far as there is room. */
    method MoveSome(n: nat)
      requires Valid()
      modifies `fifo, `bus
      ensures Valid() && old(bus) <= bus && (n > 0 && old(Room()) > 0 ==> |bus| > |old(bus)|)
      ensures !reading ==> bus + fifo == old(bus + fifo)
      ensures reading ==> |bus| - |fifo| == old(|bus| - |fifo|)
      ensures old(Room()) == 0 ==> bus == old(bus) && fifo == old(fifo)
      decreases n
    {
      if n > 0 && Room() > 0 {
        Move();
        MoveSome(n - 1);
      }
    }

    /** What happens between two status reads before DONE. Once `idles` is used up the controller
        moves a byte if it can and finishes if it may. */
    method Advance()
      requires Valid() && started && !done
      modifies `fifo, `bus, `done, `err, `clkt, `idles
      ensures Valid() && old(bus) <= bus
      ensures !reading ==> bus + fifo == old(bus + fifo)
      ensures reading ==> |bus| - |fifo| == old(|bus| - |fifo|)
      ensures Left() <= old(Left()) && (old(Room() > 0 || CanFinish()) ==> Left() < old(Left()))
      ensures old(Room()) == 0 ==> fifo == old(fifo)
    {
      var n: nat, finish: bool, nack: bool, stretch: bool :| 0 <= n;
      if idles > 0 {
        idles := idles - 1;
      } else {
        n, finish := n + 1, true;
      }
      MoveSome(n);
      err, clkt := err || nack, clkt || stretch;
      done := finish && CanFinish();
    }

    /** A read of the status register. */
    method Poll() returns (st: Status)
      requires Valid() && started
      modifies `fifo, `bus, `done, `err, `clkt, `idles
      ensures Valid() && old(bus) <= bus
      ensures !reading ==> bus + fifo == old(bus + fifo)
      ensures reading ==> |bus| - |fifo| == old(|bus| - |fifo|)
      ensures Left() <= old(Left()) && (!old(done) && old(Room() > 0 || CanFinish()) ==> Left() < old(Left()))
      ensures old(done) || old(Room()) == 0 ==> fifo == old(fifo)
      ensures old(done) ==> done && bus == old(bus) && err == old(err) && clkt == old(clkt)
      ensures st == Status(|fifo| < FIFO_SIZE, |fifo| > 0, done)
    {
      if !done {
        Advance();
      }
      st := Status(|fifo| < FIFO_SIZE, |fifo| > 0, done);
    }

    /** A write to the FIFO register; the driver never overfills it. */
    method WriteFifo(b: Byte)
      requires Valid() && !reading && |fifo| < FIFO_SIZE
      modifies `fifo
      ensures Valid() && fifo == old(fifo) + [b]
    {
      fifo := fifo + [b];
    }

    /** A read of the FIFO register; the driver never reads an empty FIFO. */
    method ReadFifo() returns (b: Byte)
      requires Valid() && reading && fifo != []
      modifies `fifo
      ensures Valid() && fifo == old(fifo)[1..] && b == bus[|bus| - |old(fifo)|]
    {
      b := fifo[0];
      fifo := fifo[1..];
    }

    /** The flags in the order in which the driver looks at them. */
    function Verdict(remaining: nat): Reason
      reads this
    {
      if err then ErrorNack else if clkt then ErrorClkt else if remaining > 0 then ErrorData else Ok
    }
  }

  // --- writing ---------------------------------------------------------------------------------

  /** `i` bytes of the buffer are in the controller's hands, in order. */
  ghost predicate Writing(dev: Controller, buf: seq<Byte>, i: nat)
    reads dev
  {
    dev.Valid() && !dev.reading && i <= |buf| && dev.bus + dev.fifo == buf[..i] && dev.dlen == |buf| % DLEN_RANGE
  }

  /** Room in the FIFO, asked for only while bytes remain. */
  method MayPush(dev: Controller, ghost buf: seq<Byte>, ghost i: nat, remaining: nat) returns (more: bool)
    requires Writing(dev, buf, i) && dev.started && remaining == |buf| - i
    modifies dev`fifo, dev`bus, dev`done, dev`err, dev`clkt, dev`idles
    ensures Writing(dev, buf, i) && dev.Left() <= old(dev.Left())
    ensures more ==> remaining > 0 && |dev.fifo| < FIFO_SIZE
    ensures remaining > 0 && !old(dev.done) ==> more || dev.Left() < old(dev.Left())
    ensures remaining == 0 ==> dev.done == old(dev.done)
  {
    more := false;
    if remaining > 0 {
      var st := dev.Poll();
      more := st.txd;
    }
  }

  /** The inner loop: refill the FIFO as long as it takes bytes. */
  method Refill(dev: Controller, buf: seq<Byte>, i0: nat) returns (i: nat)
    requires Writing(dev, buf, i0) && dev.started && !dev.done
    modifies dev`fifo, dev`bus, dev`done, dev`err, dev`clkt, dev`idles
    ensures i0 <= i && Writing(dev, buf, i)
    ensures dev.Left() - i <= old(dev.Left()) - i0
    ensures dev.Left() - i < old(dev.Left()) - i0 || (i == |buf| && !dev.done)
  {
    i := i0;
    var more := MayPush(dev, buf, i, |buf| - i);
    while more
      invariant i0 <= i && Writing(dev, buf, i)
      invariant more ==> i < |buf| && |dev.fifo| < FIFO_SIZE
      invariant dev.Left() - i <= old(dev.Left()) - i0
      invariant more || (i == |buf| && !dev.done) || dev.Left() - i < old(dev.Left()) - i0
      decreases |buf| - i
    {
      dev.WriteFifo(buf[i]);
      i := i + 1;
      more := MayPush(dev, buf, i, |buf| - i);
    }
  }

  /** Before the start, up to 16 bytes. */
  method Prefill(dev: Controller, buf: seq<Byte>) returns (i: nat)
    modifies dev
    ensures Writing(dev, buf, i) && !dev.started && !dev.done
    ensures i == Min(|buf|, FIFO_SIZE) && dev.fifo == buf[..i] && dev.bus == []
  {
    i := 0;
    dev.Prepare(|buf|, false);
    while i < |buf| && i < FIFO_SIZE
      invariant Writing(dev, buf, i) && |dev.fifo| == i <= FIFO_SIZE && dev.bus == []
      invariant !dev.done && !dev.started
    {
      dev.WriteFifo(buf[i]);
      i := i + 1;
    }
    assert dev.bus + dev.fifo == dev.fifo;
  }

  /** What has been handed over when the controller is done. */
  lemma WriteOutcome(dev: Controller, buf: seq<Byte>, i: nat)
    requires Writing(dev, buf, i) && dev.done
    ensures i <= |buf| && dev.bus + dev.fifo == buf[..i] && |dev.fifo| <= FIFO_SIZE
    ensures var reason := dev.Verdict(|buf| - i);
            && (reason == Ok ==> dev.bus == buf)
            && (!dev.err && !dev.clkt ==> (reason == Ok <==> |buf| < DLEN_RANGE))
  {
    assert |dev.bus| + |dev.fifo| == i;
    if !dev.err && !dev.clkt && i == |buf| {
      assert dev.fifo == [];
      assert dev.bus == dev.bus + dev.fifo;
    }
  }

  method StartWrite(dev: Controller, buf: seq<Byte>) returns (i: nat)
    modifies dev
    ensures Writing(dev, buf, i) && dev.started && !dev.done && dev.control == Control(true, false, false)
  {
    i := Prefill(dev, buf);
    dev.Start();
  }

  /** A status read between two refills. With everything handed over the controller comes closer to
      its end. */
  method PollWriting(dev: Controller, ghost buf: seq<Byte>, ghost i: nat) returns (st: Status)
    requires Writing(dev, buf, i) && dev.started
    modifies dev`fifo, dev`bus, dev`done, dev`err, dev`clkt, dev`idles
    ensures Writing(dev, buf, i) && dev.Valid() && 0 <= dev.Left() && i <= |buf| && st.done == dev.done
    ensures dev.Left() <= old(dev.Left())
    ensures i == |buf| && !old(dev.done) ==> dev.Left() < old(dev.Left())
  {
    assert i == |buf| && !dev.done ==> dev.Room() > 0 || dev.CanFinish();
    st := dev.Poll();
  }

  /** `i2c_write`. It always ends; exactly a prefix of the buffer was handed over, in order, with
      never more than 16 bytes waiting, and the reason given is the first that applies. Without
      bus errors it succeeds exactly if the length fits the 16-bit DLEN register. */
  method I2cWrite(dev: Controller, buf: seq<Byte>) returns (reason: Reason, ghost pushed: nat)
    modifies dev
    ensures dev.Valid() && dev.done && pushed <= |buf|
    ensures dev.bus + dev.fifo == buf[..pushed] && |dev.fifo| <= FIFO_SIZE
    ensures dev.err ==> reason == ErrorNack
    ensures !dev.err && dev.clkt ==> reason == ErrorClkt
    ensures !dev.err && !dev.clkt ==> reason == if pushed < |buf| then ErrorData else Ok
    ensures reason == Ok ==> dev.bus == buf
    ensures !dev.err && !dev.clkt ==> (reason == Ok <==> |buf| < DLEN_RANGE)
    ensures dev.control == Control(true, true, false)
  {
    hide Writing;
    var i: nat := StartWrite(dev, buf);
    var st := PollWriting(dev, buf, i);
    while !st.done
      invariant Writing(dev, buf, i) && dev.Valid() && 0 <= dev.Left() && i <= |buf|
      invariant dev.started && st.done == dev.done && dev.control == Control(true, false, false)
      decreases dev.Left() - i + |buf|
    {
      i := Refill(dev, buf, i);
      st := PollWriting(dev, buf, i);
    }
    WriteOutcome(dev, buf, i);
    reason := dev.Verdict(|buf| - i);
    dev.Finish();
    pushed := i;
  }

  // --- reading ---------------------------------------------------------------------------------

  /** `i` bytes have been taken, in order; the rest of the received ones wait in the FIFO. */
  ghost predicate Reading(dev: Controller, buf: array<Byte>, was: seq<Byte>, len: nat, i: nat)
    reads dev, buf
  {
    && dev.Valid() && dev.reading && dev.started && dev.dlen == len % DLEN_RANGE
    && len <= buf.Length == |was|
    && i + |dev.fifo| == |dev.bus| <= len
    && (forall k :: 0 <= k < i ==> buf[k] == dev.bus[k])
    && (forall k :: i <= k < buf.Length ==> buf[k] == was[k])
  }

  method StartRead(dev: Controller, buf: array<Byte>, len: nat)
    requires len <= buf.Length
    modifies dev
    ensures Reading(dev, buf, buf[..], len, 0) && dev.Valid() && !dev.done && dev.control == Control(true, false, true)
  {
    dev.Prepare(len, true);
    dev.Start();
  }

  /** A status read in the middle of a transfer. */
  method PollReading(dev: Controller, buf: array<Byte>, ghost was: seq<Byte>, ghost len: nat, ghost i: nat) returns (st: Status)
    requires Reading(dev, buf, was, len, i)
    modifies dev`fifo, dev`bus, dev`done, dev`err, dev`clkt, dev`idles
    ensures Reading(dev, buf, was, len, i) && dev.Valid() && st.done == dev.done && st.rxd == (dev.fifo != [])
    ensures dev.Left() <= old(dev.Left())
    ensures !old(dev.done) && (i == len || dev.fifo == []) ==> dev.Left() < old(dev.Left())
    ensures old(dev.done) ==> dev.done && dev.fifo == old(dev.fifo)
  {
    st := dev.Poll();
  }

  /** Data in the FIFO, asked for only while bytes remain. */
  method MayTake(dev: Controller, buf: array<Byte>, ghost was: seq<Byte>, ghost len: nat, ghost i: nat, remaining: nat)
    returns (more: bool)
    requires Reading(dev, buf, was, len, i) && remaining == len - i
    modifies dev`fifo, dev`bus, dev`done, dev`err, dev`clkt, dev`idles
    ensures Reading(dev, buf, was, len, i) && dev.Valid() && dev.Left() <= old(dev.Left())
    ensures more ==> remaining > 0 && dev.fifo != []
    ensures remaining > 0 && !old(dev.done) ==> more || dev.Left() < old(dev.Left())
    ensures old(dev.done) ==> dev.done && (more || dev.fifo == [])
    ensures remaining == 0 ==> dev.done == old(dev.done) && dev.fifo == old(dev.fifo)
  {
    more := false;
    if remaining > 0 {
      var st := PollReading(dev, buf, was, len, i);
      more := st.rxd;
    }
  }

  /** One byte from the FIFO into the buffer. */
  method TakeOne(dev: Controller, buf: array<Byte>, ghost was: seq<Byte>, len: nat, i: nat)
    requires Reading(dev, buf, was, len, i) && i < len && dev.fifo != []
    modifies dev`fifo, buf
    ensures Reading(dev, buf, was, len, i + 1) && dev.Valid() && dev.Left() == old(dev.Left())
  {
    buf[i] := dev.ReadFifo();
  }

  /** The inner loop, and the one after DONE: take bytes as long as there are any. */
  method TakeAll(dev: Controller, buf: array<Byte>, ghost was: seq<Byte>, len: nat, i0: nat) returns (i: nat)
    requires Reading(dev, buf, was, len, i0) && dev.Valid()
    modifies dev`fifo, dev`bus, dev`done, dev`err, dev`clkt, dev`idles, buf
    ensures i0 <= i && Reading(dev, buf, was, len, i) && dev.Valid()
    ensures dev.Left() - i <= old(dev.Left()) - i0
    ensures !old(dev.done) ==> dev.Left() - i < old(dev.Left()) - i0 || (i == len && !dev.done)
    ensures old(dev.done) ==> dev.done && dev.fifo == []
  {
    i := i0;
    assert Reading(dev, buf, was, len, i) && i <= len;
    var more := MayTake(dev, buf, was, len, i, len - i);
    while more
      invariant i0 <= i <= len && Reading(dev, buf, was, len, i) && dev.Valid()
      invariant more ==> i < len && dev.fifo != []
      invariant dev.Left() - i <= old(dev.Left()) - i0
      invariant !old(dev.done) ==> more || (i == len && !dev.done) || dev.Left() - i < old(dev.Left()) - i0
      invariant old(dev.done) ==> dev.done && (more || dev.fifo == [])
      decreases len - i
    {
      TakeOne(dev, buf, was, len, i);
      i := i + 1;
      more := MayTake(dev, buf, was, len, i, len - i);
    }
  }

  /** What is in the buffer when the controller is done and the FIFO is empty. */
  lemma ReadOutcome(dev: Controller, buf: array<Byte>, was: seq<Byte>, len: nat, i: nat)
    requires Reading(dev, buf, was, len, i) && dev.done && dev.fifo == []
    ensures dev.reading && i <= len <= buf.Length == |was| && buf[..i] == dev.bus && buf[i..] == was[i..]
    ensures dev.Verdict(len - i) == Ok ==> i == len
    ensures !dev.err && !dev.clkt ==> (dev.Verdict(len - i) == Ok <==> len < DLEN_RANGE)
  {}

  lemma ReadingBounds(dev: Controller, buf: array<Byte>, was: seq<Byte>, len: nat, i: nat)
    requires Reading(dev, buf, was, len, i)
    ensures i <= len && 0 <= dev.Left()
  {}

  /** `i2c_read`. It always ends; the received bytes, never more than `len`, are in the buffer in
      the order of the bus, the rest of the buffer is untouched, and the reason given is the first
      that applies. Without bus errors it succeeds exactly if the length fits DLEN. */
  method I2cRead(dev: Controller, buf: array<Byte>, len: nat) returns (reason: Reason, ghost stored: nat)
    requires len <= buf.Length
    modifies dev, buf
    ensures dev.Valid() && dev.done && stored <= len
    ensures buf[..stored] == dev.bus && buf[stored..] == old(buf[stored..])
    ensures dev.err ==> reason == ErrorNack
    ensures !dev.err && dev.clkt ==> reason == ErrorClkt
    ensures !dev.err && !dev.clkt ==> reason == if stored < len then ErrorData else Ok
    ensures reason == Ok ==> stored == len
    ensures !dev.err && !dev.clkt ==> (reason == Ok <==> len < DLEN_RANGE)
    ensures dev.control == Control(true, true, true)
  {
    hide Reading;
    ghost var was := buf[..];
    var i: nat := 0;
    StartRead(dev, buf, len);
    var st := PollReading(dev, buf, was, len, i);
    while !st.done
      invariant Reading(dev, buf, was, len, i) && dev.Valid() && st.done == dev.done && dev.control == Control(true, false, true)
      decreases dev.Left() - i + len
    {
      ReadingBounds(dev, buf, was, len, i);
      i := TakeAll(dev, buf, was, len, i);
      st := PollReading(dev, buf, was, len, i);
    }
    i := TakeAll(dev, buf, was, len, i);
    ReadOutcome(dev, buf, was, len, i);
    reason := dev.Verdict(len - i);
    dev.Finish();
    stored := i;
  }
}
