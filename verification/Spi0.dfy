/** SPI0 polled transfers (section 10.6.1 of the BCM2835 ARM Peripherals manual): the peripheral
    with its two FIFOs, and `spi_transfernb` / `spi_transfern` driving it from one memory in which
    the send and receive buffers may coincide. */
module Spi0 {

  type Byte = bv8

  /** Entry `k` of a row of eight. */
  function Pick(k: Byte, e0: Byte, e1: Byte, e2: Byte, e3: Byte, e4: Byte, e5: Byte, e6: Byte, e7: Byte): Byte {
    if k == 0 then e0 else if k == 1 then e1 else if k == 2 then e2 else if k == 3 then e3
    else if k == 4 then e4 else if k == 5 then e5 else if k == 6 then e6 else e7
  }

  /** `bcm2835_byte_reverse_table`, row by row. */
  function ReverseTable(b: Byte): Byte {
    var k := b & 7;
    match b >> 3
    case 0 => Pick(k, 0x00, 0x80, 0x40, 0xc0, 0x20, 0xa0, 0x60, 0xe0)
    case 1 => Pick(k, 0x10, 0x90, 0x50, 0xd0, 0x30, 0xb0, 0x70, 0xf0)
    case 2 => Pick(k, 0x08, 0x88, 0x48, 0xc8, 0x28, 0xa8, 0x68, 0xe8)
    case 3 => Pick(k, 0x18, 0x98, 0x58, 0xd8, 0x38, 0xb8, 0x78, 0xf8)
    case 4 => Pick(k, 0x04, 0x84, 0x44, 0xc4, 0x24, 0xa4, 0x64, 0xe4)
    case 5 => Pick(k, 0x14, 0x94, 0x54, 0xd4, 0x34, 0xb4, 0x74, 0xf4)
    case 6 => Pick(k, 0x0c, 0x8c, 0x4c, 0xcc, 0x2c, 0xac, 0x6c, 0xec)
    case 7 => Pick(k, 0x1c, 0x9c, 0x5c, 0xdc, 0x3c, 0xbc, 0x7c, 0xfc)
    case 8 => Pick(k, 0x02, 0x82, 0x42, 0xc2, 0x22, 0xa2, 0x62, 0xe2)
    case 9 => Pick(k, 0x12, 0x92, 0x52, 0xd2, 0x32, 0xb2, 0x72, 0xf2)
    case 10 => Pick(k, 0x0a, 0x8a, 0x4a, 0xca, 0x2a, 0xaa, 0x6a, 0xea)
    case 11 => Pick(k, 0x1a, 0x9a, 0x5a, 0xda, 0x3a, 0xba, 0x7a, 0xfa)
    case 12 => Pick(k, 0x06, 0x86, 0x46, 0xc6, 0x26, 0xa6, 0x66, 0xe6)
    case 13 => Pick(k, 0x16, 0x96, 0x56, 0xd6, 0x36, 0xb6, 0x76, 0xf6)
    case 14 => Pick(k, 0x0e, 0x8e, 0x4e, 0xce, 0x2e, 0xae, 0x6e, 0xee)
    case 15 => Pick(k, 0x1e, 0x9e, 0x5e, 0xde, 0x3e, 0xbe, 0x7e, 0xfe)
    case 16 => Pick(k, 0x01, 0x81, 0x41, 0xc1, 0x21, 0xa1, 0x61, 0xe1)
    case 17 => Pick(k, 0x11, 0x91, 0x51, 0xd1, 0x31, 0xb1, 0x71, 0xf1)
    case 18 => Pick(k, 0x09, 0x89, 0x49, 0xc9, 0x29, 0xa9, 0x69, 0xe9)
    case 19 => Pick(k, 0x19, 0x99, 0x59, 0xd9, 0x39, 0xb9, 0x79, 0xf9)
    case 20 => Pick(k, 0x05, 0x85, 0x45, 0xc5, 0x25, 0xa5, 0x65, 0xe5)
    case 21 => Pick(k, 0x15, 0x95, 0x55, 0xd5, 0x35, 0xb5, 0x75, 0xf5)
    case 22 => Pick(k, 0x0d, 0x8d, 0x4d, 0xcd, 0x2d, 0xad, 0x6d, 0xed)
    case 23 => Pick(k, 0x1d, 0x9d, 0x5d, 0xdd, 0x3d, 0xbd, 0x7d, 0xfd)
    case 24 => Pick(k, 0x03, 0x83, 0x43, 0xc3, 0x23, 0xa3, 0x63, 0xe3)
    case 25 => Pick(k, 0x13, 0x93, 0x53, 0xd3, 0x33, 0xb3, 0x73, 0xf3)
    case 26 => Pick(k, 0x0b, 0x8b, 0x4b, 0xcb, 0x2b, 0xab, 0x6b, 0xeb)
    case 27 => Pick(k, 0x1b, 0x9b, 0x5b, 0xdb, 0x3b, 0xbb, 0x7b, 0xfb)
    case 28 => Pick(k, 0x07, 0x87, 0x47, 0xc7, 0x27, 0xa7, 0x67, 0xe7)
    case 29 => Pick(k, 0x17, 0x97, 0x57, 0xd7, 0x37, 0xb7, 0x77, 0xf7)
    case 30 => Pick(k, 0x0f, 0x8f, 0x4f, 0xcf, 0x2f, 0xaf, 0x6f, 0xef)
    case _ => Pick(k, 0x1f, 0x9f, 0x5f, 0xdf, 0x3f, 0xbf, 0x7f, 0xff)
  }

  /** The byte with its eight bits in the opposite order. */
  function Reversed(b: Byte): Byte {
    ((b & 0x01) << 7) | ((b & 0x02) << 5) | ((b & 0x04) << 3) | ((b & 0x08) << 1)
    | ((b & 0x10) >> 1) | ((b & 0x20) >> 3) | ((b & 0x40) >> 5) | ((b & 0x80) >> 7)
  }

  lemma FirstQuarter(b: Byte)
    requires b < 0x40
    ensures ReverseTable(b) == Reversed(b)
  {}

  lemma SecondQuarter(b: Byte)
    requires 0x40 <= b < 0x80
    ensures ReverseTable(b) == Reversed(b)
  {}

  lemma ThirdQuarter(b: Byte)
    requires 0x80 <= b < 0xC0
    ensures ReverseTable(b) == Reversed(b)
  {}

  lemma FourthQuarter(b: Byte)
    requires 0xC0 <= b
    ensures ReverseTable(b) == Reversed(b)
  {}

  function CorrectOrder(lsbFirst: bool, b: Byte): Byte {
    if lsbFirst then ReverseTable(b) else b
  }

  /** Every entry of the lookup table is the reversal of its index. */
  lemma CorrectOrderReverses(lsbFirst: bool, b: Byte)
    ensures CorrectOrder(lsbFirst, b) == if lsbFirst then Reversed(b) else b
  {
    hide ReverseTable, Reversed;
    if b < 0x40 {
      FirstQuarter(b);
    } else if b < 0x80 {
      SecondQuarter(b);
    } else if b < 0xC0 {
      ThirdQuarter(b);
    } else {
      FourthQuarter(b);
    }
  }

  lemma ReversedTwice(b: Byte)
    ensures Reversed(Reversed(b)) == b
  {}

  /** Correcting twice restores the byte. */
  lemma CorrectOrderTwice(lsbFirst: bool, b: Byte)
    ensures CorrectOrder(lsbFirst, CorrectOrder(lsbFirst, b)) == b
  {
    hide CorrectOrder, Reversed;
    CorrectOrderReverses(lsbFirst, b);
    CorrectOrderReverses(lsbFirst, CorrectOrder(lsbFirst, b));
    ReversedTwice(b);
  }

  function Corrected(lsbFirst: bool, bytes: seq<Byte>): (r: seq<Byte>)
    ensures |r| == |bytes|
  {
    seq(|bytes|, k requires 0 <= k < |bytes| => CorrectOrder(lsbFirst, bytes[k]))
  }

  /** What a slave answers may depend on all bytes so far, the one being exchanged included: MISO tied
      to MOSI is a slave, too. */
  type Slave = seq<Byte> -> Byte

  /** The bytes a slave puts on MISO while `wire` goes out on MOSI. */
  function Replies(slave: Slave, wire: seq<Byte>): (r: seq<Byte>)
    ensures |r| == |wire|
  {
    seq(|wire|, k requires 0 <= k < |wire| => slave(wire[..k + 1]))
  }

  lemma RepliesExtend(slave: Slave, wire: seq<Byte>, more: seq<Byte>)
    ensures Replies(slave, wire) <= Replies(slave, wire + more)
  {
    forall k | 0 <= k < |wire|
      ensures Replies(slave, wire)[k] == Replies(slave, wire + more)[k]
    {
      assert wire[..k + 1] == (wire + more)[..k + 1];
    }
  }

  datatype Status = Status(txd: bool, rxd: bool, done: bool)

  /** The peripheral: FIFO contents, everything shifted out since the last clear, and the TA bit.
      It shifts bytes between status reads, as many as it likes, but never past a full RX FIFO:
      SPI0 then stalls. It may idle at a status read although it could shift, `idles` more times. */
  class Device {
    const txDepth: nat
    const rxDepth: nat
    const slave: Slave
    var tx: seq<Byte>
    var rx: seq<Byte>
    var wire: seq<Byte>
    var active: bool
    var idles: nat

    ghost predicate Valid()
      reads this
    {
      && txDepth >= 1 && rxDepth >= 1
      && |tx| <= txDepth && |rx| <= rxDepth && |rx| <= |wire|
      && rx == Replies(slave, wire)[|wire| - |rx|..]
    }

    /** Received bytes the driver has taken out of the RX FIFO. */
    ghost function Drained(): int
      reads this
    {
      |wire| - |rx|
    }

    ghost function CanShift(): bool
      reads this
    {
      active && tx != [] && |rx| < rxDepth
    }

    constructor (txDepth: nat, rxDepth: nat, slave: Slave, idles: nat)
      requires txDepth >= 1 && rxDepth >= 1
      ensures Valid()
    {
      this.txDepth, this.rxDepth, this.slave, this.idles := txDepth, rxDepth, slave, idles;
      tx, rx, wire, active := [], [], [], false;
    }

    /** CS written with CLEAR set: both FIFOs emptied, a new record of the wire begun. */
    method Clear()
      requires Valid()
      modifies this
      ensures Valid() && tx == [] && rx == [] && wire == [] && active == old(active) && idles == old(idles)
    {
      tx, rx, wire := [], [], [];
    }

    method SetActive(ta: bool)
      requires Valid()
      modifies `active
      ensures Valid() && active == ta
    {
      active := ta;
    }

    method Shift()
      requires Valid() && tx != [] && |rx| < rxDepth
      modifies `tx, `rx, `wire
      ensures Valid()
      ensures tx == old(tx)[1..] && wire == old(wire) + [old(tx)[0]] && |rx| == |old(rx)| + 1
    {
      RepliesExtend(slave, wire, [tx[0]]);
      ghost var earlier := Replies(slave, wire);
      rx := rx + [slave(wire + [tx[0]])];
      wire := wire + [tx[0]];
      tx := tx[1..];
      assert wire[..|wire| - 1] == old(wire) && wire[..|wire|] == wire;
      assert Replies(slave, wire) == earlier + [slave(wire)];
    }

    /** A read of the CS register. The device may have shifted any number of bytes meanwhile. */
    method Poll() returns (st: Status)
      requires Valid()
      modifies `tx, `rx, `wire, `idles
      ensures Valid()
      ensures old(wire) <= wire && wire + tx == old(wire + tx)
      ensures Drained() == old(Drained())
      ensures idles <= old(idles)
      ensures old(CanShift()) ==> |wire| > |old(wire)| || idles < old(idles)
      ensures !old(CanShift()) ==> tx == old(tx) && rx == old(rx) && wire == old(wire)
      ensures st == Status(|tx| < txDepth, rx != [], active && tx == [])
    {
      if active && tx != [] && |rx| < rxDepth {
        var n: nat :| 0 <= n;
        if n == 0 && idles > 0 {
          idles := idles - 1;
        } else {
          Shift();
          while n > 1 && tx != [] && |rx| < rxDepth
            invariant Valid()
            invariant |wire| > |old(wire)| && old(wire) <= wire && wire + tx == old(wire + tx)
            invariant Drained() == old(Drained()) && idles == old(idles)
            decreases n
          {
            Shift();
            n := n - 1;
          }
        }
      }
      st := Status(|tx| < txDepth, rx != [], active && tx == []);
    }

    /** The final wait for DONE, which no longer drains the RX FIFO. It ends because what is still to
        be shifted fits in. */
    method AwaitDone()
      requires Valid() && active && |rx| + |tx| <= rxDepth
      modifies `tx, `rx, `wire, `idles
      ensures Valid() && tx == [] && wire == old(wire + tx) && Drained() == old(Drained())
    {
      var st := Poll();
      while !st.done
        invariant Valid() && wire + tx == old(wire + tx) && Drained() == old(Drained())
        invariant |rx| + |tx| <= rxDepth && st.done == (tx == [])
        decreases idles + |tx|
      {
        st := Poll();
      }
    }

    /** A write to the FIFO register; the driver never writes to a full FIFO. */
    method WriteFifo(b: Byte)
      requires Valid() && |tx| < txDepth
      modifies `tx
      ensures Valid() && tx == old(tx) + [b]
    {
      tx := tx + [b];
    }

    /** A read of the FIFO register; the driver never reads an empty FIFO. */
    method ReadFifo() returns (b: Byte)
      requires Valid() && rx != []
      modifies `rx
      ensures Valid() && b == Replies(slave, wire)[old(Drained())] && Drained() == old(Drained()) + 1
    {
      b := rx[0];
      rx := rx[1..];
    }
  }

  // --- the transfer ----------------------------------------------------------------------------

  /** Where a transfer takes place: `len` bytes to send at `t` and room for the answer at `r`, in
      one memory. `transfern` has `t == r`. */
  datatype Job = Job(lsbFirst: bool, t: nat, r: nat, len: nat) {
    predicate Inside(size: nat) {
      t + len <= size && r + len <= size
    }

    /** The receive buffer begins inside the send buffer, behind its first byte. */
    predicate RunsAhead() {
      t < r < t + len
    }

    /** Then the transfer works only if all of it goes into the TX FIFO before the first answer is
        taken out. */
    predicate Fits(size: nat, txDepth: nat) {
      Inside(size) && (RunsAhead() ==> len <= txDepth)
    }
  }

  /** What holds throughout, `was` being the memory at the start: everything pushed so far is what
      the send buffer held, answers taken so far are in place, and nothing else is written. */
  ghost predicate Midway(dev: Device, mem: array<Byte>, was: seq<Byte>, job: Job, txCnt: nat, rxCnt: nat)
    reads dev, mem
  {
    && dev.Valid() && dev.active && |was| == mem.Length && job.Fits(mem.Length, dev.txDepth)
    && rxCnt <= txCnt <= job.len && (job.RunsAhead() ==> rxCnt == 0 || txCnt == job.len)
    && dev.wire + dev.tx == Corrected(job.lsbFirst, was[job.t..job.t + txCnt])
    && dev.Drained() == rxCnt
    && (forall k :: 0 <= k < rxCnt ==> mem[job.r + k] == CorrectOrder(job.lsbFirst, Replies(dev.slave, dev.wire)[k]))
    && (forall k :: 0 <= k < mem.Length && !(job.r <= k < job.r + rxCnt) ==> mem[k] == was[k])
  }

  /** Work left: idle polls the device may still insert, pushes, shifts and drains. */
  ghost function WorkLeft(dev: Device, job: Job, txCnt: nat, rxCnt: nat): int
    reads dev
  {
    dev.idles + (job.len - txCnt) + (job.len - |dev.wire|) + (job.len - rxCnt)
  }

  /** While bytes are outstanding there is always something to do: the device can shift, or the
      driver can push or drain. Never do both sides wait for each other. */
  lemma NeverStuck(dev: Device, mem: array<Byte>, was: seq<Byte>, job: Job, txCnt: nat, rxCnt: nat)
    requires Midway(dev, mem, was, job, txCnt, rxCnt)
    requires txCnt < job.len || rxCnt < job.len
    ensures dev.CanShift() || (txCnt < job.len && |dev.tx| < dev.txDepth) || (rxCnt < job.len && dev.rx != [])
  {
    hide CorrectOrder;
    assert |dev.wire| + |dev.tx| == txCnt;
  }

  /** A status read in the middle of a transfer. */
  method PollMidway(dev: Device, mem: array<Byte>, ghost was: seq<Byte>, job: Job, ghost txCnt: nat, ghost rxCnt: nat)
    returns (st: Status)
    requires Midway(dev, mem, was, job, txCnt, rxCnt)
    modifies dev`tx, dev`rx, dev`wire, dev`idles
    ensures Midway(dev, mem, was, job, txCnt, rxCnt)
    ensures st == Status(|dev.tx| < dev.txDepth, dev.rx != [], dev.tx == [])
    ensures WorkLeft(dev, job, txCnt, rxCnt) <= old(WorkLeft(dev, job, txCnt, rxCnt))
    ensures old(dev.CanShift()) ==> WorkLeft(dev, job, txCnt, rxCnt) < old(WorkLeft(dev, job, txCnt, rxCnt))
    ensures !old(dev.CanShift()) ==> dev.tx == old(dev.tx) && dev.rx == old(dev.rx)
    ensures old(dev.rx) != [] ==> dev.rx != []
  {
    hide CorrectOrder;
    st := dev.Poll();
    ghost var more := dev.wire[|old(dev.wire)|..];
    assert dev.wire == old(dev.wire) + more;
    RepliesExtend(dev.slave, old(dev.wire), more);
  }

  /** "TX fifo not full, so add some more bytes." */
  method FillTx(dev: Device, mem: array<Byte>, ghost was: seq<Byte>, job: Job, txCnt0: nat, ghost rxCnt: nat)
    returns (txCnt: nat)
    requires Midway(dev, mem, was, job, txCnt0, rxCnt)
    modifies dev`tx, dev`rx, dev`wire, dev`idles
    ensures txCnt0 <= txCnt && Midway(dev, mem, was, job, txCnt, rxCnt)
    ensures job.RunsAhead() ==> txCnt == job.len
    ensures WorkLeft(dev, job, txCnt, rxCnt) <= old(WorkLeft(dev, job, txCnt0, rxCnt))
    ensures WorkLeft(dev, job, txCnt, rxCnt) < old(WorkLeft(dev, job, txCnt0, rxCnt))
            || dev.rx != [] || (dev.tx == [] && txCnt == job.len)
  {
    hide CorrectOrder;
    txCnt := txCnt0;
    var st := PollMidway(dev, mem, was, job, txCnt, rxCnt);
    while st.txd && txCnt < job.len
      invariant txCnt0 <= txCnt && Midway(dev, mem, was, job, txCnt, rxCnt)
      invariant st.txd <==> |dev.tx| < dev.txDepth
      invariant WorkLeft(dev, job, txCnt, rxCnt) <= old(WorkLeft(dev, job, txCnt0, rxCnt)) - (txCnt - txCnt0)
      invariant WorkLeft(dev, job, txCnt, rxCnt) < old(WorkLeft(dev, job, txCnt0, rxCnt)) || dev.rx != [] || dev.tx == []
      decreases job.len - txCnt
    {
      Push(dev, mem, was, job, txCnt, rxCnt);
      txCnt := txCnt + 1;
      st := PollMidway(dev, mem, was, job, txCnt, rxCnt);
    }
    assert |dev.wire + dev.tx| == txCnt;
  }

  /** One byte of the send buffer into the TX FIFO. It is still what it was at the start. */
  method Push(dev: Device, mem: array<Byte>, ghost was: seq<Byte>, job: Job, txCnt: nat, ghost rxCnt: nat)
    requires Midway(dev, mem, was, job, txCnt, rxCnt) && txCnt < job.len && |dev.tx| < dev.txDepth
    modifies dev`tx
    ensures Midway(dev, mem, was, job, txCnt + 1, rxCnt)
  {
    hide CorrectOrder, Corrected, Replies;
    assert mem[job.t + txCnt] == was[job.t + txCnt];
    dev.WriteFifo(CorrectOrder(job.lsbFirst, mem[job.t + txCnt]));
    PushExtends(job.lsbFirst, was, job.t, txCnt);
    assert dev.wire + dev.tx == old(dev.wire + dev.tx) + [CorrectOrder(job.lsbFirst, was[job.t + txCnt])];
  }

  lemma PushExtends(lsbFirst: bool, was: seq<Byte>, t: nat, n: nat)
    requires t + n < |was|
    ensures Corrected(lsbFirst, was[t..t + n + 1]) == Corrected(lsbFirst, was[t..t + n]) + [CorrectOrder(lsbFirst, was[t + n])]
  {
    hide CorrectOrder;
    CorrectedExtends(lsbFirst, was[t..t + n], was[t + n]);
    assert was[t..t + n + 1] == was[t..t + n] + [was[t + n]];
  }

  lemma CorrectedExtends(lsbFirst: bool, bytes: seq<Byte>, b: Byte)
    ensures Corrected(lsbFirst, bytes + [b]) == Corrected(lsbFirst, bytes) + [CorrectOrder(lsbFirst, b)]
  {
    hide CorrectOrder;
  }

  /** One byte of the RX FIFO into the receive buffer, where everything has been sent already. */
  method Take(dev: Device, mem: array<Byte>, ghost was: seq<Byte>, job: Job, ghost txCnt: nat, rxCnt: nat)
    requires Midway(dev, mem, was, job, txCnt, rxCnt) && rxCnt < job.len && dev.rx != []
    requires job.RunsAhead() ==> txCnt == job.len
    modifies dev`rx, mem
    ensures Midway(dev, mem, was, job, txCnt, rxCnt + 1)
  {
    hide CorrectOrder;
    var b := dev.ReadFifo();
    mem[job.r + rxCnt] := CorrectOrder(job.lsbFirst, b);
  }

  /** "Rx fifo not empty, so get the next received bytes." */
  method DrainRx(dev: Device, mem: array<Byte>, ghost was: seq<Byte>, job: Job, ghost txCnt: nat, rxCnt0: nat)
    returns (rxCnt: nat)
    requires Midway(dev, mem, was, job, txCnt, rxCnt0) && (job.RunsAhead() ==> txCnt == job.len)
    modifies dev`tx, dev`rx, dev`wire, dev`idles, mem
    ensures rxCnt0 <= rxCnt && Midway(dev, mem, was, job, txCnt, rxCnt)
    ensures WorkLeft(dev, job, txCnt, rxCnt) <= old(WorkLeft(dev, job, txCnt, rxCnt0))
    ensures old(dev.rx) != [] ==> WorkLeft(dev, job, txCnt, rxCnt) < old(WorkLeft(dev, job, txCnt, rxCnt0))
  {
    hide CorrectOrder;
    rxCnt := rxCnt0;
    var st := PollMidway(dev, mem, was, job, txCnt, rxCnt);
    while st.rxd && rxCnt < job.len
      invariant rxCnt0 <= rxCnt && Midway(dev, mem, was, job, txCnt, rxCnt)
      invariant st.rxd == (dev.rx != [])
      invariant WorkLeft(dev, job, txCnt, rxCnt) <= old(WorkLeft(dev, job, txCnt, rxCnt0)) - (rxCnt - rxCnt0)
      invariant rxCnt == rxCnt0 ==> (old(dev.rx) != [] ==> dev.rx != [])
      decreases job.len - rxCnt
    {
      Take(dev, mem, was, job, txCnt, rxCnt);
      rxCnt := rxCnt + 1;
      st := PollMidway(dev, mem, was, job, txCnt, rxCnt);
    }
  }

  /** The body of the outer loop always gets some work done. */
  method Round(dev: Device, mem: array<Byte>, ghost was: seq<Byte>, job: Job, txCnt0: nat, rxCnt0: nat)
    returns (txCnt: nat, rxCnt: nat)
    requires Midway(dev, mem, was, job, txCnt0, rxCnt0) && (txCnt0 < job.len || rxCnt0 < job.len)
    modifies dev`tx, dev`rx, dev`wire, dev`idles, mem
    ensures Midway(dev, mem, was, job, txCnt, rxCnt) && rxCnt <= txCnt <= job.len
    ensures WorkLeft(dev, job, txCnt, rxCnt) < old(WorkLeft(dev, job, txCnt0, rxCnt0))
    ensures 0 <= old(WorkLeft(dev, job, txCnt0, rxCnt0))
  {
    hide CorrectOrder;
    assert |dev.wire| + |dev.tx| == txCnt0;
    txCnt := FillTx(dev, mem, was, job, txCnt0, rxCnt0);
    rxCnt := DrainRx(dev, mem, was, job, txCnt, rxCnt0);
  }

  /** CS cleared and TA raised: nothing sent, nothing received. */
  method Start(dev: Device, mem: array<Byte>, job: Job)
    requires dev.Valid() && job.Fits(mem.Length, dev.txDepth)
    modifies dev
    ensures Midway(dev, mem, mem[..], job, 0, 0)
  {
    dev.Clear();
    dev.SetActive(true);
  }

  /** When all bytes are accounted for, both FIFOs are empty and both buffers are as promised. */
  lemma Finished(dev: Device, mem: array<Byte>, was: seq<Byte>, job: Job)
    requires Midway(dev, mem, was, job, job.len, job.len)
    ensures dev.Valid() && dev.active && dev.tx == [] && dev.rx == []
    ensures |was| == mem.Length && job.Inside(mem.Length)
    ensures dev.wire == dev.wire + dev.tx == Corrected(job.lsbFirst, was[job.t..job.t + job.len])
    ensures mem[job.r..job.r + job.len] == Corrected(job.lsbFirst, Replies(dev.slave, dev.wire))
    ensures forall k :: 0 <= k < mem.Length && !(job.r <= k < job.r + job.len) ==> mem[k] == was[k]
  {
    hide CorrectOrder;
    assert |dev.wire| + |dev.tx| == job.len;
    assert dev.wire == dev.wire + dev.tx;
  }

  /** `spi_transfernb`. For any length, FIFO depth and device timing it ends, the wire carries what
      the send buffer held, the receive buffer holds what came back, and the rest of memory is
      untouched. */
  method TransferNb(dev: Device, mem: array<Byte>, job: Job)
    requires dev.Valid() && job.Fits(mem.Length, dev.txDepth)
    modifies dev, mem
    ensures dev.Valid() && !dev.active
    ensures dev.wire == Corrected(job.lsbFirst, old(mem[job.t..job.t + job.len]))
    ensures mem[job.r..job.r + job.len] == Corrected(job.lsbFirst, Replies(dev.slave, dev.wire))
    ensures forall k :: 0 <= k < mem.Length && !(job.r <= k < job.r + job.len) ==> mem[k] == old(mem[k])
  {
    hide Midway, CorrectOrder;
    ghost var was := mem[..];
    Start(dev, mem, job);
    var txCnt: nat, rxCnt: nat := 0, 0;
    while txCnt < job.len || rxCnt < job.len
      invariant Midway(dev, mem, was, job, txCnt, rxCnt) && rxCnt <= txCnt <= job.len
      decreases WorkLeft(dev, job, txCnt, rxCnt)
    {
      txCnt, rxCnt := Round(dev, mem, was, job, txCnt, rxCnt);
    }
    Finished(dev, mem, was, job);
    dev.AwaitDone();
    dev.SetActive(false);
  }

  /** The condition on overlapping buffers is exact. If the receive buffer runs ahead and the transfer
      is longer than the TX FIFO, this is what the driver does when the device lets the FIFO fill up
      and then shifts one byte per status read: byte `j` is not sent yet and already overwritten by an
      answer. */
  method OverwriteUnsent(dev: Device, mem: array<Byte>, job: Job, x: Byte) returns (j: nat)
    requires dev.Valid() && job.Inside(mem.Length) && job.RunsAhead() && job.len > dev.txDepth
    requires forall wire: seq<Byte> :: dev.slave(wire) == CorrectOrder(job.lsbFirst, x)
    modifies dev, mem
    ensures dev.Valid() && dev.active && |dev.wire| == dev.txDepth && dev.tx == dev.rx == []
    ensures dev.txDepth <= j < job.len && mem[job.t + j] == x
  {
    hide CorrectOrder;
    dev.Clear();
    dev.SetActive(true);
    FillUp(dev, mem, job);
    var rxCnt := 0;
    while rxCnt < dev.txDepth
      invariant rxCnt <= dev.txDepth == rxCnt + |dev.tx| && |dev.wire| == rxCnt && dev.rx == []
      invariant dev.Valid() && dev.active
      invariant forall i :: job.r <= i < job.r + rxCnt ==> mem[i] == x
    {
      dev.Shift();
      ConstantReply(dev, rxCnt, CorrectOrder(job.lsbFirst, x));
      var b := dev.ReadFifo();
      CorrectOrderTwice(job.lsbFirst, x);
      mem[job.r + rxCnt] := CorrectOrder(job.lsbFirst, b);
      rxCnt := rxCnt + 1;
    }
    var d := job.r - job.t;
    j := if d + dev.txDepth - 1 < job.len - 1 then d + dev.txDepth - 1 else job.len - 1;
    assert mem[job.t + j] == x;
  }

  lemma ConstantReply(dev: Device, k: nat, y: Byte)
    requires k < |dev.wire| && forall wire: seq<Byte> :: dev.slave(wire) == y
    ensures Replies(dev.slave, dev.wire)[k] == y
  {}

  method FillUp(dev: Device, mem: array<Byte>, job: Job)
    requires dev.Valid() && dev.active && dev.tx == dev.rx == dev.wire == []
    requires job.Inside(mem.Length) && job.len > dev.txDepth
    modifies dev`tx
    ensures dev.Valid() && |dev.tx| == dev.txDepth
  {
    hide CorrectOrder;
    for txCnt := 0 to dev.txDepth
      invariant dev.Valid() && |dev.tx| == txCnt
    {
      dev.WriteFifo(CorrectOrder(job.lsbFirst, mem[job.t + txCnt]));
    }
  }

  /** `spi_transfern`: received bytes replace the transmitted ones. */
  method TransferN(dev: Device, buf: array<Byte>, lsbFirst: bool)
    requires dev.Valid()
    modifies dev, buf
    ensures dev.Valid() && !dev.active
    ensures dev.wire == Corrected(lsbFirst, old(buf[..]))
    ensures buf[..] == Corrected(lsbFirst, Replies(dev.slave, dev.wire))
  {
    hide CorrectOrder;
    TransferNb(dev, buf, Job(lsbFirst, 0, 0, buf.Length));
    assert buf[0..buf.Length] == buf[..];
  }

  // --- looped back -----------------------------------------------------------------------------

  /** MISO tied to MOSI. */
  ghost predicate LoopsBack(slave: Slave) {
    forall wire: seq<Byte> :: wire != [] ==> slave(wire) == wire[|wire| - 1]
  }

  lemma LoopedReplies(slave: Slave, wire: seq<Byte>)
    requires LoopsBack(slave)
    ensures Replies(slave, wire) == wire
  {
    forall k | 0 <= k < |wire|
      ensures Replies(slave, wire)[k] == wire[k]
    {
      assert wire[..k + 1] != [] && wire[..k + 1][k] == wire[k];
    }
  }

  lemma CorrectedTwice(lsbFirst: bool, bytes: seq<Byte>)
    ensures Corrected(lsbFirst, Corrected(lsbFirst, bytes)) == bytes
  {
    hide CorrectOrder;
    forall k | 0 <= k < |bytes|
      ensures CorrectOrder(lsbFirst, CorrectOrder(lsbFirst, bytes[k])) == bytes[k]
    {
      CorrectOrderTwice(lsbFirst, bytes[k]);
    }
  }

  /** "If you tie MISO to MOSI, you should read back what was sent", in either bit order. */
  method TransferLoopedBack(dev: Device, buf: array<Byte>, lsbFirst: bool)
    requires dev.Valid() && LoopsBack(dev.slave)
    modifies dev, buf
    ensures dev.Valid() && !dev.active && buf[..] == old(buf[..])
  {
    hide Corrected, Replies;
    TransferN(dev, buf, lsbFirst);
    LoopedReplies(dev.slave, dev.wire);
    CorrectedTwice(lsbFirst, old(buf[..]));
  }

  // --- sending only ----------------------------------------------------------------------------

  /** `i` bytes of the buffer are on the wire or in the TX FIFO, in order. */
  ghost predicate Sending(dev: Device, lsbFirst: bool, buf: seq<Byte>, i: nat)
    reads dev
  {
    dev.Valid() && dev.active && i <= |buf| && dev.wire + dev.tx == Corrected(lsbFirst, buf[..i])
  }

  /** Polls the device may still idle away and bytes still to be shifted. */
  ghost function ShiftsLeft(dev: Device): nat
    reads dev
  {
    dev.idles + |dev.tx|
  }

  /** "Maybe wait for TXD". The loop does not drain the RX FIFO; it ends because that FIFO was empty
      when it began. */
  method AwaitRoom(dev: Device, lsbFirst: bool, ghost buf: seq<Byte>, ghost i: nat)
    requires Sending(dev, lsbFirst, buf, i) && dev.rx == []
    modifies dev`tx, dev`rx, dev`wire, dev`idles
    ensures Sending(dev, lsbFirst, buf, i) && |dev.tx| < dev.txDepth
  {
    hide CorrectOrder;
    var st := dev.Poll();
    while !st.txd
      invariant Sending(dev, lsbFirst, buf, i)
      invariant st.txd <==> |dev.tx| < dev.txDepth
      invariant st.txd || dev.rx == []
      decreases ShiftsLeft(dev)
    {
      ghost var total := |dev.wire| + |dev.tx|;
      st := dev.Poll();
      assert |dev.wire + dev.tx| == total;
    }
  }

  /** "Read from FIFO to prevent stalling", until the RX FIFO is seen empty. */
  method DropReplies(dev: Device, lsbFirst: bool, ghost buf: seq<Byte>, ghost i: nat)
    requires Sending(dev, lsbFirst, buf, i)
    modifies dev`tx, dev`rx, dev`wire, dev`idles
    ensures Sending(dev, lsbFirst, buf, i) && dev.rx == []
    ensures dev.idles <= old(dev.idles) && |dev.tx| <= |old(dev.tx)|
  {
    hide CorrectOrder;
    var st := PollSending(dev, lsbFirst, buf, i);
    while st.rxd
      invariant Sending(dev, lsbFirst, buf, i)
      invariant st.rxd <==> dev.rx != []
      invariant dev.idles <= old(dev.idles) && |dev.tx| <= |old(dev.tx)|
      decreases ShiftsLeft(dev) + |dev.tx| + |dev.rx|
    {
      var _ := dev.ReadFifo();
      st := PollSending(dev, lsbFirst, buf, i);
    }
  }

  /** A status read while sending: what is shifted moves from one FIFO to the other. */
  method PollSending(dev: Device, lsbFirst: bool, ghost buf: seq<Byte>, ghost i: nat) returns (st: Status)
    requires Sending(dev, lsbFirst, buf, i)
    modifies dev`tx, dev`rx, dev`wire, dev`idles
    ensures Sending(dev, lsbFirst, buf, i) && st == Status(|dev.tx| < dev.txDepth, dev.rx != [], dev.tx == [])
    ensures dev.idles <= old(dev.idles) && |dev.tx| <= |old(dev.tx)|
    ensures |dev.tx| + |dev.rx| == |old(dev.tx)| + |old(dev.rx)|
    ensures old(dev.CanShift()) ==> ShiftsLeft(dev) < old(ShiftsLeft(dev))
  {
    hide CorrectOrder;
    st := dev.Poll();
    assert |dev.wire + dev.tx| == |old(dev.wire + dev.tx)|;
  }

  /** `spi_writenb`. For any length, FIFO depths and timing it ends with exactly the buffer on the
      wire; the answers are dropped. */
  method WriteNb(dev: Device, buf: seq<Byte>, lsbFirst: bool)
    requires dev.Valid()
    modifies dev
    ensures dev.Valid() && !dev.active && dev.wire == Corrected(lsbFirst, buf)
  {
    hide CorrectOrder;
    dev.Clear();
    dev.SetActive(true);
    for i := 0 to |buf|
      invariant Sending(dev, lsbFirst, buf, i) && dev.rx == []
    {
      AwaitRoom(dev, lsbFirst, buf, i);
      SendOne(dev, lsbFirst, buf, i);
      DropReplies(dev, lsbFirst, buf, i + 1);
    }
    AwaitSent(dev, lsbFirst, buf);
    dev.SetActive(false);
  }

  method SendOne(dev: Device, lsbFirst: bool, buf: seq<Byte>, i: nat)
    requires Sending(dev, lsbFirst, buf, i) && i < |buf| && |dev.tx| < dev.txDepth
    modifies dev`tx
    ensures Sending(dev, lsbFirst, buf, i + 1)
  {
    hide CorrectOrder;
    PushExtends(lsbFirst, buf, 0, i);
    dev.WriteFifo(CorrectOrder(lsbFirst, buf[i]));
  }

  /** The final wait for DONE, which goes on draining. */
  method AwaitSent(dev: Device, lsbFirst: bool, ghost buf: seq<Byte>)
    requires Sending(dev, lsbFirst, buf, |buf|)
    modifies dev`tx, dev`rx, dev`wire, dev`idles
    ensures dev.Valid() && dev.wire == Corrected(lsbFirst, buf)
  {
    hide CorrectOrder;
    var st := PollSending(dev, lsbFirst, buf, |buf|);
    while !st.done
      invariant Sending(dev, lsbFirst, buf, |buf|) && st.done == (dev.tx == [])
      decreases ShiftsLeft(dev)
    {
      DropReplies(dev, lsbFirst, buf, |buf|);
      st := PollSending(dev, lsbFirst, buf, |buf|);
    }
    assert buf[..|buf|] == buf && dev.wire + dev.tx == dev.wire;
  }
}
