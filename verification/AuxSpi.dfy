/** Framing of the auxiliary SPI: `aux_spi_writenb` packs up to three bytes and their bit count into
    one 32-bit word; `aux_spi_transfernb` unpacks received words. */
module AuxSpi {

  type Byte = bv8
  type Word = bv32

  /** Where a word is written: TXHOLD keeps the chip selected, IO ends the transfer. */
  datatype Port = TxHold | Io

  datatype Frame = Frame(port: Port, word: Word)

  function Min(a: nat, b: nat): nat {
    if a < b then a else b
  }

  // --- one word --------------------------------------------------------------------------------

  /** `byte << (8 * (2 - i))`. */
  function Place(b: Byte, i: nat): Word
    requires i < 3
  {
    match i
    case 0 => (b as Word) << 16
    case 1 => (b as Word) << 8
    case _ => b as Word
  }

  /** `(count * 8) << 24`. */
  function CountField(count: nat): Word
    requires 1 <= count <= 3
  {
    match count
    case 1 => 0x0800_0000
    case 2 => 0x1000_0000
    case _ => 0x1800_0000
  }

  /** Bytes left-justified below the bit count. */
  function Pack(chunk: seq<Byte>): Word
    requires 1 <= |chunk| <= 3
  {
    var b0 := (chunk[0] as Word) << 16;
    if |chunk| == 1 then b0 | 0x0800_0000
    else
      var b1 := (chunk[1] as Word) << 8;
      if |chunk| == 2 then b0 | b1 | 0x1000_0000
      else b0 | b1 | (chunk[2] as Word) | 0x1800_0000
  }

  /** The byte of a word at bit `8 * k`. */
  function ByteAt(w: Word, k: nat): Byte
    requires k < 4
  {
    match k
    case 0 => (w & 0xFF) as Byte
    case 1 => ((w >> 8) & 0xFF) as Byte
    case 2 => ((w >> 16) & 0xFF) as Byte
    case _ => ((w >> 24) & 0xFF) as Byte
  }

  /** What the hardware sends for a word in variable-width mode: as many of the left-justified bits
      as the count byte says. A count the driver never produces sends nothing here. */
  function Unpack(w: Word): seq<Byte> {
    var count := ByteAt(w, 3);
    if count == 8 then [ByteAt(w, 2)]
    else if count == 16 then [ByteAt(w, 2), ByteAt(w, 1)]
    else if count == 24 then [ByteAt(w, 2), ByteAt(w, 1), ByteAt(w, 0)]
    else []
  }

  lemma PackedBytes(b0: Byte, b1: Byte, b2: Byte)
    ensures ByteAt(Pack([b0, b1, b2]), 3) == 24 && ByteAt(Pack([b0, b1, b2]), 2) == b0
    ensures ByteAt(Pack([b0, b1, b2]), 1) == b1 && ByteAt(Pack([b0, b1, b2]), 0) == b2
    ensures ByteAt(Pack([b0, b1]), 3) == 16 && ByteAt(Pack([b0, b1]), 2) == b0 && ByteAt(Pack([b0, b1]), 1) == b1
    ensures ByteAt(Pack([b0]), 3) == 8 && ByteAt(Pack([b0]), 2) == b0
  {}

  lemma PackUnpack(chunk: seq<Byte>)
    requires 1 <= |chunk| <= 3
    ensures Unpack(Pack(chunk)) == chunk
  {
    if |chunk| == 1 {
      assert chunk == [chunk[0]];
      PackedBytes(chunk[0], 0, 0);
    } else if |chunk| == 2 {
      assert chunk == [chunk[0], chunk[1]];
      PackedBytes(chunk[0], chunk[1], 0);
    } else {
      assert chunk == [chunk[0], chunk[1], chunk[2]];
      PackedBytes(chunk[0], chunk[1], chunk[2]);
    }
  }

  // --- whole buffers ---------------------------------------------------------------------------

  /** The writes a transfer consists of: the last word goes to IO, all others to TXHOLD. */
  function Frames(buf: seq<Byte>): seq<Frame> {
    if buf == [] then [] else
    var n := Min(|buf|, 3);
    [Frame(if n == |buf| then Io else TxHold, Pack(buf[..n]))] + Frames(buf[n..])
  }

  function Transmitted(frames: seq<Frame>): seq<Byte> {
    if frames == [] then [] else Unpack(frames[0].word) + Transmitted(frames[1..])
  }

  /** For any length: the frames carry exactly the buffer, there are ceil(len / 3) of them, and
      exactly the last one releases the chip. */
  lemma {:induction false} FramesRoundTrip(buf: seq<Byte>)
    ensures var frames := Frames(buf);
            && Transmitted(frames) == buf
            && |frames| == (|buf| + 2) / 3
            && forall k :: 0 <= k < |frames| ==> (frames[k].port == Io <==> k == |frames| - 1)
    decreases |buf|
  {
    hide Pack, Unpack;
    if buf != [] {
      var n := Min(|buf|, 3);
      FramesRoundTrip(buf[n..]);
      PackUnpack(buf[..n]);
      assert buf == buf[..n] + buf[n..];
      var rest := Frames(buf[n..]);
      assert Frames(buf)[1..] == rest;
      assert |rest| == 0 <==> n == |buf|;
    }
  }

  function Zeros(n: nat): (z: seq<Byte>)
    ensures |z| == n
  {
    seq(n, _ => 0)
  }

  /** Bytes or-ed in so far by the inner loop. */
  function Partial(chunk: seq<Byte>, i: nat): Word
    requires i <= |chunk| <= 3
  {
    if i == 0 then 0 else Partial(chunk, i - 1) | Place(chunk[i - 1], i - 1)
  }

  lemma OneByte(chunk: seq<Byte>)
    requires 1 <= |chunk| <= 3
    ensures Partial(chunk, 1) == Place(chunk[0], 0)
  {
    assert Partial(chunk, 0) == 0;
  }

  lemma TwoBytes(chunk: seq<Byte>)
    requires 2 <= |chunk| <= 3
    ensures Partial(chunk, 2) == Place(chunk[0], 0) | Place(chunk[1], 1)
  {
    OneByte(chunk);
  }

  lemma ThreeBytes(chunk: seq<Byte>)
    requires |chunk| == 3
    ensures Partial(chunk, 3) == Place(chunk[0], 0) | Place(chunk[1], 1) | Place(chunk[2], 2)
  {
    TwoBytes(chunk);
  }

  lemma PartialIsPack(chunk: seq<Byte>)
    requires 1 <= |chunk| <= 3
    ensures Partial(chunk, |chunk|) | CountField(|chunk|) == Pack(chunk)
  {
    if |chunk| == 1 {
      OneByte(chunk);
    } else if |chunk| == 2 {
      TwoBytes(chunk);
    } else {
      ThreeBytes(chunk);
    }
  }

  /** The inner loop of `aux_spi_writenb`: shift each byte to its place, then add the bit count. */
  method BuildWord(chunk: seq<Byte>) returns (data: Word)
    requires 1 <= |chunk| <= 3
    ensures data == Pack(chunk)
  {
    data := 0;
    for i := 0 to |chunk|
      invariant data == Partial(chunk, i)
    {
      data := data | Place(chunk[i], i);
    }
    PartialIsPack(chunk);
    data := data | CountField(|chunk|);
  }

  /** The frame a transfer writes for the bytes from `at` on. */
  function FrameAt(buf: seq<Byte>, at: nat): Frame
    requires at < |buf|
  {
    var n := Min(|buf| - at, 3);
    Frame(if at + n == |buf| then Io else TxHold, Pack(buf[at..at + n]))
  }

  lemma FramesStep(buf: seq<Byte>, at: nat) returns (later: seq<Frame>)
    requires at < |buf|
    ensures later == Frames(buf[at + Min(|buf| - at, 3)..])
    ensures Frames(buf[at..]) == [FrameAt(buf, at)] + later
  {
    var n := Min(|buf| - at, 3);
    later := Frames(buf[at + n..]);
    assert buf[at..][..n] == buf[at..at + n];
    assert buf[at..][n..] == buf[at + n..];
  }

  /** One round of the outer loop, on the bytes `all` from `at` on. */
  method NextFrame(hasBuffer: bool, all: seq<Byte>, at: nat) returns (count: nat, frame: Frame)
    requires at < |all| && (hasBuffer || all == Zeros(|all|))
    ensures count == Min(|all| - at, 3) && frame == FrameAt(all, at)
  {
    count := Min(|all| - at, 3);
    var chunk := if hasBuffer then all[at..at + count] else Zeros(count);
    assert chunk == all[at..at + count];
    var data := BuildWord(chunk);
    frame := Frame(if at + count != |all| then TxHold else Io, data);
  }

  /** The outer loop of `aux_spi_writenb`. The waits for TX_FULL and BUSY and the dummy read of IO
      do not change what is written. */
  method SendAll(hasBuffer: bool, all: seq<Byte>) returns (log: seq<Frame>)
    requires hasBuffer || all == Zeros(|all|)
    ensures log == Frames(all)
  {
    log := [];
    ghost var rest := Frames(all);
    assert all[0..] == all;
    var at := 0;
    while at < |all|
      invariant at <= |all|
      invariant rest == Frames(all[at..])
      invariant log + rest == Frames(all)
    {
      rest := FramesStep(all, at);
      var count, frame := NextFrame(hasBuffer, all, at);
      Regroup(log, [frame], rest);
      at := at + count;
      log := log + [frame];
    }
  }

  /** `aux_spi_writenb`: without a buffer zeros are sent. */
  method WriteNb(hasBuffer: bool, tbuf: seq<Byte>, len: nat) returns (log: seq<Frame>)
    requires hasBuffer ==> |tbuf| == len
    ensures log == Frames(if hasBuffer then tbuf else Zeros(len))
    ensures |log| == (len + 2) / 3
  {
    FramesRoundTrip(if hasBuffer then tbuf else Zeros(len));
    log := SendAll(hasBuffer, if hasBuffer then tbuf else Zeros(len));
  }

  // --- receiving -------------------------------------------------------------------------------

  /** The fall-through switch of `aux_spi_transfernb` for the last `count` bytes of a word. */
  function Received(w: Word, count: nat): (r: seq<Byte>)
    requires 1 <= count <= 3
    ensures |r| == count
  {
    (if count == 3 then [ByteAt(w, 2)] else []) + (if count >= 2 then [ByteAt(w, 1)] else []) + [ByteAt(w, 0)]
  }

  /** A chunk as the hardware shifts it in: right-justified. */
  function RightJustified(chunk: seq<Byte>): Word
    requires 1 <= |chunk| <= 3
  {
    if |chunk| == 1 then chunk[0] as Word
    else if |chunk| == 2 then ((chunk[0] as Word) << 8) | (chunk[1] as Word)
    else ((chunk[0] as Word) << 16) | ((chunk[1] as Word) << 8) | (chunk[2] as Word)
  }

  lemma ReceiveChunk(chunk: seq<Byte>)
    requires 1 <= |chunk| <= 3
    ensures Received(RightJustified(chunk), |chunk|) == chunk
  {}

  /** Receiving expects the opposite alignment from sending: a transmitted word fed back as it is
      would be understood exactly if it was full or all its bytes are zero. */
  lemma LoopedBackWord(chunk: seq<Byte>)
    requires 1 <= |chunk| <= 3
    ensures Received(Pack(chunk), |chunk|) == chunk <==> |chunk| == 3 || chunk == Zeros(|chunk|)
  {
    if |chunk| == 3 {
      assert chunk == [chunk[0], chunk[1], chunk[2]];
      PackedBytes(chunk[0], chunk[1], chunk[2]);
    } else if |chunk| == 2 {
      assert chunk == [chunk[0], chunk[1]];
      PackedBytes(chunk[0], chunk[1], 0);
      assert ByteAt(Pack([chunk[0], chunk[1]]), 0) == 0;
      assert Received(Pack(chunk), 2) == [chunk[1], 0];
    } else {
      assert chunk == [chunk[0]];
      assert ByteAt(Pack([chunk[0]]), 0) == 0;
      assert Received(Pack(chunk), 1) == [0];
    }
  }

  function ReceivedAll(words: seq<Word>, len: nat): (r: seq<Byte>)
    requires 3 * |words| >= len
    ensures |r| == len
  {
    if len == 0 then [] else
    var n := Min(len, 3);
    Received(words[0], n) + ReceivedAll(words[1..], len - n)
  }

  function InWords(buf: seq<Byte>): (ws: seq<Word>)
    ensures 3 * |ws| >= |buf|
  {
    if buf == [] then [] else
    var n := Min(|buf|, 3);
    [RightJustified(buf[..n])] + InWords(buf[n..])
  }

  /** The unpacking inverts the chunking for right-justified words. */
  lemma {:induction false} ReceiveRoundTrip(buf: seq<Byte>)
    ensures ReceivedAll(InWords(buf), |buf|) == buf
    decreases |buf|
  {
    hide Received, RightJustified;
    if buf != [] {
      var n := Min(|buf|, 3);
      ReceiveChunk(buf[..n]);
      ReceiveRoundTrip(buf[n..]);
      var words, rest := InWords(buf), InWords(buf[n..]);
      assert words == [RightJustified(buf[..n])] + rest;
      hide InWords;
      assert words[0] == RightJustified(buf[..n]) && words[1..] == rest;
      assert ReceivedAll(words, |buf|) == buf[..n] + buf[n..];
    }
  }

  /** One round of the receive loop: the fall-through switch for the next word. */
  method StoreChunk(word: Word, rxLen: nat, len: nat, rbuf: array<Byte>) returns (count: nat)
    requires 0 < rxLen <= len <= rbuf.Length
    modifies rbuf
    ensures count == Min(rxLen, 3)
    ensures rbuf[..len - rxLen + count] == old(rbuf[..len - rxLen]) + Received(word, count)
    ensures rbuf[len..] == old(rbuf[len..])
  {
    count := Min(rxLen, 3);
    var rx := len - rxLen;
    if count == 3 {
      rbuf[rx] := ByteAt(word, 2);
      rx := rx + 1;
    }
    if count >= 2 {
      rbuf[rx] := ByteAt(word, 1);
      rx := rx + 1;
    }
    rbuf[rx] := ByteAt(word, 0);
  }

  /** The receive loop: words as they are read from IO, bytes into `rbuf`. */
  method StoreWords(words: seq<Word>, rbuf: array<Byte>, len: nat) returns (used: nat)
    requires 3 * |words| >= len && len <= rbuf.Length
    modifies rbuf
    ensures used == (len + 2) / 3
    ensures rbuf[..len] == ReceivedAll(words, len)
    ensures rbuf[len..] == old(rbuf[len..])
  {
    hide Received, ReceivedAll, ByteAt;
    var rxLen := len;
    used := 0;
    ghost var rest := ReceivedAll(words, len);
    assert words[0..] == words;
    while rxLen > 0
      invariant 0 <= rxLen <= len && used == (len - rxLen + 2) / 3 && (rxLen == 0 || 3 * used == len - rxLen)
      invariant rest == ReceivedAll(words[used..], rxLen)
      invariant rbuf[..len - rxLen] + rest == ReceivedAll(words, len)
      invariant rbuf[len..] == old(rbuf[len..])
    {
      ghost var got, later := ReceivedStep(words, used, rxLen);
      Regroup(rbuf[..len - rxLen], got, later);
      var count := StoreChunk(words[used], rxLen, len, rbuf);
      rest := later;
      used := used + 1;
      rxLen := rxLen - count;
    }
    NothingLeft(words[used..]);
  }

  lemma NothingLeft(words: seq<Word>)
    ensures ReceivedAll(words, 0) == []
  {}

  /** Without a receive buffer the same number of words is read and dropped. */
  method ReadNb(words: seq<Word>, rbuf: array?<Byte>, len: nat) returns (used: nat)
    requires 3 * |words| >= len && (rbuf != null ==> len <= rbuf.Length)
    modifies if rbuf == null then {} else {rbuf}
    ensures used == (len + 2) / 3
    ensures rbuf != null ==> rbuf[..len] == ReceivedAll(words, len) && rbuf[len..] == old(rbuf[len..])
  {
    if rbuf != null {
      used := StoreWords(words, rbuf, len);
    } else {
      var rxLen := len;
      used := 0;
      while rxLen > 0
        invariant 0 <= rxLen <= len && used == (len - rxLen + 2) / 3 && (rxLen == 0 || 3 * used == len - rxLen)
      {
        used := used + 1;
        rxLen := rxLen - Min(rxLen, 3);
      }
    }
  }

  lemma ReceivedStep(words: seq<Word>, w: nat, len: nat) returns (got: seq<Byte>, later: seq<Byte>)
    requires w <= |words| && 3 * (|words| - w) >= len > 0
    ensures got == Received(words[w], Min(len, 3))
    ensures later == ReceivedAll(words[w + 1..], len - Min(len, 3))
    ensures ReceivedAll(words[w..], len) == got + later
  {
    got := Received(words[w], Min(len, 3));
    later := ReceivedAll(words[w + 1..], len - Min(len, 3));
    assert words[w..][1..] == words[w + 1..];
  }

  lemma Regroup<T>(a: seq<T>, b: seq<T>, c: seq<T>)
    ensures a + (b + c) == a + b + c
  {}
}
