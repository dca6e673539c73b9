/** The free-running 64-bit system timer, read as two 32-bit halves that can tear: `st_read`,
    `st_delay` and `delayMicroseconds`. */
module SystemTimer {

  const TWO32: nat := 0x1_0000_0000
  const TWO64: nat := 0x1_0000_0000_0000_0000

  function Hi(t: nat): nat {
    t / TWO32 % TWO32
  }

  function Lo(t: nat): nat {
    t % TWO32
  }

  /** What `st_read` computes when its register reads happen at times t1 (CHI), t2 (CLO), t3 (CHI)
      and, if the high half changed, t4 (CLO again). */
  function TornRead(t1: nat, t2: nat, t3: nat, t4: nat): nat {
    if Hi(t3) == Hi(t1) then Hi(t3) * TWO32 + Lo(t2) else Hi(t3) * TWO32 + Lo(t4)
  }

  lemma Halves(t: nat)
    ensures t == t / TWO32 * TWO32 + Lo(t)
    ensures t % TWO64 == Hi(t) * TWO32 + Lo(t)
  {
    assert t == t / TWO32 * TWO32 + t % TWO32;
    var h := t / TWO32;
    assert h == h / TWO32 * TWO32 + h % TWO32;
    assert t == h / TWO32 * TWO64 + (h % TWO32 * TWO32 + t % TWO32);
    Remainder(h / TWO32, h % TWO32 * TWO32 + t % TWO32);
  }

  lemma Remainder(q: nat, r: nat)
    requires r < TWO64
    ensures (q * TWO64 + r) % TWO64 == r
  {}

  lemma SameHigh(a: nat, b: nat)
    requires a <= b <= a + (TWO64 - TWO32) && Hi(a) == Hi(b)
    ensures a / TWO32 == b / TWO32
  {
    var x, y := a / TWO32, b / TWO32;
    assert a / TWO32 <= b / TWO32 < a / TWO32 + TWO32;
    assert x % TWO32 == y % TWO32;
  }

  /** Linearizability: the value read is one the counter held at some time `t` during the call,
      however long the four register reads are apart and even across the 64-bit wrap, provided
      the call takes less than 2^64 - 2^32 ticks. */
  lemma Linearizable(t1: nat, t2: nat, t3: nat, t4: nat) returns (t: nat)
    requires t1 <= t2 <= t3 <= t4 <= t1 + (TWO64 - TWO32)
    ensures t1 <= t <= t4 && TornRead(t1, t2, t3, t4) == t % TWO64
  {
    if Hi(t3) == Hi(t1) {
      t := t2;
      SameHigh(t1, t3);
      assert t1 / TWO32 <= t2 / TWO32 <= t3 / TWO32;
    } else {
      t := t3 / TWO32 * TWO32 + Lo(t4);
      assert t1 / TWO32 < t3 / TWO32 <= t4 / TWO32;
      Halves(t1);
      Halves(t4);
      assert t / TWO32 == t3 / TWO32 && Lo(t) == Lo(t4);
    }
    Halves(t);
  }

  const LAST: nat := TWO64 - 1

  /** The timer peripheral. `now` is the counter; it moves on by any amount at every register read
      and during every sleep. A run ends before the counter wraps (some 584000 years after power-up),
      so the model's counter stops at its last value. Fast reads may see the same tick again;
      `stalls` is the number of times that can still happen. */
  class Timer {
    const mapped: bool
    var now: nat
    var stalls: nat
    /** The nanoseconds asked of `nanosleep` so far. */
    ghost var asked: seq<int>

    ghost predicate Valid()
      reads this
    {
      now <= LAST
    }

    /** Falls with every register read until the counter has reached its last value. */
    ghost function Remaining(): nat
      requires Valid()
      reads this
    {
      stalls + (LAST - now)
    }

    method Elapse()
      requires Valid()
      modifies `now, `stalls
      ensures Valid() && old(now) <= now
      ensures Remaining() <= old(Remaining())
      ensures old(now) == LAST || Remaining() < old(Remaining())
    {
      var d: nat :| 0 <= d;
      if d == 0 {
        if stalls == 0 {
          d := 1;
        } else {
          stalls := stalls - 1;
        }
      }
      now := if now + d <= LAST then now + d else LAST;
    }

    /** `nanosleep`: may also return at once, with or without an error. */
    method Sleep(ghost nanos: int)
      requires Valid()
      modifies `now, `stalls, `asked
      ensures Valid() && old(now) <= now && Remaining() <= old(Remaining()) && asked == old(asked) + [nanos]
    {
      var d: nat :| 0 <= d;
      now := if now + d <= LAST then now + d else LAST;
      asked := asked + [nanos];
    }

    method ReadHi() returns (hi: nat)
      requires Valid()
      modifies `now, `stalls
      ensures Valid() && old(now) <= now && hi == Hi(now)
      ensures Remaining() <= old(Remaining()) && (old(now) == LAST || Remaining() < old(Remaining()))
    {
      Elapse();
      hi := Hi(now);
    }

    method ReadLo() returns (lo: nat)
      requires Valid()
      modifies `now, `stalls
      ensures Valid() && old(now) <= now && lo == Lo(now)
      ensures Remaining() <= old(Remaining()) && (old(now) == LAST || Remaining() < old(Remaining()))
    {
      Elapse();
      lo := Lo(now);
    }

    /** `st_read`: some value the counter held during the call, or 0 without access to the timer. */
    method StRead() returns (st: nat)
      requires Valid()
      modifies `now, `stalls
      ensures Valid() && old(now) <= now
      ensures if mapped then old(now) <= st <= now else st == 0 && now == old(now)
      ensures Remaining() <= old(Remaining()) && (mapped && old(now) < LAST ==> Remaining() < old(Remaining()))
    {
      if !mapped {
        return 0;
      }
      var hi := ReadHi();
      ghost var t1 := now;
      var lo := ReadLo();
      ghost var t2 := now;
      st := ReadHi();
      ghost var t3 := now;
      if st == hi {
        st := st * TWO32 + lo;
        Untorn(t1, t2, t3, t3);
      } else {
        lo := ReadLo();
        st := st * TWO32 + lo;
        Untorn(t1, t2, t3, now);
      }
    }

    /** Successive readings never go back. */
    method Readings(n: nat) returns (values: seq<nat>)
      requires Valid()
      modifies `now, `stalls
      ensures Valid() && |values| == n
      ensures forall i, j :: 0 <= i < j < n ==> values[i] <= values[j]
    {
      values := [];
      for k := 0 to n
        invariant Valid() && |values| == k
        invariant forall i, j :: 0 <= i < j < k ==> values[i] <= values[j]
        invariant forall i :: 0 <= i < k ==> values[i] <= if mapped then now else 0
      {
        var st := StRead();
        values := values + [st];
      }
    }

    /** `st_delay`, the sum being a 64-bit one. `polls` counts the readings it took. It returns with the
        first reading that is late enough: when the one before it began, the counter (`lastShort`) was
        still short of the sum. */
    method StDelay(offset: nat, micros: nat) returns (polls: nat, ghost lastShort: nat)
      requires Valid() && (mapped || (offset + micros) % TWO64 == 0)
      modifies `now, `stalls
      ensures Valid() && old(now) <= now && polls >= 1
      ensures mapped ==> now >= (offset + micros) % TWO64
      ensures polls > 1 ==> old(now) <= lastShort < (offset + micros) % TWO64
      ensures (offset + micros) % TWO64 <= old(now) ==> polls == 1
    {
      var compare := (offset + micros) % TWO64;
      ghost var began := now;
      lastShort := now;
      var st := StRead();
      polls := 1;
      while st < compare
        invariant Valid() && old(now) <= lastShort <= began <= now && polls >= 1
        invariant if mapped then began <= st <= now else st == 0
        invariant compare <= old(now) ==> polls == 1
        invariant polls > 1 ==> lastShort < compare
        decreases Remaining(), compare - st
      {
        lastShort, began := began, now;
        st := StRead();
        polls := polls + 1;
      }
    }

    /** `delayMicroseconds`. From a nonzero start it never returns early unless start plus delay
        overflows 64 bits, in which case it waits for a single reading only; nor does it wait for more
        than one reading once the delay is over. Delays above 450 us are slept through but for 200. */
    method DelayMicroseconds(micros: nat) returns (start: nat, polls: nat, ghost lastShort: nat)
      requires Valid() && micros < TWO64
      modifies `now, `stalls, `asked
      ensures Valid()
      ensures mapped ==> old(now) <= start
      ensures start != 0 && start + micros < TWO64 ==> now >= start + micros >= old(now) + micros
      ensures start != 0 && start + micros < TWO64 && polls > 1 ==> lastShort < start + micros
      ensures start != 0 && start + micros >= TWO64 ==> polls == 1
      ensures asked == old(asked) +
                if start == 0 then [1000 * micros] else if micros > 450 then [1000 * (micros - 200)] else []
    {
      start := StRead();
      polls, lastShort := 0, now;
      if start == 0 {
        Sleep(1000 * micros);
        return;
      }
      if micros > 450 {
        Sleep(1000 * (micros - 200));
      }
      polls, lastShort := StDelay(start, micros);
    }
  }

  /** Before the wrap the value read lies between the first and the last register read. */
  lemma Untorn(t1: nat, t2: nat, t3: nat, t4: nat)
    requires t1 <= t2 <= t3 <= t4 <= LAST
    ensures t1 <= TornRead(t1, t2, t3, t4) <= t4
  {
    assert Hi(t1) == t1 / TWO32 && Hi(t3) == t3 / TWO32;
    if Hi(t3) == Hi(t1) {
      assert t1 / TWO32 <= t2 / TWO32 <= t3 / TWO32;
    }
    Halves(t1);
    Halves(t2);
    Halves(t4);
  }
}
