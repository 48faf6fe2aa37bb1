/** The ticks of the event loop: twenty a second, counted from the start of the game. */
module Ticks {

  const TICK_USEC: int := 50000
  const MILLION: int := 1000000

  datatype Time = Time(sec: int, usec: int) {
    function Total(): int {
      sec * MILLION + usec
    }

    /** As the system clock gives it. */
    predicate Normal() {
      0 <= usec < MILLION
    }

    /** As the event loop keeps it: a full million of microseconds may stay. */
    predicate Kept() {
      0 <= usec <= MILLION
    }
  }

  predicate IsAfter(t1: Time, t2: Time) {
    if t1.sec == t2.sec then t1.usec >= t2.usec else t1.sec > t2.sec
  }

  /** Clock times are compared with tick times as by their totals, although a tick time may be
      written with a full million of microseconds where the next second would be due. */
  lemma ComparedByTotals(t1: Time, t2: Time)
    requires t1.Normal() && t2.Kept()
    ensures IsAfter(t1, t2) <==> t1.Total() >= t2.Total()
  {
  }

  /** Of two times that may both be written so, totals decide unless it is the first that is,
      and the second is the same moment written as the next second. */
  lemma ComparedExactly(t1: Time, t2: Time)
    requires t1.Kept() && t2.Kept()
    ensures (IsAfter(t1, t2) <==> t1.Total() >= t2.Total()) <==>
            !(t1.usec == MILLION && t2.usec == 0 && t2.sec == t1.sec + 1)
  {
  }

  /** For clock times against tick times this is the comparison of totals. */
  method TimeIsAfter(t1: Time, t2: Time) returns (after: bool)
    ensures after == IsAfter(t1, t2)
    ensures t1.Normal() && t2.Kept() ==> (after <==> t1.Total() >= t2.Total())
    ensures t1.Kept() && t2.Kept() ==>
      ((after <==> t1.Total() >= t2.Total()) <==> !(t1.usec == MILLION && t2.usec == 0 && t2.sec == t1.sec + 1))
  {
    if t1.sec == t2.sec {
      return t1.usec >= t2.usec;
    }
    if t1.sec > t2.sec {
      return true;
    }
    return false;
  }

  function Later(t: Time): (u: Time)
    ensures u.Total() == t.Total() + TICK_USEC
    ensures t.Kept() ==> u.Kept()
  {
    if t.usec + TICK_USEC > MILLION then Time(t.sec + 1, t.usec + TICK_USEC - MILLION) else Time(t.sec, t.usec + TICK_USEC)
  }

  /** Ticks after start, a whole number of them. */
  ghost predicate OnGrid(start: Time, t: Time) {
    exists k: nat :: AtTick(start, t, k)
  }

  ghost predicate AtTick(start: Time, t: Time, k: nat) {
    t.Total() == start.Total() + k * TICK_USEC
  }

  lemma LaterOnGrid(start: Time, t: Time)
    requires OnGrid(start, t)
    ensures OnGrid(start, Later(t))
  {
    var k: nat :| AtTick(start, t, k);
    assert AtTick(start, Later(t), k + 1);
  }

  /** The tick time after it has been advanced k times. */
  function TickTime(start: Time, k: nat): Time {
    if k == 0 then start else Later(TickTime(start, k - 1))
  }

  /** It is the moment k ticks after the start, and has 1 to 1000000 microseconds. */
  lemma {:induction false} TickIsKept(start: Time, k: nat)
    requires start.Normal()
    ensures TickTime(start, k).Kept() && AtTick(start, TickTime(start, k), k) && (k > 0 ==> TickTime(start, k).usec != 0)
  {
    if k > 0 {
      TickIsKept(start, k - 1);
      assert k * TICK_USEC == (k - 1) * TICK_USEC + TICK_USEC;
    }
  }

  /** There are twenty ticks a second: the twentieth tick time is the start, one second later. */
  lemma TwentyASecond(start: Time)
    requires 0 < start.usec < 1000000
    ensures TickTime(start, 20) == Time(start.sec + 1, start.usec)
  {
    TickIsKept(start, 20);
  }

  /** It has a full million of microseconds exactly if that is a multiple of a second. */
  lemma FullMillionAt(start: Time, k: nat)
    requires start.Normal() && k > 0
    ensures TickTime(start, k).usec == MILLION <==> (start.usec + k * TICK_USEC) % MILLION == 0
  {
    TickIsKept(start, k);
    var t := TickTime(start, k);
    WholeSeconds(start.usec + k * TICK_USEC, t.sec - start.sec, t.usec);
  }

  lemma WholeSeconds(usec: int, seconds: int, rest: int)
    requires usec == seconds * MILLION + rest && 0 < rest <= MILLION
    ensures rest == MILLION <==> usec % MILLION == 0
  {
  }

  /** A second is a whole number of ticks, so the tick time comes to be kept with a full million
      of microseconds if and only if the game has started on a multiple of the tick length. */
  lemma FullMillionOccurs(start: Time)
    requires start.Normal()
    ensures (exists k: nat :: k > 0 && TickTime(start, k).usec == MILLION) <==> start.usec % TICK_USEC == 0
  {
    if start.usec % TICK_USEC == 0 {
      var k := (MILLION - start.usec) / TICK_USEC;
      assert k > 0 && start.usec + k * TICK_USEC == MILLION;
      FullMillionAt(start, k);
    }
    if k: nat :| k > 0 && TickTime(start, k).usec == MILLION {
      TickIsKept(start, k);
      StartsOnTick(start, TickTime(start, k), k);
    }
  }

  lemma StartsOnTick(start: Time, t: Time, k: nat)
    requires AtTick(start, t, k) && t.usec == MILLION
    ensures start.usec % TICK_USEC == 0
  {
    assert start.usec == TICK_USEC * (20 * (t.sec + 1 - start.sec) - k);
  }

  /** The time of the first tick, and the clock that advances it. */
  class Clock {
    ghost const start: Time
    var tickTime: Time
    /** How often the tick time has been advanced. */
    ghost var count: nat

    ghost predicate Valid()
      reads this
    {
      && start.Normal() && count > 0 && tickTime == TickTime(start, count)
      && tickTime.Kept() && OnGrid(start, tickTime)
    }

    /** When the tick time is kept with a full million of microseconds. */
    lemma HoldsFullMillion()
      requires Valid()
      ensures tickTime.usec == MILLION <==> (start.usec + count * TICK_USEC) % MILLION == 0
    {
      FullMillionAt(start, count);
    }

    constructor (now: Time)
      requires now.Normal()
      ensures Valid() && start == now && count == 1 && tickTime.Total() == now.Total() + TICK_USEC
    {
      start := now;
      tickTime, count := Later(now), 1;
      new;
      assert tickTime == Later(TickTime(start, 0)) == TickTime(start, 1);
      assert AtTick(start, tickTime, 1);
    }

    method Add()
      requires Valid()
      modifies this
      ensures Valid() && tickTime == Later(old(tickTime)) && count == old(count) + 1
    {
      LaterOnGrid(start, tickTime);
      tickTime := Time(tickTime.sec, tickTime.usec + TICK_USEC);
      if tickTime.usec > MILLION {
        tickTime := Time(tickTime.sec + 1, tickTime.usec - MILLION);
      }
      count := count + 1;
    }

    /** Has the tick come, according to the clock? */
    method Due(now: Time) returns (due: bool)
      requires Valid() && now.Normal()
      ensures due <==> now.Total() >= tickTime.Total()
    {
      due := TimeIsAfter(now, tickTime);
      ComparedByTotals(now, tickTime);
    }

    /** After a tick that has come, goes on to the first one that has not, and so skips all that
        were missed. */
    method Advance(now: Time)
      requires Valid() && now.Normal() && now.Total() >= tickTime.Total()
      modifies this
      ensures Valid() && tickTime.Total() - TICK_USEC <= now.Total() < tickTime.Total()
      ensures forall t: Time :: OnGrid(start, t) && now.Total() < t.Total() ==> tickTime.Total() <= t.Total()
    {
      Add();
      var late := Due(now);
      while late
        invariant Valid() && tickTime.Total() - TICK_USEC <= now.Total()
        invariant late <==> now.Total() >= tickTime.Total()
        decreases now.Total() - tickTime.Total()
      {
        Add();
        late := Due(now);
      }
      forall t: Time | OnGrid(start, t) && now.Total() < t.Total()
        ensures tickTime.Total() <= t.Total()
      {
        GridStep(start, tickTime, t);
      }
    }
  }

  /** Times on the grid are a tick apart or more, or the same. */
  lemma GridStep(start: Time, t: Time, u: Time)
    requires OnGrid(start, t) && OnGrid(start, u) && t.Total() - TICK_USEC < u.Total()
    ensures t.Total() <= u.Total()
  {
    var j: nat :| AtTick(start, t, j);
    var k: nat :| AtTick(start, u, k);
    assert (j - k) * TICK_USEC < TICK_USEC;
  }
}
