// The sliding window of ten-minute slots (src/overTime.c).
module OverTime {
  import opened Records

  /** overTimeData. `timestamp` is the middle of the ten minutes the slot covers. */
  datatype Slot = Slot(timestamp: int, total: int, blocked: int, cached: int, forwarded: int)

  const HALF := OVERTIME_INTERVAL / 2

  // Integer division and remainder as C computes them, rounding toward zero
  function CDiv(a: int, b: nat): int
    requires b > 0
  {
    if a >= 0 then a / b else -((-a) / b)
  }

  function CMod(a: int, b: nat): int
    requires b > 0
  {
    a - b * CDiv(a, b)
  }

  // The middle of the interval a time falls into
  function Centered(t: int): int {
    t - CMod(t, OVERTIME_INTERVAL) + HALF
  }

  ghost predicate Aligned(slots: seq<Slot>) {
    && |slots| == OVERTIME_SLOTS
    && slots[0].timestamp % OVERTIME_INTERVAL == HALF
    && forall i :: 0 <= i < |slots| ==> slots[i].timestamp == slots[0].timestamp + OVERTIME_INTERVAL * i
  }

  // The interval of the oldest slot
  function Base(slots: seq<Slot>): int
    requires |slots| == OVERTIME_SLOTS
  {
    slots[0].timestamp / OVERTIME_INTERVAL
  }

  predicate Covers(slots: seq<Slot>, n: int)
    requires |slots| == OVERTIME_SLOTS
  {
    0 <= n - Base(slots) < OVERTIME_SLOTS
  }

  /** _getOverTimeID() */
  function GetId(slots: seq<Slot>, t: int): (id: nat)
    requires |slots| == OVERTIME_SLOTS
    ensures id < OVERTIME_SLOTS
  {
    var id := CDiv(Centered(t) - slots[0].timestamp, OVERTIME_INTERVAL);
    if id < 0 then 0
    else if id >= OVERTIME_SLOTS then OVERTIME_SLOTS - 1
    else id
  }

  lemma CenteredIs(t: int)
    requires 0 <= t
    ensures Centered(t) == OVERTIME_INTERVAL * (t / OVERTIME_INTERVAL) + HALF
  {
  }

  /** A covered, non-negative time gets the slot of its interval. */
  lemma GetIdOfCovered(slots: seq<Slot>, t: real)
    requires Aligned(slots) && 0.0 <= t && Covers(slots, Interval(t))
    ensures GetId(slots, t.Floor) == Interval(t) - Base(slots)
  {
    CenteredIs(t.Floor);
    assert slots[0].timestamp == OVERTIME_INTERVAL * Base(slots) + HALF;
    assert Centered(t.Floor) - slots[0].timestamp == OVERTIME_INTERVAL * (Interval(t) - Base(slots));
  }

  // ---- Moving the window ----

  // The number of slots to drop; a negative number is cast to a huge unsigned one
  function ShiftOf(slots: seq<Slot>, mintime: int): int
    requires |slots| == OVERTIME_SLOTS
  {
    CDiv(Centered(mintime) - slots[0].timestamp, OVERTIME_INTERVAL)
  }

  predicate Moves(shift: int) {
    0 < shift < OVERTIME_SLOTS
  }

  function MovedSlots(slots: seq<Slot>, shift: int): (r: seq<Slot>)
    requires |slots| == OVERTIME_SLOTS && Moves(shift)
    ensures |r| == OVERTIME_SLOTS
  {
    var newest := slots[OVERTIME_SLOTS - 1].timestamp;
    slots[shift..] + seq(shift, i => Slot(newest + OVERTIME_INTERVAL * (i + 1), 0, 0, 0, 0))
  }

  function MovedCounts(counts: seq<int>, shift: int): (r: seq<int>)
    requires |counts| == OVERTIME_SLOTS && Moves(shift)
    ensures |r| == OVERTIME_SLOTS
  {
    counts[shift..] + seq(shift, i => 0)
  }

  /** Moving keeps the window aligned and contiguous, and moves it by whole intervals. */
  lemma MovedAligned(slots: seq<Slot>, shift: int)
    requires Aligned(slots) && Moves(shift)
    ensures Aligned(MovedSlots(slots, shift))
    ensures Base(MovedSlots(slots, shift)) == Base(slots) + shift
  {
    var r := MovedSlots(slots, shift);
    var first := slots[0].timestamp + OVERTIME_INTERVAL * shift;
    forall i | 0 <= i < |r|
      ensures r[i].timestamp == first + OVERTIME_INTERVAL * i
    {
      if i < OVERTIME_SLOTS - shift {
        assert r[i] == slots[shift + i];
      } else {
        assert r[i].timestamp == slots[OVERTIME_SLOTS - 1].timestamp + OVERTIME_INTERVAL * (i - (OVERTIME_SLOTS - shift) + 1);
      }
    }
    hide MovedSlots;
    assert r[0].timestamp == first;
  }

  /** If the window moves, its oldest slot becomes the interval of the oldest time kept. */
  lemma ShiftBound(slots: seq<Slot>, mintime: int)
    requires Aligned(slots) && Base(slots) >= 0
    ensures Moves(ShiftOf(slots, mintime)) ==>
              0 <= mintime && Base(slots) + ShiftOf(slots, mintime) == mintime / OVERTIME_INTERVAL
  {
    var b := Base(slots);
    assert slots[0].timestamp == OVERTIME_INTERVAL * b + HALF;
    if mintime >= 0 {
      CenteredIs(mintime);
      var n := mintime / OVERTIME_INTERVAL;
      assert Centered(mintime) - slots[0].timestamp == OVERTIME_INTERVAL * (n - b);
    }
  }

  /** The window moves exactly if the oldest time to keep lies in it, behind its first slot. */
  lemma ShiftIff(slots: seq<Slot>, mintime: int)
    requires Aligned(slots) && Base(slots) >= 0 && 0 <= mintime
    ensures Moves(ShiftOf(slots, mintime)) <==> Base(slots) < mintime / OVERTIME_INTERVAL < Base(slots) + OVERTIME_SLOTS
  {
    CenteredIs(mintime);
    var n := mintime / OVERTIME_INTERVAL;
    assert slots[0].timestamp == OVERTIME_INTERVAL * Base(slots) + HALF;
    assert Centered(mintime) - slots[0].timestamp == OVERTIME_INTERVAL * (n - Base(slots));
  }

  /** A time before or behind the window gets the slot at that end of it. */
  lemma GetIdOutside(slots: seq<Slot>, t: nat)
    requires Aligned(slots)
    ensures t / OVERTIME_INTERVAL < Base(slots) ==> GetId(slots, t) == 0
    ensures t / OVERTIME_INTERVAL >= Base(slots) + OVERTIME_SLOTS ==> GetId(slots, t) == OVERTIME_SLOTS - 1
  {
    CenteredIs(t);
    var n := t / OVERTIME_INTERVAL;
    assert slots[0].timestamp == OVERTIME_INTERVAL * Base(slots) + HALF;
    assert Centered(t) - slots[0].timestamp == OVERTIME_INTERVAL * (n - Base(slots));
  }

  // ---- Initial window ----

  // initOverTime() with the default collection interval of ten minutes
  function Initial(now: nat): (slots: seq<Slot>)
    ensures Aligned(slots)
    ensures forall i :: 0 <= i < |slots| ==> slots[i] == Slot(slots[i].timestamp, 0, 0, 0, 0)
    ensures Base(slots) + OVERTIME_SLOTS - 1 == now / OVERTIME_INTERVAL
  {
    var newest := now - now % OVERTIME_INTERVAL + OVERTIME_INTERVAL - HALF;
    var oldest := newest - (OVERTIME_SLOTS - 1) * OVERTIME_INTERVAL;
    seq(OVERTIME_SLOTS, i => Slot(oldest + OVERTIME_INTERVAL * i, 0, 0, 0, 0))
  }
}
