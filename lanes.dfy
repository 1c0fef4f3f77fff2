/** Lane generators of the note scheduler: the `default`, `stair` and `hold`
    patterns, and the row-by-row fill of one layer that feeds each generated
    lane back in as the next row's previous lane.

    Every call of `Math.random()` is modelled as the next value of an oracle
    sequence of reals in [0, 1); a lane draw is `Floor(r * 4)`. */
module Lanes {

  // Arithmetic on slots, rows and draws below writes these numbers out
  // (4, 10) rather than naming the constants, which keeps it linear.

  /** Number of lanes (columns) of the board. */
  const LaneCount := 4
  /** Number of rows of one layer (40 slots / 4 lanes). */
  const RowCount := 10
  /** The stair generator's cap on draws. */
  const MaxStairAttempts := 10
  /** No generator call consumes more draws than this. */
  const MaxDraws := 10

  datatype Pattern = Default | Stair | Hold

  /** A value of `Math.random()`: a real in [0, 1). */
  type Draw = r: real | 0.0 <= r < 1.0

  predicate IsLane(c: int) { 0 <= c < LaneCount }

  /** A previous lane, or -1 for "no previous note". */
  predicate IsPrev(c: int) { -1 <= c < LaneCount }

  /** `Math.floor(r * 4)`: the lane whose quarter of [0, 1) holds the draw. */
  function LaneOf(r: Draw): (c: int)
    ensures IsLane(c)
    ensures c as real <= r * 4.0 < c as real + 1.0
  {
    (r * 4.0).Floor
  }

  /** A generated lane and the number of draws it consumed. */
  datatype Gen = Gen(lane: int, used: nat)

  /** generateDefaultBasedOnPrevious: with no previous lane, one uniform draw.
      Otherwise a lane draw and a second draw; a draw that repeats the
      previous lane moves to the next lane only when the second draw is
      below 0.3. */
  function DefaultNext(prev: int, rs: seq<Draw>): (g: Gen)
    requires IsPrev(prev) && |rs| >= 2
    ensures IsLane(g.lane)
    ensures prev == -1 ==> g == Gen(LaneOf(rs[0]), 1)
    ensures prev != -1 ==> g.used == 2
    ensures prev != -1 ==>
      (g.lane != LaneOf(rs[0]) <==> LaneOf(rs[0]) == prev && rs[1] < 0.3)
    ensures prev != -1 && g.lane != LaneOf(rs[0]) ==> g.lane == (prev + 1) % 4
  {
    if prev == -1 then Gen(LaneOf(rs[0]), 1)
    else
      var next := LaneOf(rs[0]);
      if rs[1] < 0.3 && next == prev then Gen((next + 1) % 4, 2)
      else Gen(next, 2)
  }

  /** The default generator repeats its previous lane only when the second
      draw is not below 0.3, and the lane it avoids is then never produced. */
  lemma DefaultRepeatNeedsHighDraw(prev: int, rs: seq<Draw>)
    requires 0 <= prev < LaneCount && |rs| >= 2
    ensures DefaultNext(prev, rs).lane == prev <==> LaneOf(rs[0]) == prev && rs[1] >= 0.3
  {
  }

  /** Condition under which the stair generator's do-while draws again. */
  predicate StairRedraws(prev: int, continuousCount: int, lane: int, attempts: int) {
    lane == prev && continuousCount >= 2 && attempts < MaxStairAttempts
  }

  /** The do-while loop of generateStairBasedOnPrevious, from its k-th draw on. */
  function StairFrom(prev: int, continuousCount: int, rs: seq<Draw>, k: nat): (g: Gen)
    requires IsPrev(prev) && k < MaxStairAttempts <= |rs|
    ensures IsLane(g.lane) && k < g.used <= MaxStairAttempts
    ensures g.lane == LaneOf(rs[g.used - 1])
    decreases MaxStairAttempts - k
  {
    var lane := LaneOf(rs[k]);
    if StairRedraws(prev, continuousCount, lane, k + 1) then StairFrom(prev, continuousCount, rs, k + 1)
    else Gen(lane, k + 1)
  }

  /** generateStairBasedOnPrevious as a function of the draws. */
  function StairNext(prev: int, continuousCount: int, rs: seq<Draw>): (g: Gen)
    requires IsPrev(prev) && |rs| >= MaxStairAttempts
    ensures IsLane(g.lane) && 1 <= g.used <= MaxStairAttempts
  {
    if prev == -1 then Gen(LaneOf(rs[0]), 1)
    else StairFrom(prev, continuousCount, rs, 0)
  }

  /** What the stair generator's result means: it returns its last draw; every
      earlier draw repeated the previous lane while `continuousCount >= 2`;
      and it stops early only with a draw it may keep. */
  ghost predicate StairOutcome(prev: int, continuousCount: int, rs: seq<Draw>, lane: int, used: nat)
    requires |rs| >= MaxStairAttempts
  {
    && 1 <= used <= MaxStairAttempts
    && lane == LaneOf(rs[used - 1])
    && (prev == -1 ==> used == 1)
    && (prev != -1 ==>
          (forall k :: 0 <= k < used - 1 ==> LaneOf(rs[k]) == prev && continuousCount >= 2)
          && (used < MaxStairAttempts ==> !(lane == prev && continuousCount >= 2)))
  }

  lemma {:induction false} StairFromOutcome(prev: int, continuousCount: int, rs: seq<Draw>, k: nat)
    requires 0 <= prev < LaneCount && k < MaxStairAttempts <= |rs|
    requires forall i :: 0 <= i < k ==> LaneOf(rs[i]) == prev && continuousCount >= 2
    ensures var g := StairFrom(prev, continuousCount, rs, k);
      StairOutcome(prev, continuousCount, rs, g.lane, g.used)
    decreases MaxStairAttempts - k
  {
    var lane := LaneOf(rs[k]);
    if StairRedraws(prev, continuousCount, lane, k + 1) {
      StairFromOutcome(prev, continuousCount, rs, k + 1);
    }
  }

  /** The stair generator always meets its outcome description, and that
      description fixes the result: any lane and draw count meeting it are
      the generator's. */
  lemma StairNextCharacterized(prev: int, continuousCount: int, rs: seq<Draw>, lane: int, used: nat)
    requires IsPrev(prev) && |rs| >= MaxStairAttempts
    ensures StairOutcome(prev, continuousCount, rs, StairNext(prev, continuousCount, rs).lane,
                         StairNext(prev, continuousCount, rs).used)
    ensures StairOutcome(prev, continuousCount, rs, lane, used) ==>
      Gen(lane, used) == StairNext(prev, continuousCount, rs)
  {
    if prev != -1 {
      StairFromOutcome(prev, continuousCount, rs, 0);
      if StairOutcome(prev, continuousCount, rs, lane, used) {
        StairOutcomeUnique(prev, continuousCount, rs, lane, used, 0);
      }
    }
  }

  lemma {:induction false} StairOutcomeUnique(prev: int, continuousCount: int, rs: seq<Draw>, lane: int, used: nat, k: nat)
    requires 0 <= prev < LaneCount && k < MaxStairAttempts <= |rs|
    requires StairOutcome(prev, continuousCount, rs, lane, used) && k < used
    ensures Gen(lane, used) == StairFrom(prev, continuousCount, rs, k)
    decreases MaxStairAttempts - k
  {
    if k < used - 1 {
      StairOutcomeUnique(prev, continuousCount, rs, lane, used, k + 1);
    }
  }

  /** generateStairBasedOnPrevious: the bounded do-while redraw loop. */
  method DrawStair(prev: int, continuousCount: int, rs: seq<Draw>) returns (lane: int, used: nat)
    requires IsPrev(prev) && |rs| >= MaxStairAttempts
    ensures IsLane(lane) && 1 <= used <= MaxStairAttempts
    ensures lane == LaneOf(rs[used - 1])
    ensures prev == -1 ==> used == 1
    ensures prev != -1 ==> forall k :: 0 <= k < used - 1 ==> LaneOf(rs[k]) == prev && continuousCount >= 2
    ensures prev != -1 && used < MaxStairAttempts ==> !(lane == prev && continuousCount >= 2)
    ensures Gen(lane, used) == StairNext(prev, continuousCount, rs)
  {
    if prev == -1 {
      return LaneOf(rs[0]), 1;
    }
    lane := LaneOf(rs[0]);
    used := 1;
    while StairRedraws(prev, continuousCount, lane, used)
      invariant 1 <= used <= MaxStairAttempts
      invariant lane == LaneOf(rs[used - 1])
      invariant forall k :: 0 <= k < used - 1 ==> LaneOf(rs[k]) == prev && continuousCount >= 2
      decreases MaxStairAttempts - used
    {
      lane := LaneOf(rs[used]);
      used := used + 1;
    }
    StairNextCharacterized(prev, continuousCount, rs, lane, used);
  }

  /** The module state of the hold generator: `_holdNoteCount` (notes left in
      the current run) and `_holdPosition` (its lane, -1 between runs). */
  datatype HoldState = HoldState(count: int, pos: int)

  const NoHold := HoldState(0, -1)

  /** Between calls the counter is in 0..3, and a lane is held exactly while
      the counter is positive. */
  predicate ValidHold(h: HoldState) {
    0 <= h.count < LaneCount && (h.count == 0 <==> h.pos == -1) && IsPrev(h.pos)
  }

  datatype Step = Step(lane: int, used: nat, hold: HoldState)

  /** generateHoldBasedOnPrevious: a run of 4 starts at the previous lane (a
      uniform draw only when there is none), each call returns the held lane
      and decrements the counter, and the lane is released when the counter
      reaches 0. */
  function HoldNext(h: HoldState, prev: int, rs: seq<Draw>): (s: Step)
    requires ValidHold(h) && IsPrev(prev) && |rs| >= 1
    ensures ValidHold(s.hold) && IsLane(s.lane) && s.used <= 1
    ensures h.count > 0 ==> s.lane == h.pos && s.used == 0
    ensures h.count == 0 && prev >= 0 ==> s.lane == prev && s.used == 0
    ensures h.count == 0 && prev == -1 ==> s.lane == LaneOf(rs[0]) && s.used == 1
    ensures s.hold.count == (h.count - 1) % 4
    ensures s.hold.count > 0 ==> s.hold.pos == s.lane
  {
    var start := h.count == 0;
    var pos := if !start then h.pos else if prev >= 0 then prev else LaneOf(rs[0]);
    var used := if start && prev < 0 then 1 else 0;
    var count := (if start then 4 else h.count) - 1;
    Step(pos, used, if count == 0 then NoHold else HoldState(count, pos))
  }

  /** generateNextNoteBasedOnPrevious: dispatch on the pattern. Only the hold
      pattern touches the hold state. */
  function Next(p: Pattern, h: HoldState, prev: int, continuousCount: int, rs: seq<Draw>): (s: Step)
    requires ValidHold(h) && IsPrev(prev) && |rs| >= MaxDraws
    ensures IsLane(s.lane) && s.used <= MaxDraws && ValidHold(s.hold)
    ensures p != Hold ==> s.hold == h
  {
    match p
    case Stair =>
      var g := StairNext(prev, continuousCount, rs);
      Step(g.lane, g.used, h)
    case Hold => HoldNext(h, prev, rs)
    case Default =>
      var g := DefaultNext(prev, rs);
      Step(g.lane, g.used, h)
  }

  /** The lanes of a fill, the hold state it leaves and the draws it used. */
  datatype Fill = Fill(lanes: seq<int>, hold: HoldState, used: nat)

  /** The lane row `n` is generated from: the last lane of the first `n`
      rows, or the start lane before any row. */
  function LastLane(lanes: seq<int>, prev: int): int {
    if lanes == [] then prev else lanes[|lanes| - 1]
  }

  /** The loop of refreshGameLayer over n rows: each row's lane is generated
      from the lane of the row before (the start lane for row 0), with
      `continuousCount` one higher per row, and consumes the draws the rows
      before it left. */
  function FillRows(n: nat, p: Pattern, h: HoldState, prev: int, continuousCount: int, rs: seq<Draw>): (f: Fill)
    requires ValidHold(h) && IsPrev(prev) && |rs| >= 10 * n
    ensures |f.lanes| == n && f.used <= 10 * n && ValidHold(f.hold)
    ensures forall i :: 0 <= i < n ==> IsLane(f.lanes[i])
    decreases n, 1
  {
    if n == 0 then Fill([], h, 0) else FillLast(n, p, h, prev, continuousCount, rs)
  }

  /** The fill of n > 0 rows: the first n - 1 rows, then row n - 1 generated
      after them. */
  function FillLast(n: nat, p: Pattern, h: HoldState, prev: int, continuousCount: int, rs: seq<Draw>): (f: Fill)
    requires ValidHold(h) && IsPrev(prev) && |rs| >= 10 * n && n > 0
    ensures |f.lanes| == n && f.used <= 10 * n && ValidHold(f.hold)
    ensures forall i :: 0 <= i < n ==> IsLane(f.lanes[i])
    decreases n, 0
  {
    var f := FillRows(n - 1, p, h, prev, continuousCount, rs);
    var s := Next(p, f.hold, LastLane(f.lanes, prev), continuousCount + n - 1, rs[f.used..]);
    Fill(f.lanes + [s.lane], s.hold, f.used + s.used)
  }

  /** One more row: the fill of n + 1 rows is the fill of n rows with the
      next lane generated after them, at row counter c. */
  lemma FillRowsExtend(n: nat, p: Pattern, h: HoldState, prev: int, continuousCount: int, rs: seq<Draw>, c: int)
    requires ValidHold(h) && IsPrev(prev) && |rs| >= 10 * (n + 1) && c == continuousCount + n
    ensures var f := FillRows(n, p, h, prev, continuousCount, rs);
      var s := Next(p, f.hold, LastLane(f.lanes, prev), c, rs[f.used..]);
      FillRows(n + 1, p, h, prev, continuousCount, rs) == Fill(f.lanes + [s.lane], s.hold, f.used + s.used)
  {
    assert FillRows(n + 1, p, h, prev, continuousCount, rs) == FillLast(n + 1, p, h, prev, continuousCount, rs);
    assert n + 1 - 1 == n && continuousCount + (n + 1) - 1 == c;
  }

  lemma {:induction false} HoldFillSingleLane(n: nat, h: HoldState, prev: int, continuousCount: int, rs: seq<Draw>)
    requires ValidHold(h) && IsPrev(prev) && |rs| >= 10 * n && n > 0
    ensures var f := FillRows(n, Hold, h, prev, continuousCount, rs);
      && f.lanes[0] == (if h.count > 0 then h.pos else if prev >= 0 then prev else LaneOf(rs[0]))
      && (forall i :: 0 <= i < n ==> f.lanes[i] == f.lanes[0])
      && (f.hold.count > 0 ==> f.hold.pos == f.lanes[0])
    decreases n
  {
    if n > 1 {
      HoldFillSingleLane(n - 1, h, prev, continuousCount, rs);
    }
  }

  /** One more row of a run counts the hold counter down by one more,
      modulo 4 (the counter wraps to 3 when a new run starts). */
  lemma CountDownStep(c: int, n: nat)
    requires n > 0
    ensures ((c - (n - 1)) % 4 - 1) % 4 == (c - n) % 4
  {
    var x := c - (n - 1);
    assert x == 4 * (x / 4) + x % 4;
  }

  /** Runs of 4: after n hold rows the counter has gone down by n modulo 4;
      the other patterns leave the hold state alone. */
  lemma {:induction false} FillHoldCounter(n: nat, p: Pattern, h: HoldState, prev: int, continuousCount: int, rs: seq<Draw>)
    requires ValidHold(h) && IsPrev(prev) && |rs| >= 10 * n
    ensures var f := FillRows(n, p, h, prev, continuousCount, rs);
      if p == Hold then f.hold.count == (h.count - n) % 4 else f.hold == h
    decreases n
  {
    if n > 0 {
      FillHoldCounter(n - 1, p, h, prev, continuousCount, rs);
      var g := FillRows(n - 1, p, h, prev, continuousCount, rs);
      var s := Next(p, g.hold, LastLane(g.lanes, prev), continuousCount + n - 1, rs[g.used..]);
      assert FillRows(n, p, h, prev, continuousCount, rs).hold == s.hold;
      if p == Hold {
        assert s.hold.count == (g.hold.count - 1) % 4;
        CountDownStep(h.count, n);
      } else {
        assert s.hold == g.hold;
      }
    }
  }
}
