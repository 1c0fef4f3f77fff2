/** Hit judging: the vertical touch band, the four horizontal lane bands and
    the verdict of one tap against the expected note; and the synthetic tap
    the keyboard path builds for key `i` (1..4). Pixel values are reals. */
module Judging {
  import opened Lanes
  import opened Layout
  import opened Wrappers

  /** Block size (a quarter of the board's width) and window height. */
  datatype Geometry = Geometry(blockSize: real, innerHeight: real)

  predicate ValidGeometry(g: Geometry) { g.blockSize > 0.0 }

  /** `touchArea[0]`: the bottom of the touch band. */
  function TouchBottom(g: Geometry): real { g.innerHeight }

  /** `touchArea[1]`: the top of the touch band, three blocks up. */
  function TouchTop(g: Geometry): real { g.innerHeight - g.blockSize * 3.0 }

  /** A tap counts only inside `[touchArea[1], touchArea[0]]`. */
  predicate InTouchBand(y: real, g: Geometry) {
    !(y > TouchBottom(g) || y < TouchTop(g))
  }

  /** The horizontal band of a lane, open at the inner borders. */
  predicate InLane(cell: int, x: real, blockSize: real) {
    || (cell == 0 && x < blockSize)
    || (cell == 1 && x > blockSize && x < 2.0 * blockSize)
    || (cell == 2 && x > 2.0 * blockSize && x < 3.0 * blockSize)
    || (cell == 3 && x > 3.0 * blockSize)
  }

  /** A hit: the tapped element is the expected note's and is occupied, or the
      tap lies inside the expected note's lane band. */
  predicate IsHit(expected: Note, x: real, target: Option<SlotId>, occupied: bool, blockSize: real) {
    (target == Some(expected.id) && occupied) || InLane(expected.cell, x, blockSize)
  }

  /** Ignored: no state change. Fault: the source throws before changing any
      state (there is no expected note). */
  datatype Verdict = Ignored | Fault | Hit | Miss

  /** gameTapEvent's decision. `occupied` is the tapped element's `notEmpty`
      (false when the tap hits no block). */
  function Judge(over: bool, started: bool, expected: Option<Note>, x: real, y: real,
                 target: Option<SlotId>, occupied: bool, g: Geometry): (v: Verdict)
    ensures v == Hit ==> !over && InTouchBand(y, g) && expected.Some?
    ensures v == Miss ==> !over && InTouchBand(y, g) && started && !occupied
    ensures expected.Some? && !over && InTouchBand(y, g) ==>
      (v == Hit <==> IsHit(expected.value, x, target, occupied, g.blockSize))
    ensures v == Fault <==> !over && InTouchBand(y, g) && expected.None?
    ensures expected.Some? && !over && InTouchBand(y, g) && !IsHit(expected.value, x, target, occupied, g.blockSize) ==>
      (v == Miss <==> started && !occupied)
  {
    if over then Ignored
    else if !InTouchBand(y, g) then Ignored
    else if expected.None? then Fault
    else if IsHit(expected.value, x, target, occupied, g.blockSize) then Hit
    else if started && !occupied then Miss
    else Ignored
  }

  /** The lane bands do not overlap, and the three inner borders belong to no
      lane. */
  lemma LaneBandsDisjoint(c1: int, c2: int, x: real, blockSize: real)
    requires blockSize > 0.0
    ensures InLane(c1, x, blockSize) && InLane(c2, x, blockSize) ==> c1 == c2
    ensures x == blockSize || x == 2.0 * blockSize || x == 3.0 * blockSize ==> !InLane(c1, x, blockSize)
  {
  }

  /** The x the keyboard path puts at the centre of lane i-1. */
  function KeyX(i: int, blockSize: real): (x: real)
    ensures x == (i as real - 0.5) * blockSize
  {
    ((i - 1) as real * blockSize + i as real * blockSize) / 2.0
  }

  /** The y the keyboard path puts at the middle of the touch band. */
  function KeyY(g: Geometry): (y: real)
    ensures ValidGeometry(g) ==> TouchTop(g) < y < TouchBottom(g)
  {
    (TouchBottom(g) + TouchTop(g)) / 2.0
  }

  /** The element key i targets: the slot of the expected note's row in lane
      i-1 (`num = row * 4 + i - 1`), in the expected note's layer. */
  function KeyTarget(expected: Note, i: int): (t: SlotId)
    ensures WellFormed(expected) && 1 <= i <= LaneCount ==>
      ValidSlot(t) && t.layer == expected.id.layer && t.slot / 4 == expected.id.slot / 4 && t.slot % 4 == i - 1
  {
    SlotId(expected.id.layer, expected.id.slot - expected.cell + i - 1)
  }

  /** The keyboard's synthetic tap always lies in the touch band, targets a
      slot of the expected note's row, and is a hit exactly when key i names
      the expected note's lane. */
  lemma KeyTapHitsExactlyItsLane(expected: Note, i: int, occupied: bool, g: Geometry)
    requires ValidGeometry(g) && WellFormed(expected) && 1 <= i <= LaneCount
    ensures InTouchBand(KeyY(g), g)
    ensures ValidSlot(KeyTarget(expected, i))
    ensures KeyTarget(expected, i).slot / 4 == expected.id.slot / 4
    ensures KeyTarget(expected, i).slot % 4 == i - 1
    ensures IsHit(expected, KeyX(i, g.blockSize), Some(KeyTarget(expected, i)), occupied, g.blockSize)
        <==> i - 1 == expected.cell
  {
    var b := g.blockSize;
    var x := KeyX(i, b);
    var row := expected.id.slot / 4;
    assert expected.id.slot == row * 4 + expected.cell;
    assert KeyTarget(expected, i).slot == row * 4 + (i - 1);
    assert x == (i as real - 0.5) * b;
    if i == 1 { assert x == 0.5 * b; }
    else if i == 2 { assert x == 1.5 * b; }
    else if i == 3 { assert x == 2.5 * b; }
    else { assert i == 4; assert x == 3.5 * b; }
    LaneBandsDisjoint(i - 1, expected.cell, x, b);
  }
}
