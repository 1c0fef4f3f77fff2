/** Scroll decisions of the two-layer board: how far one row advance moves the
    layers, where a layer that has scrolled out is put back, and the monitor's
    band check with its one-step correction. Positions are real pixels; a
    note's `relativeTop` is measured from the top of the game area. */
module Scroll {
  import opened Judging

  /** gameLayerMoveNextRow's decision. `Skip`: it returns without moving.
      `Threw`: the branch for a note far above the target calls an undefined
      `min` and throws before any layer moves. `Move(d)`: every layer moves
      down by d. */
  datatype MoveDecision = Skip | Threw | Move(distance: real)

  /** The row a hit note should sit on: two blocks above the bottom. */
  function MoveTarget(g: Geometry): real { g.innerHeight - g.blockSize * 2.0 }

  function MoveDistance(index: int, hasNote: bool, relativeTop: real, g: Geometry): (m: MoveDecision)
    requires ValidGeometry(g)
    ensures m == Skip <==> index <= 1 || !hasNote
    ensures m == Threw <==> index > 1 && hasNote && relativeTop < MoveTarget(g) - g.blockSize * 2.0
    ensures m.Move? ==> m.distance == (if relativeTop > MoveTarget(g) then g.blockSize * 0.5 else g.blockSize)
    ensures m.Move? ==> 0.0 < m.distance <= g.blockSize
  {
    if index <= 1 || !hasNote then Skip
    else if relativeTop < MoveTarget(g) - g.blockSize * 2.0 then Threw
    else if relativeTop > MoveTarget(g) then Move(g.blockSize * 0.5)
    else Move(g.blockSize)
  }

  /** A layer that has scrolled more than its own height past its origin. */
  predicate ScrolledOut(y: real, g: Geometry) {
    y > g.blockSize * 10.0
  }

  /** Where refreshGameLayer(box, 1, -1) puts a recycled layer: nine rows
      above the origin. */
  function RecycledY(g: Geometry): real {
    -g.blockSize * (10.0 - 1.0)
  }

  /** Where refreshGameLayer puts a layer: at the origin without `loop`,
      otherwise `-blockSize * (rows + offset) * loop`. */
  function FillY(loop: int, offset: int, g: Geometry): (y: real)
    ensures loop == 0 ==> y == 0.0
    ensures loop == 1 && offset == 0 ==> y == -g.blockSize * 10.0
    ensures loop == 1 && offset == -1 ==> y == RecycledY(g)
  {
    if loop != 0 then -g.blockSize * (10 + offset) as real * loop as real else 0.0
  }

  /** A layer's position after one advance of d. */
  function Advanced(y: real, d: real, g: Geometry): (a: real)
    ensures a == y + d || a == RecycledY(g)
    ensures ValidGeometry(g) ==> (ScrolledOut(y + d, g) <==> a != y + d)
    ensures ValidGeometry(g) ==> !ScrolledOut(a, g)
  {
    if ScrolledOut(y + d, g) then RecycledY(g) else y + d
  }

  /** Advancing keeps a layer within one layer height of the origin (when it
      started there), and two layers that do not recycle keep their distance. */
  lemma AdvanceBounds(y1: real, y2: real, d: real, g: Geometry)
    requires ValidGeometry(g) && 0.0 < d <= g.blockSize
    requires -g.blockSize * 10.0 <= y1 <= g.blockSize * 10.0
    ensures -g.blockSize * 10.0 <= Advanced(y1, d, g) <= g.blockSize * 10.0
    ensures !ScrolledOut(y1 + d, g) && !ScrolledOut(y2 + d, g) ==>
      Advanced(y2, d, g) - Advanced(y1, d, g) == y2 - y1
    ensures ScrolledOut(y1 + d, g) ==> Advanced(y1, d, g) < y1
  {
  }

  /** The monitor's band: between four and two blocks above the bottom. */
  predicate InIdealBand(relativeTop: real, g: Geometry) {
    g.innerHeight - g.blockSize * 4.0 <= relativeTop <= g.innerHeight - g.blockSize * 2.0
  }

  /** smoothAdjustGameLayer's correction toward two and a half blocks above
      the bottom. */
  function AdjustDistance(relativeTop: real, g: Geometry): real {
    (g.innerHeight - g.blockSize * 2.5) - relativeTop
  }

  /** One correction brings the expected note into the band, so the next
      monitor tick (nothing else having moved) leaves the layers alone; a note
      already in the band moves by at most a block and a half. */
  lemma AdjustSettles(relativeTop: real, g: Geometry)
    requires ValidGeometry(g)
    ensures InIdealBand(relativeTop + AdjustDistance(relativeTop, g), g)
    ensures InIdealBand(relativeTop, g) ==>
      -0.5 * g.blockSize <= AdjustDistance(relativeTop, g) <= 1.5 * g.blockSize
  {
  }
}
