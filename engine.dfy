/** The game engine: the module-level state of the page script held by one
    `Game` object (mode, cursor, score, misses, flags, timers), the
    expected-note list with its rendering counters, the hold generator's
    state, and the two scrolling layers of 40 slots each.

    What the engine reads from the page is passed in: the `relativeTop` of the
    expected note, the tap's coordinates and element, the current time in
    milliseconds, and, for each layer fill, the DOM search's start column and
    the values `Math.random()` returns. Each timer tick is an explicit call. */
module Engine {
  import opened Lanes
  import opened Layout
  import opened Wrappers
  import opened Judging
  import opened Scroll
  import opened Scoring

  /** What one layer fill takes from the page: the lane of the first visible
      expected note the DOM search found (if any), the draw used when it found
      none and no lane was generated yet, and the draws of the generators. */
  datatype FillInput = FillInput(visible: Option<int>, fallback: Draw, draws: seq<Draw>)

  /** A fill of 10 rows consumes at most this many generator draws. */
  const FillDraws := 100

  predicate ValidInput(e: FillInput) {
    && (e.visible.Some? ==> IsLane(e.visible.value))
    && |e.draws| >= FillDraws
  }

  /** getLastVisibleNotePosition's column: the visible note's lane, else the
      last generated lane, else a uniform draw. Never -1. */
  function StartColumn(visible: Option<int>, lastColumn: int, fallback: Draw): (c: int)
    requires (visible.Some? ==> IsLane(visible.value)) && IsPrev(lastColumn)
    ensures IsLane(c)
    ensures visible.Some? ==> c == visible.value
    ensures visible.None? && lastColumn >= 0 ==> c == lastColumn
    ensures visible.None? && lastColumn == -1 ==> c == LaneOf(fallback)
  {
    match visible
    case Some(c) => c
    case None => if lastColumn >= 0 then lastColumn else LaneOf(fallback)
  }

  /** The fill refreshGameLayer produces for one layer of 10 rows, given the
      hold state, the expected-note list (its length is the row counter) and
      the last generated lane. The DOM search can only find a visible note
      when the list has entries; otherwise the start column is the last
      generated lane, or a draw. */
  function LayerFill(p: Pattern, h: HoldState, notes: seq<Note>, lastColumn: int, e: FillInput): (f: Fill)
    requires ValidHold(h) && IsPrev(lastColumn) && ValidInput(e)
    ensures |f.lanes| == RowCount && ValidHold(f.hold)
    ensures forall r :: 0 <= r < RowCount ==> IsLane(f.lanes[r])
  {
    FillRows(RowCount, p, h, StartColumn(if notes == [] then None else e.visible, lastColumn, e.fallback),
             |notes|, e.draws)
  }

  /** gameRestart's first fill: layer 1 from an empty list and a fresh
      generator, starting at the drawn column. */
  function FirstFill(p: Pattern, e1: FillInput): Fill
    requires ValidInput(e1)
  {
    FillRows(RowCount, p, NoHold, LaneOf(e1.fallback), 0, e1.draws)
  }

  /** gameRestart's second fill: layer 2 continues from the first fill's
      generator state and last lane (or the visible note the DOM search
      found), at row counter 10. */
  function SecondFill(p: Pattern, e1: FillInput, e2: FillInput): Fill
    requires ValidInput(e1) && ValidInput(e2)
  {
    var f1 := FirstFill(p, e1);
    FillRows(RowCount, p, f1.hold, StartColumn(e2.visible, f1.lanes[RowCount - 1], e2.fallback), RowCount, e2.draws)
  }

  /** After gameRestart's first fill a Hold run of 4 is two rows from its
      end, on the column the fill started from, and every row holds that
      column; the other patterns leave the generator alone. */
  lemma FirstFillHold(p: Pattern, e1: FillInput)
    requires ValidInput(e1)
    ensures var f1 := FirstFill(p, e1);
      && (p != Hold ==> f1.hold == NoHold)
      && (p == Hold ==> f1.hold == HoldState(2, LaneOf(e1.fallback)))
      && (p == Hold ==> forall r :: 0 <= r < RowCount ==> f1.lanes[r] == LaneOf(e1.fallback))
  {
    FillHoldCounter(RowCount, p, NoHold, LaneOf(e1.fallback), 0, e1.draws);
    if p == Hold {
      HoldFillSingleLane(RowCount, NoHold, LaneOf(e1.fallback), 0, e1.draws);
    }
  }

  /** A fill that continues a Hold run two rows from its end closes it after
      those two rows and then starts one run after another on the same
      column: 10 rows later the run is over and every row held that column.
      The other patterns leave the generator as they found it. */
  lemma ContinuedFillHold(p: Pattern, h: HoldState, c: int, rs: seq<Draw>)
    requires ValidHold(h) && IsLane(c) && |rs| >= FillDraws
    requires p != Hold ==> h == NoHold
    requires p == Hold ==> h.count == 2
    ensures var f := FillRows(RowCount, p, h, c, RowCount, rs);
      && f.hold == NoHold
      && (p == Hold ==> forall r :: 0 <= r < RowCount ==> f.lanes[r] == h.pos)
  {
    FillHoldCounter(RowCount, p, h, c, RowCount, rs);
    if p == Hold {
      HoldFillSingleLane(RowCount, h, c, RowCount, rs);
    }
  }

  /** A restart leaves no hold run open, whatever the pattern: 20 rows are
      whole runs of 4. In Hold mode both layers hold a single lane, the
      column layer 1 starts from, since each run starts at the lane fed back
      from the one before. */
  lemma RestartFillsHold(p: Pattern, e1: FillInput, e2: FillInput)
    requires ValidInput(e1) && ValidInput(e2)
    ensures SecondFill(p, e1, e2).hold == NoHold
    ensures p == Hold ==>
      && (forall r :: 0 <= r < RowCount ==> FirstFill(p, e1).lanes[r] == LaneOf(e1.fallback))
      && (forall r :: 0 <= r < RowCount ==> SecondFill(p, e1, e2).lanes[r] == LaneOf(e1.fallback))
  {
    var f1 := FirstFill(p, e1);
    FirstFillHold(p, e1);
    var c := StartColumn(e2.visible, f1.lanes[RowCount - 1], e2.fallback);
    ContinuedFillHold(p, f1.hold, c, e2.draws);
  }

  /** What one advance of the layers reads and writes: the hold state, the
      expected-note list and its last lane, and each layer's lanes and
      position. */
  datatype Board = Board(hold: HoldState, notes: seq<Note>, lastColumn: int,
                         lanes1: seq<int>, lanes2: seq<int>, y1: real, y2: real)

  /** One layer's step of gameLayerMoveNextRow: layer `num` moves down by d;
      once past its own height it is refilled from the board's hold state,
      list and last lane, its 10 entries appended, and put back nine rows
      above the origin. The other layer is untouched. */
  function LayerStep(p: Pattern, b: Board, num: int, d: real, e: FillInput, g: Geometry): (b': Board)
    requires ValidHold(b.hold) && IsPrev(b.lastColumn) && ValidInput(e) && (num == 1 || num == 2)
    ensures ValidHold(b'.hold) && IsPrev(b'.lastColumn)
    ensures (if num == 1 then b'.y1 else b'.y2) == Advanced(if num == 1 then b.y1 else b.y2, d, g)
    ensures num == 1 ==> b'.lanes2 == b.lanes2 && b'.y2 == b.y2
    ensures num == 2 ==> b'.lanes1 == b.lanes1 && b'.y1 == b.y1
    ensures var y := if num == 1 then b.y1 else b.y2;
      !ScrolledOut(y + d, g) ==> b'.(y1 := b.y1, y2 := b.y2) == b
    ensures var y := if num == 1 then b.y1 else b.y2;
      ScrolledOut(y + d, g) ==>
        && |b'.notes| == |b.notes| + RowCount && b'.notes[..|b.notes|] == b.notes
        && b'.lastColumn == b'.notes[|b'.notes| - 1].cell
  {
    var y := if num == 1 then b.y1 else b.y2;
    if !ScrolledOut(y + d, g) then
      if num == 1 then b.(y1 := y + d) else b.(y2 := y + d)
    else
      var f := LayerFill(p, b.hold, b.notes, b.lastColumn, e);
      var b1 := b.(hold := f.hold, notes := b.notes + LayerNotes(num, f.lanes), lastColumn := f.lanes[RowCount - 1]);
      if num == 1 then b1.(lanes1 := f.lanes, y1 := RecycledY(g))
      else b1.(lanes2 := f.lanes, y2 := RecycledY(g))
  }

  /** The whole of gameLayerMoveNextRow's loop: layer 1's step, then layer 2's. */
  function ScrollAll(p: Pattern, b: Board, d: real, e1: FillInput, e2: FillInput, g: Geometry): Board
    requires ValidHold(b.hold) && IsPrev(b.lastColumn) && ValidInput(e1) && ValidInput(e2)
  {
    LayerStep(p, LayerStep(p, b, 1, d, e1, g), 2, d, e2, g)
  }

  /** One advance moves both layers by the same distance, keeps the lanes of
      a layer that does not recycle, and only appends to the list: 10 entries
      per recycled layer. With no recycling the generator state and the list
      are untouched. */
  lemma ScrollAllEffect(p: Pattern, b: Board, d: real, e1: FillInput, e2: FillInput, g: Geometry)
    requires ValidHold(b.hold) && IsPrev(b.lastColumn) && ValidInput(e1) && ValidInput(e2)
    ensures var b' := ScrollAll(p, b, d, e1, e2, g);
      var r1 := ScrolledOut(b.y1 + d, g);
      var r2 := ScrolledOut(b.y2 + d, g);
      && b'.y1 == Advanced(b.y1, d, g) && b'.y2 == Advanced(b.y2, d, g)
      && (!r1 ==> b'.lanes1 == b.lanes1) && (!r2 ==> b'.lanes2 == b.lanes2)
      && (!r1 && !r2 ==> b'.hold == b.hold && b'.notes == b.notes)
      && |b'.notes| == |b.notes| + RowCount * ((if r1 then 1 else 0) + (if r2 then 1 else 0))
      && b'.notes[..|b.notes|] == b.notes
  {
    var b1 := LayerStep(p, b, 1, d, e1, g);
    var b2 := LayerStep(p, b1, 2, d, e2, g);
    assert b1.notes[..|b.notes|] == b.notes;
    assert b2.notes[..|b1.notes|] == b1.notes;
    assert b2.notes[..|b.notes|] == b1.notes[..|b.notes|];
  }

  /** One of the two layers `GameLayer1`, `GameLayer2`. */
  class Layer {
    /** N in the element ids `GameLayerN-k`. */
    const num: int
    /** `notEmpty` of each slot; slot `row * 4 + lane`, row 0 at the bottom. */
    const cells: array<bool>
    /** The vertical translation in pixels. */
    var y: real
    /** The lane of each row's note, as last filled. */
    ghost var lanes: seq<int>

    /** Exactly one occupied slot per row, in the row's lane. */
    ghost predicate Valid()
      reads this`lanes, cells
    {
      && cells.Length == SlotCount
      && |lanes| == RowCount
      && (forall r :: 0 <= r < RowCount ==> IsLane(lanes[r]))
      && forall j :: 0 <= j < SlotCount ==> cells[j] == (j % 4 == lanes[j / 4])
    }

    /** The rows of the layer: a quarter of its slots. */
    function Rows(): (n: nat)
      ensures cells.Length == SlotCount ==> n == RowCount
    {
      cells.Length / 4
    }

    /** Every slot's `notEmpty` cleared. */
    method Clear()
      modifies cells
      ensures forall j :: 0 <= j < cells.Length ==> !cells[j]
    {
      forall j | 0 <= j < cells.Length {
        cells[j] := false;
      }
    }

    constructor (n: int)
      ensures num == n && fresh(cells) && cells.Length == SlotCount && y == 0.0
      ensures forall j :: 0 <= j < cells.Length ==> !cells[j]
    {
      num := n;
      cells := new bool[SlotCount](_ => false);
      y := 0.0;
      lanes := [];
    }
  }

  /** The hold generator's state, `_holdNoteCount` (notes left in the
      current run) and `_holdPosition` (its lane, -1 between runs). */
  class HoldGen {
    var count: int
    var pos: int

    function State(): HoldState
      reads this
    {
      HoldState(count, pos)
    }

    constructor ()
      ensures State() == NoHold
    {
      count, pos := 0, -1;
    }

    /** Back to no run in progress. */
    method Clear()
      modifies this
      ensures State() == NoHold
    {
      count, pos := 0, -1;
    }

    /** generateHoldBasedOnPrevious: a new run of four starts in the previous
        lane (a drawn one when there is none); every call emits the run's lane
        and counts it down. */
    method Generate(prev: int, rs: seq<Draw>) returns (lane: int, used: nat)
      requires ValidHold(State()) && IsPrev(prev) && |rs| >= 1
      modifies this
      ensures Step(lane, used, State()) == HoldNext(old(State()), prev, rs)
    {
      used := 0;
      if count == 0 {
        if prev >= 0 {
          pos := prev;
        } else {
          pos := LaneOf(rs[0]);
          used := 1;
        }
        count := 4;
      }
      lane := pos;
      count := count - 1;
      if count == 0 {
        pos := -1;
      }
    }
  }

  /** `_gameBBList`, the expected notes in play order, with the rendering
      state kept beside it: `_renderingContext.continuousCount` (rows
      generated so far) and `_globalLastNotePosition` (the last generated
      lane, -1 before any). */
  class NoteList {
    var notes: seq<Note>
    var continuousCount: int
    var lastColumn: int

    /** Well formed, one entry per generated row, the last entry in the last
        generated lane. */
    ghost predicate Valid()
      reads this
    {
      && (forall i :: 0 <= i < |notes| ==> WellFormed(notes[i]))
      && continuousCount == |notes|
      && lastColumn == (if notes == [] then -1 else notes[|notes| - 1].cell)
    }

    constructor ()
      ensures Valid() && notes == []
    {
      notes, continuousCount, lastColumn := [], 0, -1;
    }

    /** Emptied, with the rendering state back to its start. */
    method Clear()
      modifies this
      ensures Valid() && notes == []
    {
      notes, continuousCount, lastColumn := [], 0, -1;
    }
  }

  class Game {
    var mode: Mode
    /** `currentNotePattern`. */
    const pattern: Pattern
    /** `_gameSettingNum`: the time budget in seconds. */
    var setting: int
    /** `blockSize` and `window.innerHeight`. */
    const geo: Geometry
    const layer1: Layer
    const layer2: Layer
    var welcomeClosed: bool
    const list: NoteList
    /** `_gameBBListIndex`: the next note to hit. */
    var index: int
    var score: int
    var bad: int
    var over: bool
    var started: bool
    /** `_gameTimeNum`: seconds left. */
    var timeNum: int
    /** `_gameStartTime`: timer ticks since the first hit. */
    var ticks: int
    /** `_gameStartDatetime`: the time of the first hit, in milliseconds. */
    var startMs: int
    /** `_lastComboMilestone`. */
    var lastMilestone: int
    const hold: HoldGen
    /** Whether the 1-second tick, the 30 ms progress redraw and the 100 ms
        position monitor intervals are registered. */
    var tickTimer: bool
    var progressTimer: bool
    var monitorTimer: bool

    /** The fixed structure: two distinct layers of 40 slots numbered 1 and 2. */
    ghost predicate Shape() {
      && layer1 != layer2 && layer1.cells != layer2.cells
      && layer1.num == 1 && layer2.num == 2
      && layer1.cells.Length == SlotCount && layer2.cells.Length == SlotCount
      && ValidGeometry(geo)
    }

    function Held(): HoldState
      reads hold
    {
      hold.State()
    }

    /** The cursor, score, misses, milestone and the flags and timers that go
        together. */
    ghost predicate CountersValid()
      reads this
    {
      && 0 <= index && score == index
      && bad >= 0
      && lastMilestone == MilestoneReached(score)
      && (over ==> started)
      && tickTimer == (started && !over)
      && monitorTimer == tickTimer
      && (progressTimer ==> tickTimer)
    }

    /** The invariant of everything but the layers; the cursor stays within
        the expected-note list. */
    ghost predicate ValidState()
      reads this, list, hold
    {
      Shape() && list.Valid() && index <= |list.notes| && ValidHold(Held()) && CountersValid()
    }

    ghost predicate Valid()
      reads this, list, hold, layer1`lanes, layer2`lanes, layer1.cells, layer2.cells
    {
      ValidState() && layer1.Valid() && layer2.Valid()
    }

    /** The state gameRestart leaves: everything reset, both layers freshly
        filled from e1 and e2 (the slots marked to match, by `Valid`), the
        generator state the second fill left, the expected-note list exactly
        their entries, layer 1 at the origin and layer 2 one layer height
        above it. */
    ghost predicate Restarted(e1: FillInput, e2: FillInput)
      requires ValidInput(e1) && ValidInput(e2)
      reads this, list, hold, layer1, layer2, layer1.cells, layer2.cells
    {
      && Valid()
      && index == 0 && score == 0 && bad == 0 && !over && !started
      && timeNum == setting && ticks == 0 && lastMilestone == 0
      && !tickTimer && !progressTimer && !monitorTimer
      && Refilled(e1, e2)
      && list.notes == LayerNotes(1, layer1.lanes) + LayerNotes(2, layer2.lanes)
      && layer1.y == 0.0 && layer2.y == -geo.blockSize * 10.0
    }

    /** Both layers hold gameRestart's two fills of e1 and e2, and the
        generator is left in the state the second fill ended in. */
    ghost predicate Refilled(e1: FillInput, e2: FillInput)
      requires ValidInput(e1) && ValidInput(e2)
      reads this, hold, layer1`lanes, layer2`lanes
    {
      && layer1.lanes == FirstFill(pattern, e1).lanes && layer2.lanes == SecondFill(pattern, e1, e2).lanes
      && Held() == SecondFill(pattern, e1, e2).hold
    }

    function LayerAt(i: int): Layer
      reads this
      requires 0 <= i < 2
    {
      if i == 0 then layer1 else layer2
    }

    /** `_gameBBList[_gameBBListIndex]`, absent past the end of the list. */
    function Expected(): Option<Note>
      reads this, list
    {
      if 0 <= index < |list.notes| then Some(list.notes[index]) else None
    }

    /** The tapped element's `notEmpty`; false when no block was tapped. */
    function Occupied(target: Option<SlotId>): bool
      reads this, layer1.cells, layer2.cells
      requires Shape() && (target.Some? ==> ValidSlot(target.value))
    {
      match target
      case None => false
      case Some(s) => if s.layer == 1 then layer1.cells[s.slot] else layer2.cells[s.slot]
    }

    /** init with gameInit: the welcome layer is shown and the game is reset,
        both layers filled from e1 and e2. */
    constructor (mode: Mode, pattern: Pattern, setting: int, geo: Geometry, e1: FillInput, e2: FillInput)
      requires ValidGeometry(geo) && ValidInput(e1) && ValidInput(e2)
      ensures this.mode == mode && this.pattern == pattern && this.setting == setting && this.geo == geo
      ensures fresh(layer1) && fresh(layer2) && fresh(layer1.cells) && fresh(layer2.cells)
      ensures fresh(list) && fresh(hold)
      ensures !welcomeClosed && !started && !over && index == 0 && score == 0 && timeNum == setting
      ensures Restarted(e1, e2)
    {
      this.mode := mode;
      this.pattern := pattern;
      this.setting := setting;
      this.geo := geo;
      layer1 := new Layer(1);
      layer2 := new Layer(2);
      list := new NoteList();
      hold := new HoldGen();
      welcomeClosed := false;
      new;
      Restart(e1, e2);
    }

    /** generateNextNoteBasedOnPrevious: dispatch on the note pattern. */
    method GenerateNext(prev: int, continuousCount: int, rs: seq<Draw>) returns (lane: int, used: nat)
      requires ValidHold(Held()) && IsPrev(prev) && |rs| >= MaxDraws
      modifies hold
      ensures Step(lane, used, Held()) == Next(pattern, old(Held()), prev, continuousCount, rs)
    {
      match pattern
      case Stair =>
        lane, used := DrawStair(prev, continuousCount, rs);
      case Hold =>
        lane, used := hold.Generate(prev, rs);
      case Default =>
        var g := DefaultNext(prev, rs);
        lane, used := g.lane, g.used;
    }

    /** The first half of refreshGameLayer: one lane per row, each generated
        from the previous one with the row counter running on, and the
        positions `row * 4 + lane` it keeps for the marking pass. The lanes
        and the generator state are the ones FillRows specifies. */
    method GenerateRows(rows: nat, start: int, count0: int, draws: seq<Draw>)
      returns (lanes: seq<int>, positions: seq<int>, ghost used: nat)
      requires ValidHold(Held()) && IsLane(start) && |draws| >= 10 * rows
      modifies hold
      ensures Fill(lanes, Held(), used) == FillRows(rows, pattern, old(Held()), start, count0, draws)
      ensures |positions| == rows
      ensures forall r :: 0 <= r < rows ==> positions[r] == r * 4 + lanes[r]
    {
      ghost var h0 := Held();
      var column := start;
      var count := count0;
      positions := [];
      lanes := [];
      var k := 0;
      var row := 0;
      while row < rows
        invariant 0 <= row <= rows && |positions| == row && |lanes| == row
        invariant forall r :: 0 <= r < row ==> positions[r] == r * 4 + lanes[r]
        invariant column == LastLane(lanes, start)
        invariant count == count0 + row && 0 <= k <= 10 * row
        invariant Fill(lanes, Held(), k) == FillRows(row, pattern, h0, start, count0, draws)
      {
        FillRowsExtend(row, pattern, h0, start, count0, draws, count);
        var lane, n := GenerateNext(column, count, draws[k..]);
        positions := positions + [row * 4 + lane];
        lanes := lanes + [lane];
        column := lane;
        count := count + 1;
        k := k + n;
        row := row + 1;
      }
      used := k;
    }

    /** The second half of refreshGameLayer: the slots in slot order, each
        marked occupied exactly when it is its row's kept position, with an
        entry pushed for each occupied one. */
    method MarkSlots(box: Layer, lanes: seq<int>, positions: seq<int>)
      requires box.cells.Length == SlotCount && |lanes| == RowCount && |positions| == RowCount
      requires forall r :: 0 <= r < RowCount ==> IsLane(lanes[r]) && positions[r] == r * 4 + lanes[r]
      modifies list`notes, box.cells
      ensures list.notes == old(list.notes) + LayerNotes(box.num, lanes)
      ensures forall j :: 0 <= j < SlotCount ==> box.cells[j] == (j % 4 == lanes[j / 4])
    {
      var j := 0;
      while j < SlotCount
        invariant 0 <= j <= SlotCount
        invariant list.notes == old(list.notes) + NotesBefore(box.num, lanes, j)
        invariant forall i :: 0 <= i < j ==> box.cells[i] == (i % 4 == lanes[i / 4])
      {
        var rowIndex := j / 4;
        if j == positions[rowIndex] {
          list.notes := list.notes + [Note(j % 4, SlotId(box.num, j))];
          box.cells[j] := true;
        } else {
          box.cells[j] := false;
        }
        j := j + 1;
      }
      NotesBeforeRows(box.num, lanes, RowCount);
      assert lanes[..RowCount] == lanes;
    }

    /** The end of refreshGameLayer once the lanes are generated: the slots
        marked, the entries pushed, the layer placed, and the row counter and
        the last generated lane stored. */
    method Install(box: Layer, lanes: seq<int>, positions: seq<int>, loop: int, offset: int)
      requires list.Valid() && box.cells.Length == SlotCount && (box.num == 1 || box.num == 2)
      requires |lanes| == RowCount && |positions| == RowCount
      requires forall r :: 0 <= r < RowCount ==> IsLane(lanes[r]) && positions[r] == r * 4 + lanes[r]
      modifies list, box, box.cells
      ensures list.Valid() && box.Valid() && box.lanes == lanes
      ensures list.notes == old(list.notes) + LayerNotes(box.num, lanes)
      ensures list.lastColumn == lanes[RowCount - 1]
      ensures box.y == FillY(loop, offset, geo)
    {
      MarkSlots(box, lanes, positions);
      LayerNotesWellFormed(box.num, lanes);
      box.lanes := lanes;
      if loop != 0 {
        box.y := -geo.blockSize * (10 + offset) as real * loop as real;
      } else {
        box.y := 0.0;
      }
      list.continuousCount := list.continuousCount + RowCount;
      list.lastColumn := lanes[RowCount - 1];
      assert list.notes[|list.notes| - 1] == LayerNotes(box.num, lanes)[RowCount - 1];
    }

    /** refreshGameLayer: one generated lane per row, the layer's slots marked
        in slot order, one entry per row appended to the expected-note list,
        and the layer placed. `f` is the fill the generators produced. */
    method Refresh(box: Layer, loop: int, offset: int, e: FillInput) returns (ghost f: Fill)
      requires list.Valid() && ValidHold(Held()) && ValidInput(e)
      requires box.cells.Length == SlotCount && (box.num == 1 || box.num == 2)
      modifies list, hold, box, box.cells
      ensures list.Valid() && ValidHold(Held()) && box.Valid()
      ensures f == LayerFill(pattern, old(Held()), old(list.notes), old(list.lastColumn), e)
      ensures box.lanes == f.lanes && Held() == f.hold && list.lastColumn == f.lanes[RowCount - 1]
      ensures list.notes == old(list.notes) + LayerNotes(box.num, f.lanes)
      ensures box.y == FillY(loop, offset, geo)
    {
      var visible := if list.notes == [] then None else e.visible;
      var start := StartColumn(visible, list.lastColumn, e.fallback);
      var lanes, positions, used := GenerateRows(box.Rows(), start, list.continuousCount, e.draws);
      f := Fill(lanes, Held(), used);
      Install(box, lanes, positions, loop, offset);
    }

    /** The resetting half of gameRestart: timers cleared, and counters,
        flags, list and generator state back to their start values. */
    method Reset()
      requires Shape()
      modifies list, hold, this`index, this`score, this`bad, this`over, this`started, this`timeNum, this`ticks,
               this`lastMilestone, this`tickTimer, this`progressTimer, this`monitorTimer
      ensures ValidState() && list.notes == [] && Held() == NoHold
      ensures index == 0 && score == 0 && bad == 0 && !over && !started
      ensures timeNum == setting && ticks == 0 && lastMilestone == 0
      ensures !tickTimer && !progressTimer && !monitorTimer
    {
      list.Clear();
      hold.Clear();
      tickTimer, progressTimer, monitorTimer := false, false, false;
      index, score, bad := 0, 0, 0;
      over, started := false, false;
      timeNum := setting;
      ticks := 0;
      lastMilestone := 0;
    }

    /** The filling half of gameRestart: the first layer filled at the
        origin from an empty list and a fresh generator, then the second one
        layer height above it, continuing from where the first left off. */
    method FillLayers(e1: FillInput, e2: FillInput) returns (ghost f1: Fill, ghost f2: Fill)
      requires Shape() && list.Valid() && list.notes == [] && Held() == NoHold
      requires ValidInput(e1) && ValidInput(e2)
      modifies list, hold, layer1, layer2, layer1.cells, layer2.cells
      ensures list.Valid() && ValidHold(Held()) && layer1.Valid() && layer2.Valid()
      ensures f1 == FirstFill(pattern, e1) && f2 == SecondFill(pattern, e1, e2)
      ensures layer1.lanes == f1.lanes && layer2.lanes == f2.lanes && Held() == f2.hold
      ensures list.notes == LayerNotes(1, f1.lanes) + LayerNotes(2, f2.lanes)
      ensures layer1.y == 0.0 && layer2.y == -geo.blockSize * 10.0
      ensures unchanged(this)
    {
      f1 := Refresh(layer1, 0, 0, e1);
      assert list.notes == LayerNotes(1, f1.lanes);
      assert Held() == f1.hold && list.lastColumn == f1.lanes[RowCount - 1] && list.continuousCount == RowCount;
      f2 := Refresh(layer2, 1, 0, e2);
    }

    /** gameRestart: the state reset, every slot emptied, then both layers
        filled afresh from e1 and e2; the mode, the time setting and the
        welcome flag are not its business. */
    method Restart(e1: FillInput, e2: FillInput)
      requires Shape() && ValidInput(e1) && ValidInput(e2)
      modifies list, hold, layer1, layer2, layer1.cells, layer2.cells,
               this`index, this`score, this`bad, this`over, this`started, this`timeNum, this`ticks,
               this`lastMilestone, this`tickTimer, this`progressTimer, this`monitorTimer
      ensures Restarted(e1, e2)
      ensures mode == old(mode) && setting == old(setting) && welcomeClosed == old(welcomeClosed)
    {
      Reset();
      layer1.Clear();
      layer2.Clear();
      assert mode == old(mode) && setting == old(setting) && welcomeClosed == old(welcomeClosed);
      ghost var f1, f2 := FillLayers(e1, e2);
    }

    /** gameStart: the first hit starts the clock and the intervals; the
        progress redraw runs in Normal mode only. */
    method GameStart(now: int)
      requires Valid() && !started
      modifies this`started, this`startMs, this`tickTimer, this`progressTimer, this`monitorTimer
      ensures Valid()
      ensures started && startMs == now
      ensures tickTimer && monitorTimer && progressTimer == (mode == Normal)
    {
      startMs := now;
      started := true;
      tickTimer := true;
      progressTimer := mode == Normal;
      monitorTimer := true;
    }

    /** gameOver: the game ends and every interval is cleared; the result is
        the clicks per second handed to the score layer. */
    method GameOver(now: int) returns (cps: real)
      requires Valid() && started
      modifies this`over, this`tickTimer, this`progressTimer, this`monitorTimer
      ensures Valid()
      ensures over && !tickTimer && !progressTimer && !monitorTimer
      ensures cps == Cps(score, now - startMs, ticks)
    {
      over := true;
      tickTimer := false;
      progressTimer := false;
      monitorTimer := false;
      cps := Cps(score, now - startMs, ticks);
    }

    /** timer: every tick, in every mode, one second less and one tick more;
        only Normal mode ends the game, once no time is left. */
    method Timer(now: int)
      requires Valid() && tickTimer
      modifies this`timeNum, this`ticks, this`over, this`tickTimer, this`progressTimer, this`monitorTimer
      ensures Valid()
      ensures timeNum == old(timeNum) - 1 && ticks == old(ticks) + 1
      ensures over <==> mode == Normal && timeNum <= 0
      ensures tickTimer == !over
      ensures !over ==> progressTimer == old(progressTimer)
    {
      timeNum := timeNum - 1;
      ticks := ticks + 1;
      if mode == Normal && timeNum <= 0 {
        var _ := GameOver(now);
      }
    }

    /** checkComboMilestone: at most one milestone per call, the first in the
        list that the score has reached and the last celebrated one has not. */
    method CheckComboMilestone(current: int) returns (celebrated: Option<int>)
      modifies this`lastMilestone
      ensures celebrated == NextMilestone(current, old(lastMilestone))
      ensures lastMilestone == if celebrated.Some? then celebrated.value else old(lastMilestone)
    {
      celebrated := None;
      var k := 0;
      while k < |Milestones|
        invariant 0 <= k <= |Milestones|
        invariant lastMilestone == old(lastMilestone) && celebrated == None
        invariant NextMilestone(current, lastMilestone) == FirstMilestoneFrom(current, lastMilestone, k)
      {
        var m := Milestones[k];
        if current >= m && lastMilestone < m {
          lastMilestone := m;
          celebrated := Some(m);
          break;
        }
        k := k + 1;
      }
    }

    /** smoothAdjustGameLayer: every layer moves by the distance that puts the
        expected note two and a half blocks above the bottom. */
    method SmoothAdjust(relativeTop: real) returns (adjusted: bool)
      requires Valid()
      modifies layer1`y, layer2`y
      ensures Valid()
      ensures adjusted == (index < |list.notes|)
      ensures var d := if adjusted then AdjustDistance(relativeTop, geo) else 0.0;
        layer1.y == old(layer1.y) + d && layer2.y == old(layer2.y) + d
    {
      if index >= |list.notes| {
        return false;
      }
      var d := AdjustDistance(relativeTop, geo);
      for i := 0 to 2
        invariant forall l :: 0 <= l < i ==> LayerAt(l).y == old(LayerAt(l).y) + d
        invariant forall l :: i <= l < 2 ==> LayerAt(l).y == old(LayerAt(l).y)
      {
        var g := LayerAt(i);
        g.y := g.y + d;
      }
      assert LayerAt(0) == layer1 && LayerAt(1) == layer2;
      adjusted := true;
    }

    /** monitorCurrentBlockPosition: while the game is live, a correction
        whenever the expected note has left the band between four and two
        blocks above the bottom; a no-op otherwise, also when called after
        the game has ended. */
    method Monitor(relativeTop: real) returns (adjusted: bool)
      requires Valid()
      modifies layer1`y, layer2`y
      ensures Valid()
      ensures adjusted == (started && !over && index < |list.notes| && !InIdealBand(relativeTop, geo))
      ensures var d := if adjusted then AdjustDistance(relativeTop, geo) else 0.0;
        layer1.y == old(layer1.y) + d && layer2.y == old(layer2.y) + d
    {
      if !started || over || index >= |list.notes| {
        return false;
      }
      adjusted := false;
      if !InIdealBand(relativeTop, geo) {
        adjusted := SmoothAdjust(relativeTop);
      }
    }

    /** One layer's step of gameLayerMoveNextRow: it moves down by d, and once
        it has scrolled past its own height it is refilled and put back nine
        rows above the origin. */
    method AdvanceLayer(g: Layer, d: real, e: FillInput)
      requires Valid() && (g == layer1 || g == layer2) && ValidInput(e)
      modifies list, hold, g, g.cells
      ensures Valid()
      ensures g.y == Advanced(old(g.y), d, geo)
      ensures ScrolledOut(old(g.y) + d, geo) ==>
        var f := LayerFill(pattern, old(Held()), old(list.notes), old(list.lastColumn), e);
        g.lanes == f.lanes && Held() == f.hold && list.notes == old(list.notes) + LayerNotes(g.num, f.lanes)
      ensures !ScrolledOut(old(g.y) + d, geo) ==>
        g.lanes == old(g.lanes) && unchanged(g.cells) && unchanged(list, hold)
      ensures Snapshot() == LayerStep(pattern, old(Snapshot()), g.num, d, e, geo)
    {
      g.y := g.y + d;
      if g.y > geo.blockSize * 10.0 {
        ghost var f := Refresh(g, 1, -1, e);
      }
    }

    /** The part of the state an advance of the layers works on. */
    ghost function Snapshot(): Board
      reads list, hold, layer1, layer2
    {
      Board(Held(), list.notes, list.lastColumn, layer1.lanes, layer2.lanes, layer1.y, layer2.y)
    }

    /** What gameLayerMoveNextRow did after deciding m: with a move, the
        layers' loop; otherwise nothing. */
    twostate predicate Scrolled(m: MoveDecision, e1: FillInput, e2: FillInput)
      requires old(Valid()) && ValidInput(e1) && ValidInput(e2)
      reads list, hold, layer1, layer2, layer1.cells, layer2.cells
    {
      && (m.Move? ==> Snapshot() == ScrollAll(pattern, old(Snapshot()), m.distance, e1, e2, geo))
      && (!m.Move? ==> unchanged(list, hold) && unchanged(layer1, layer2) && unchanged(layer1.cells, layer2.cells))
    }

    /** The loop of gameLayerMoveNextRow over the layers. */
    method ScrollLayers(d: real, e1: FillInput, e2: FillInput)
      requires Valid() && ValidInput(e1) && ValidInput(e2)
      modifies list, hold, layer1, layer2, layer1.cells, layer2.cells
      ensures Valid() && Snapshot() == ScrollAll(pattern, old(Snapshot()), d, e1, e2, geo)
    {
      ghost var b0 := Snapshot();
      for i := 0 to 2
        invariant Valid()
        invariant Snapshot() == if i == 0 then b0 else if i == 1 then LayerStep(pattern, b0, 1, d, e1, geo)
                                else ScrollAll(pattern, b0, d, e1, e2, geo)
      {
        if i == 0 {
          AdvanceLayer(layer1, d, e1);
        } else {
          AdvanceLayer(layer2, d, e2);
        }
      }
    }

    /** gameLayerMoveNextRow: after the second hit, every layer moves down by
        the same distance, and a layer that has scrolled past its own height
        is refilled and put back nine rows above the origin. Without a move
        nothing changes. */
    method MoveNextRow(relativeTop: real, e1: FillInput, e2: FillInput) returns (m: MoveDecision)
      requires Valid() && ValidInput(e1) && ValidInput(e2)
      modifies list, hold, layer1, layer2, layer1.cells, layer2.cells
      ensures Valid()
      ensures m == MoveDistance(index, index < |old(list.notes)|, relativeTop, geo)
      ensures Scrolled(m, e1, e2)
      ensures |old(list.notes)| <= |list.notes| && list.notes[..|old(list.notes)|] == old(list.notes)
    {
      m := MoveDistance(index, index < |list.notes|, relativeTop, geo);
      if m.Move? {
        ScrollLayers(m.distance, e1, e2);
      }
    }

    /** A hit in gameTapEvent: the game starts if needed, the cursor and the
        score advance together, the combo milestone is checked and the
        layers scroll. */
    method OnHit(now: int, relativeTop: real, e1: FillInput, e2: FillInput)
      requires Valid() && !over && index < |list.notes| && ValidInput(e1) && ValidInput(e2)
      modifies list, hold, layer1, layer2, layer1.cells, layer2.cells,
               this`index, this`score, this`lastMilestone, this`started, this`startMs,
               this`tickTimer, this`progressTimer, this`monitorTimer
      ensures Valid()
      ensures started && !over && index == old(index) + 1 && score == old(score) + 1
      ensures startMs == (if old(started) then old(startMs) else now)
      ensures progressTimer == (if old(started) then old(progressTimer) else mode == Normal)
      ensures |old(list.notes)| <= |list.notes| && list.notes[..|old(list.notes)|] == old(list.notes)
      ensures Scrolled(MoveDistance(old(index) + 1, old(index) + 1 < |old(list.notes)|, relativeTop, geo), e1, e2)
    {
      CountHit(now);
      var _ := MoveNextRow(relativeTop, e1, e2);
    }

    /** The counting half of a hit: the game starts if needed, the cursor and
        the score advance together and the combo milestone is checked. The
        notes and the layers are left to MoveNextRow. */
    method CountHit(now: int)
      requires Valid() && !over && index < |list.notes|
      modifies this`index, this`score, this`lastMilestone, this`started, this`startMs,
               this`tickTimer, this`progressTimer, this`monitorTimer
      ensures Valid()
      ensures started && !over && index == old(index) + 1 && score == old(score) + 1
      ensures startMs == (if old(started) then old(startMs) else now)
      ensures progressTimer == (if old(started) then old(progressTimer) else mode == Normal)
    {
      if !started {
        GameStart(now);
      }
      index := index + 1;
      score := score + 1;
      MilestoneTracksScore(score - 1);
      var _ := CheckComboMilestone(score);
    }

    /** A miss in gameTapEvent: one more bad tap, and the game ends unless in
        Practice mode. */
    method OnMiss(now: int)
      requires Valid() && started && !over
      modifies this`bad, this`over, this`tickTimer, this`progressTimer, this`monitorTimer
      ensures Valid()
      ensures bad == old(bad) + 1 && over == (mode != Practice)
      ensures !over ==> progressTimer == old(progressTimer)
    {
      bad := bad + 1;
      if mode != Practice {
        var _ := GameOver(now);
      }
    }

    /** The effect of a tap with verdict v. Ignored and faulting taps change
        nothing. A hit starts the game if needed, advances cursor and score
        together and scrolls the layers as gameLayerMoveNextRow decides for
        the next note; the first hit starts the progress-bar timer in Normal
        mode only. A miss adds one bad tap and ends the game unless in
        Practice mode; a game that goes on keeps its progress-bar timer.
        Nothing else changes. */
    twostate predicate TapEffect(v: Verdict, now: int, relativeTop: real, e1: FillInput, e2: FillInput)
      requires old(Valid()) && ValidInput(e1) && ValidInput(e2)
      reads this, list, hold, layer1, layer2, layer1.cells, layer2.cells
    {
      && (v == Ignored || v == Fault ==>
            unchanged(this, list, hold) && unchanged(layer1, layer2) && unchanged(layer1.cells, layer2.cells))
      && (v == Hit ==>
            && started && !over && index == old(index) + 1 && score == old(score) + 1 && bad == old(bad)
            && startMs == (if old(started) then old(startMs) else now)
            && progressTimer == (if old(started) then old(progressTimer) else mode == Normal)
            && Scrolled(MoveDistance(old(index) + 1, old(index) + 1 < |old(list.notes)|, relativeTop, geo), e1, e2))
      && (v == Miss ==>
            && bad == old(bad) + 1 && index == old(index) && score == old(score)
            && started == old(started) && startMs == old(startMs) && over == (mode != Practice)
            && (!over ==> progressTimer == old(progressTimer))
            && unchanged(list, hold) && unchanged(layer1, layer2) && unchanged(layer1.cells, layer2.cells))
    }

    /** gameTapEvent: judge the tap, then apply the hit or the miss.
        `relativeTop` is the position of the note expected after the hit. */
    method Tap(x: real, y: real, target: Option<SlotId>, now: int, relativeTop: real, e1: FillInput, e2: FillInput)
      returns (v: Verdict)
      requires Valid() && ValidInput(e1) && ValidInput(e2)
      requires target.Some? ==> ValidSlot(target.value)
      modifies list, hold, layer1, layer2, layer1.cells, layer2.cells,
               this`index, this`score, this`bad, this`over, this`started, this`startMs, this`lastMilestone,
               this`tickTimer, this`progressTimer, this`monitorTimer
      ensures Valid()
      ensures v == Judge(old(over), old(started), old(Expected()), x, y, target, old(Occupied(target)), geo)
      ensures TapEffect(v, now, relativeTop, e1, e2)
    {
      if over {
        return Ignored;
      }
      if y > TouchBottom(geo) || y < TouchTop(geo) {
        return Ignored;
      }
      if index >= |list.notes| {
        return Fault;
      }
      var p := list.notes[index];
      var occupied := Occupied(target);
      if IsHit(p, x, target, occupied, geo.blockSize) {
        OnHit(now, relativeTop, e1, e2);
        v := Hit;
      } else if started && !occupied {
        OnMiss(now);
        v := Miss;
      } else {
        v := Ignored;
      }
    }

    /** click: key i (1..4) taps, at the middle of the touch band, the centre
        of lane i-1 on the expected note's row; it is ignored until the
        welcome layer is closed and throws when there is no expected note. */
    method Click(i: int, now: int, relativeTop: real, e1: FillInput, e2: FillInput) returns (v: Verdict)
      requires Valid() && 1 <= i <= LaneCount && ValidInput(e1) && ValidInput(e2)
      modifies list, hold, layer1, layer2, layer1.cells, layer2.cells,
               this`index, this`score, this`bad, this`over, this`started, this`startMs, this`lastMilestone,
               this`tickTimer, this`progressTimer, this`monitorTimer
      ensures Valid()
      ensures TapEffect(v, now, relativeTop, e1, e2)
      ensures !old(welcomeClosed) ==> v == Ignored
      ensures old(welcomeClosed) && old(index) >= |old(list.notes)| ==> v == Fault
      ensures old(welcomeClosed) && old(index) < |old(list.notes)| ==>
        v == Judge(old(over), old(started), old(Expected()), KeyX(i, geo.blockSize), KeyY(geo),
                   Some(KeyTarget(old(list.notes[index]), i)), old(Occupied(Some(KeyTarget(list.notes[index], i)))), geo)
      ensures old(welcomeClosed) && !old(over) && old(index) < |old(list.notes)| ==>
        (v == Hit <==> i - 1 == old(list.notes[index].cell))
      ensures old(welcomeClosed) && old(started) && !old(over) && old(index) < |old(list.notes)| ==>
        (v == Miss <==> i - 1 != old(list.notes[index].cell) && !old(Occupied(Some(KeyTarget(list.notes[index], i)))))
    {
      if !welcomeClosed {
        return Ignored;
      }
      if index >= |list.notes| {
        return Fault;
      }
      var p := list.notes[index];
      var target := KeyTarget(p, i);
      KeyTapHitsExactlyItsLane(p, i, Occupied(Some(target)), geo);
      v := Tap(KeyX(i, geo.blockSize), KeyY(geo), Some(target), now, relativeTop, e1, e2);
    }

    /** closeWelcomeLayer. */
    method CloseWelcome()
      modifies this`welcomeClosed
      ensures welcomeClosed
    {
      welcomeClosed := true;
    }

    /** changeMode: the mode used from now on. */
    method ChangeMode(m: Mode)
      modifies this`mode
      ensures mode == m
    {
      mode := m;
    }

    /** updateGameTime: the new budget, also applied to the clock while no
        game is running. */
    method UpdateGameTime(seconds: int)
      requires Valid()
      modifies this`setting, this`timeNum
      ensures Valid() && setting == seconds
      ensures timeNum == if !started && !over then seconds else old(timeNum)
    {
      setting := seconds;
      if !started && !over {
        timeNum := seconds;
      }
    }

    /** exitPracticeMode: a running Practice game is reset and the welcome
        layer shown; otherwise nothing happens. The welcome flag and the
        restart touch disjoint state, so the flag is set first. */
    method ExitPractice(e1: FillInput, e2: FillInput) returns (exited: bool)
      requires Valid() && ValidInput(e1) && ValidInput(e2)
      modifies list, hold, layer1, layer2, layer1.cells, layer2.cells,
               this`index, this`score, this`bad, this`over, this`started, this`timeNum, this`ticks,
               this`lastMilestone, this`tickTimer, this`progressTimer, this`monitorTimer, this`welcomeClosed
      ensures Valid()
      ensures exited == (mode == Practice && old(started) && !old(over))
      ensures exited ==> Restarted(e1, e2) && !welcomeClosed
      ensures !exited ==> unchanged(this, list, hold) && unchanged(layer1, layer2) && unchanged(layer1.cells, layer2.cells)
    {
      exited := mode == Practice && started && !over;
      if exited {
        welcomeClosed := false;
        Restart(e1, e2);
      }
    }
  }
}
