/** The board layout: a layer of 10 rows by 4 lanes, slot `row * 4 + lane`,
    and the entries `{cell, id}` of the expected-note list. */
module Layout {
  import opened Lanes

  /** Number of slots (block elements) of one layer. */
  const SlotCount := 40

  /** The element id `GameLayer<layer>-<slot>`. */
  datatype SlotId = SlotId(layer: int, slot: int)

  /** One entry of the expected-note list: its lane and its element. */
  datatype Note = Note(cell: int, id: SlotId)

  predicate ValidSlot(s: SlotId) {
    (s.layer == 1 || s.layer == 2) && 0 <= s.slot < SlotCount
  }

  /** An entry names a slot of one of the two layers, in the lane it records. */
  predicate WellFormed(n: Note) {
    IsLane(n.cell) && ValidSlot(n.id) && n.id.slot % 4 == n.cell
  }

  /** The entry a layer with the given lanes contributes for its row r. */
  function RowNote(layer: int, lanes: seq<int>, r: nat): Note
    requires r < |lanes|
  {
    Note(lanes[r], SlotId(layer, r * 4 + lanes[r]))
  }

  /** The entries of a filled layer, in row order. */
  function LayerNotes(layer: int, lanes: seq<int>): (ns: seq<Note>)
    ensures |ns| == |lanes|
    ensures forall r :: 0 <= r < |lanes| ==> ns[r] == RowNote(layer, lanes, r)
  {
    if lanes == [] then []
    else LayerNotes(layer, lanes[..|lanes| - 1]) + [RowNote(layer, lanes, |lanes| - 1)]
  }

  /** The entries pushed while scanning slots 0..j-1 in slot order: slot j
      gets an entry exactly when its lane is the lane generated for its row. */
  function NotesBefore(layer: int, lanes: seq<int>, j: nat): seq<Note>
    requires j <= 4 * |lanes|
  {
    if j == 0 then []
    else
      var k := j - 1;
      NotesBefore(layer, lanes, k)
        + if k % 4 == lanes[k / 4] then [Note(k % 4, SlotId(layer, k))] else []
  }

  /** Scanning slot j, lane i of row r, pushes that row's entry exactly when
      i is the row's lane. */
  lemma ScanStep(layer: int, lanes: seq<int>, r: nat, i: int, j: nat, next: nat)
    requires r < |lanes| && 0 <= i < 4 && j == 4 * r + i && next == j + 1
    ensures i != lanes[r] ==> NotesBefore(layer, lanes, next) == NotesBefore(layer, lanes, j)
    ensures i == lanes[r] ==>
      NotesBefore(layer, lanes, next) == NotesBefore(layer, lanes, j) + [RowNote(layer, lanes, r)]
  {
    assert j / 4 == r && j % 4 == i;
  }

  /** The four slots of row r push exactly that row's entry. */
  lemma RowScan(layer: int, lanes: seq<int>, r: nat)
    requires r < |lanes| && IsLane(lanes[r])
    ensures NotesBefore(layer, lanes, 4 * r + 4)
         == NotesBefore(layer, lanes, 4 * r) + [RowNote(layer, lanes, r)]
  {
    ScanStep(layer, lanes, r, 0, 4 * r, 4 * r + 1);
    ScanStep(layer, lanes, r, 1, 4 * r + 1, 4 * r + 2);
    ScanStep(layer, lanes, r, 2, 4 * r + 2, 4 * r + 3);
    ScanStep(layer, lanes, r, 3, 4 * r + 3, 4 * r + 4);
    var s0, s1 := NotesBefore(layer, lanes, 4 * r), NotesBefore(layer, lanes, 4 * r + 1);
    var s2, s3 := NotesBefore(layer, lanes, 4 * r + 2), NotesBefore(layer, lanes, 4 * r + 3);
    var s4, n := NotesBefore(layer, lanes, 4 * r + 4), RowNote(layer, lanes, r);
    var c := lanes[r];
    if c == 0 {
      assert s1 == s0 + [n] && s4 == s3 == s2 == s1;
    } else if c == 1 {
      assert s1 == s0 && s2 == s1 + [n] && s4 == s3 == s2;
    } else if c == 2 {
      assert s2 == s1 == s0 && s3 == s2 + [n] && s4 == s3;
    } else {
      assert s3 == s2 == s1 == s0 && s4 == s3 + [n];
    }
  }

  /** Scanning a layer's slots in order pushes exactly one entry per row, in
      row order, each in the lane generated for that row. */
  lemma {:induction false} NotesBeforeRows(layer: int, lanes: seq<int>, r: nat)
    requires r <= |lanes| && forall i :: 0 <= i < |lanes| ==> IsLane(lanes[i])
    ensures NotesBefore(layer, lanes, 4 * r) == LayerNotes(layer, lanes[..r])
  {
    if r > 0 {
      var q := r - 1;
      NotesBeforeRows(layer, lanes, q);
      RowScan(layer, lanes, q);
      assert 4 * r == 4 * q + 4;
      assert lanes[..r][..q] == lanes[..q];
      assert LayerNotes(layer, lanes[..r]) == LayerNotes(layer, lanes[..q]) + [RowNote(layer, lanes, q)];
    }
  }

  /** Every entry of a filled layer is well formed. */
  lemma LayerNotesWellFormed(layer: int, lanes: seq<int>)
    requires layer == 1 || layer == 2
    requires |lanes| <= RowCount && forall i :: 0 <= i < |lanes| ==> IsLane(lanes[i])
    ensures forall n :: n in LayerNotes(layer, lanes) ==> WellFormed(n)
  {
    forall n | n in LayerNotes(layer, lanes) ensures WellFormed(n) {
      var r :| 0 <= r < |lanes| && LayerNotes(layer, lanes)[r] == n;
      assert (r * 4 + lanes[r]) % 4 == lanes[r];
    }
  }
}
