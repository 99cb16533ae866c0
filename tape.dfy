/** The tape: a finite list of cells and a head index standing for a tape
    that is blank beyond both ends; the padding done by `ensureTapeLength`,
    the head moves of `stepSimulation` and the 21-cell window `renderTape`
    draws. */
module Tape {

  /** The cells and the head index, as `simulationState` holds them. */
  datatype TapeHead = TapeHead(cells: seq<string>, head: int)

  /** The move codes of `DIRECTION`. */
  const Left := "L"
  const Right := "R"
  const Stay := "S"

  /** Margin of blank cells kept on each side of the head. */
  const Margin := 10

  function Blanks(n: nat, blank: string): (r: seq<string>)
    ensures |r| == n
    ensures forall i :: 0 <= i < n ==> r[i] == blank
  {
    seq(n, _ => blank)
  }

  /** At least `Margin` cells on each side of the head. */
  predicate IsPadded(t: TapeHead) {
    Margin <= t.head && t.head + Margin < |t.cells|
  }

  /** The conceptual two-way infinite tape, seen from the head: the symbol
      `offset` cells to the right of the head (left when negative), blank
      where no cell is materialised. */
  function SymbolAt(t: TapeHead, offset: int, blank: string): string {
    var i := t.head + offset;
    if 0 <= i < |t.cells| then t.cells[i] else blank
  }

  /** What `ensureTapeLength` leaves: blanks pushed at the front, and the
      head moved with them, until `Margin` cells are left of the head; then
      blanks pushed at the back until `Margin` cells are right of it. */
  function Pad(t: TapeHead, blank: string): (r: TapeHead)
    ensures IsPadded(r)
    ensures r.head == if t.head < Margin then Margin else t.head
  {
    PadBack(PadFront(t, blank), blank)
  }

  /** The first loop of `ensureTapeLength`. */
  function PadFront(t: TapeHead, blank: string): (r: TapeHead)
    ensures r.head == if t.head < Margin then Margin else t.head
  {
    var front := if t.head < Margin then Margin - t.head else 0;
    TapeHead(Blanks(front, blank) + t.cells, t.head + front)
  }

  /** The second loop of `ensureTapeLength`. */
  function PadBack(t: TapeHead, blank: string): (r: TapeHead)
    ensures r.head == t.head && t.head + Margin < |r.cells|
  {
    var back := if t.head + Margin < |t.cells| then 0 else t.head + Margin + 1 - |t.cells|;
    TapeHead(t.cells + Blanks(back, blank), t.head)
  }

  /** The old cells stay together and in order, shifted by the number of
      blanks put in front; every new cell is blank, and no more are added
      than the margins need. */
  lemma PadShape(t: TapeHead, blank: string)
    ensures var r := Pad(t, blank);
      && |r.cells| == (if r.head + Margin < (r.head - t.head) + |t.cells|
                       then (r.head - t.head) + |t.cells| else r.head + Margin + 1)
      && r.cells[r.head - t.head .. r.head - t.head + |t.cells|] == t.cells
      && (forall i :: 0 <= i < r.head - t.head ==> r.cells[i] == blank)
      && (forall i :: r.head - t.head + |t.cells| <= i < |r.cells| ==> r.cells[i] == blank)
  {
    var f := PadFront(t, blank);
    assert f.cells[f.head - t.head..] == t.cells;
    assert Pad(t, blank).cells[..|f.cells|] == f.cells;
  }

  /** Padding a tape whose head is on its first cell: ten blanks, the old
      cells, then blanks up to 21 cells in all. */
  lemma PadFromFirstCell(cells: seq<string>, blank: string)
    ensures var r := Pad(TapeHead(cells, 0), blank);
      && r.head == Margin
      && |r.cells| == (if |cells| < Margin + 1 then 2 * Margin + 1 else Margin + |cells|)
      && (forall i :: 0 <= i < Margin ==> r.cells[i] == blank)
      && r.cells[Margin .. Margin + |cells|] == cells
      && (forall i :: Margin + |cells| <= i < |r.cells| ==> r.cells[i] == blank)
  {
    PadShape(TapeHead(cells, 0), blank);
  }

  /** A padded tape is left as it is, so padding twice is padding once. */
  lemma PadPadded(t: TapeHead, blank: string)
    requires IsPadded(t)
    ensures Pad(t, blank) == t
  {
    var r := Pad(t, blank);
    assert r.cells == t.cells;
  }

  lemma PadIdempotent(t: TapeHead, blank: string)
    ensures Pad(Pad(t, blank), blank) == Pad(t, blank)
  {
    PadPadded(Pad(t, blank), blank);
  }

  /** Padding changes the representation only, never the tape it stands
      for: every cell seen from the head reads the same afterwards. */
  lemma PadKeepsSymbols(t: TapeHead, blank: string)
    ensures forall k :: SymbolAt(Pad(t, blank), k, blank) == SymbolAt(t, k, blank)
  {
    var r := Pad(t, blank);
    var shift := r.head - t.head;
    PadShape(t, blank);
    forall k ensures SymbolAt(r, k, blank) == SymbolAt(t, k, blank) {
      var i := t.head + k;
      if 0 <= i < |t.cells| {
        assert r.cells[shift + i] == r.cells[shift .. shift + |t.cells|][i];
      }
    }
  }

  /** Offset of the head for a move code: `'L'` one left, `'R'` one right,
      anything else no move. */
  function Shift(direction: string): int {
    if direction == Left then -1 else if direction == Right then 1 else 0
  }

  /** The head move of `stepSimulation`: `'L'` decrements the head and, if
      it went below zero, puts a blank in front and sets it back to zero;
      `'R'` increments it and, if it reached the end, pushes a blank; any
      other code leaves the tape as it is. */
  function Move(t: TapeHead, direction: string, blank: string): (r: TapeHead)
    requires 0 <= t.head < |t.cells|
    ensures 0 <= r.head < |r.cells|
  {
    if direction == Left then
      if t.head - 1 < 0 then TapeHead([blank] + t.cells, 0)
      else TapeHead(t.cells, t.head - 1)
    else if direction == Right then
      if t.head + 1 >= |t.cells| then TapeHead(t.cells + [blank], t.head + 1)
      else TapeHead(t.cells, t.head + 1)
    else t
  }

  /** Whatever cell `Move` has to add, the tape seen from the moved head is
      the old one shifted by one cell (or not at all). */
  lemma MoveSymbols(t: TapeHead, direction: string, blank: string)
    requires 0 <= t.head < |t.cells|
    ensures forall k :: SymbolAt(Move(t, direction, blank), k, blank) == SymbolAt(t, k + Shift(direction), blank)
  {
    if direction == Left && t.head - 1 < 0 {
      var r := TapeHead([blank] + t.cells, 0);
      assert forall k :: 1 <= k < |r.cells| ==> r.cells[k] == t.cells[k - 1];
    }
  }

  /** `tape[head] = symbol`. */
  function Write(t: TapeHead, symbol: string): (r: TapeHead)
    requires 0 <= t.head < |t.cells|
    ensures r.head == t.head && |r.cells| == |t.cells|
  {
    TapeHead(t.cells[t.head := symbol], t.head)
  }

  /** A write changes the symbol under the head and no other. */
  lemma WriteSymbols(t: TapeHead, symbol: string, blank: string)
    requires 0 <= t.head < |t.cells|
    ensures SymbolAt(Write(t, symbol), 0, blank) == symbol
    ensures forall k :: k != 0 ==> SymbolAt(Write(t, symbol), k, blank) == SymbolAt(t, k, blank)
  {
  }

  /** One step's tape update: write `symbol` at the head, move, pad. */
  function WriteMovePad(t: TapeHead, symbol: string, direction: string, blank: string): (r: TapeHead)
    requires 0 <= t.head < |t.cells|
    ensures IsPadded(r)
  {
    Pad(Move(Write(t, symbol), direction, blank), blank)
  }

  /** Seen from the new head, offset `j` holds what offset
      `j + Shift(direction)` held before, except that the old head cell now
      holds `symbol`. */
  lemma WriteMovePadSymbols(t: TapeHead, symbol: string, direction: string, blank: string)
    requires 0 <= t.head < |t.cells|
    ensures forall j :: SymbolAt(WriteMovePad(t, symbol, direction, blank), j, blank)
                        == if j + Shift(direction) == 0 then symbol else SymbolAt(t, j + Shift(direction), blank)
  {
    var written := Write(t, symbol);
    var moved := Move(written, direction, blank);
    var r := Pad(moved, blank);
    PadKeepsSymbols(moved, blank);
    MoveSymbols(written, direction, blank);
    WriteSymbols(t, symbol, blank);
    forall j ensures SymbolAt(r, j, blank)
                     == if j + Shift(direction) == 0 then symbol else SymbolAt(t, j + Shift(direction), blank)
    {
      assert SymbolAt(r, j, blank) == SymbolAt(moved, j, blank);
      assert SymbolAt(moved, j, blank) == SymbolAt(written, j + Shift(direction), blank);
    }
  }

  /** The cells `renderTape` draws: `start = max(0, head - 10)` up to
      `end = min(length, head + 11)`, exclusive. */
  function RenderWindow(t: TapeHead): (w: (int, int))
  {
    var start := if t.head - Margin < 0 then 0 else t.head - Margin;
    var end := if |t.cells| < t.head + Margin + 1 then |t.cells| else t.head + Margin + 1;
    (start, end)
  }

  /** The window never leaves the tape and is at most 21 cells wide; with the
      head on the tape, the head is inside it. */
  lemma RenderWindowBounds(t: TapeHead)
    ensures var (start, end) := RenderWindow(t);
      0 <= start && end <= |t.cells| && end - start <= 2 * Margin + 1
      && (0 <= t.head < |t.cells| ==> start <= t.head < end)
  {
  }

  /** On a padded tape the window is exactly 21 cells, centred on the head. */
  lemma RenderWindowPadded(t: TapeHead)
    requires IsPadded(t)
    ensures var (start, end) := RenderWindow(t);
      end - start == 2 * Margin + 1 && t.head - start == Margin
  {
  }
}
