/**
  The passage display and input gate of src/components/TypingArea.tsx.

  The area segments text itself: an empty text gives no units, and a
  missing `Intl.Segmenter` (a thrown error) falls back to `split("")`.
  Each passage unit is then classified against the typed unit at the same
  position.
*/
module TypingArea {
  import opened Common
  import opened Segmentation
  import opened Comparator

  /** The colour classes of lines 80-91. */
  datatype Colour = Untyped | Correct | WrongChar | SpaceError

  /** One rendered passage unit: its colour and whether the cursor is on it. */
  datatype Cell = Cell(unit: Text, colour: Colour, isCurrent: bool)

  const Space: Text := [0x20]

  /** `segments` / `typedSegments` (lines 41-60). */
  function AreaSegments(seg: Segmenter, t: Text): (r: seq<Text>)
    ensures t == [] ==> r == []
    ensures t != [] ==> r == Segments(seg, t)
  {
    if t == [] then [] else Segments(seg, t)
  }

  /** For a well-formed segmenter the early return changes nothing: the
      area and the engine segment every text alike. */
  lemma AreaSegmentsAgree(seg: Segmenter, t: Text)
    requires WellFormed(seg)
    ensures AreaSegments(seg, t) == Segments(seg, t)
  {
    if t == [] {
      EmptyTextHasNoUnits(seg);
    }
  }

  /** The colour of passage unit `i`. */
  function Classify(passage: seq<Text>, typed: seq<Text>, i: nat): (c: Colour)
    requires i < |passage|
    ensures c == Untyped <==> i >= |typed|
    ensures c == Correct <==> i < |typed| && typed[i] == passage[i]
    ensures c == SpaceError <==> i < |typed| && typed[i] != passage[i] && passage[i] == Space
    ensures c == WrongChar <==> i < |typed| && typed[i] != passage[i] && passage[i] != Space
  {
    if i < |typed| then
      if typed[i] == passage[i] then Correct
      else if passage[i] == Space then SpaceError
      else WrongChar
    else Untyped
  }

  /** `segments.map(...)`: one cell per passage unit. */
  function Render(passage: seq<Text>, typed: seq<Text>): (cells: seq<Cell>)
    ensures |cells| == |passage|
    ensures forall i :: 0 <= i < |passage| ==> cells[i].unit == passage[i]
    ensures forall i :: 0 <= i < |passage| ==>
      cells[i].colour == Classify(passage, typed, i) && (cells[i].isCurrent <==> i == |typed|)
  {
    seq(|passage|, i requires 0 <= i < |passage| => Cell(passage[i], Classify(passage, typed, i), i == |typed|))
  }

  ghost function CorrectCells(cells: seq<Cell>): set<nat>
  {
    set i: nat | i < |cells| && cells[i].colour == Correct
  }

  ghost function CursorCells(cells: seq<Cell>): set<nat>
  {
    set i: nat | i < |cells| && cells[i].isCurrent
  }

  /** The number of green cells is the engine's `correctChars` for the same
      units. */
  lemma CorrectCellsAreCorrectChars(passage: seq<Text>, typed: seq<Text>)
    ensures |CorrectCells(Render(passage, typed))| == CorrectCount(typed, passage)
  {
    assert CorrectCells(Render(passage, typed)) == MatchedIndices(typed, passage);
    CorrectCountIsMatchedIndices(typed, passage);
  }

  /** The cursor sits on unit |typed| and nowhere else; once the typed units
      reach the passage's length no unit carries it. */
  lemma CursorPosition(passage: seq<Text>, typed: seq<Text>)
    ensures CursorCells(Render(passage, typed)) == if |typed| < |passage| then {|typed|} else {}
  {
  }

  /** The textarea's `onChange`: a disabled field (finished or locked) sends
      no change, so the handler's own locked check never fires; otherwise
      the value goes to `onType`. */
  function Forwarded(value: Text, isFinished: bool, isLocked: bool): (r: Option<Text>)
    ensures r.Some? <==> !isFinished && !isLocked
    ensures r.Some? ==> r.value == value
  {
    if isFinished || isLocked then None else Some(value)
  }
}
