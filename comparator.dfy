/**
  The comparator of src/hooks/useTypingEngine.ts:54-56: typed units are
  compared with passage units index by index, with no realignment, and a
  typed unit past the passage's end is compared with `undefined` and so is
  never correct.
*/
module Comparator {
  import opened Segmentation

  /** `typedSegments.reduce((acc, ch, i) => ch === segments[i] ? acc + 1 : acc, 0)` */
  function CorrectCount(typed: seq<Text>, passage: seq<Text>): (r: nat)
    ensures r <= |typed|
  {
    if typed == [] then 0
    else
      var i := |typed| - 1;
      CorrectCount(typed[..i], passage) + (if i < |passage| && typed[i] == passage[i] then 1 else 0)
  }

  /** `typedSegments.length - correctChars` */
  function ErrorCount(typed: seq<Text>, passage: seq<Text>): (r: nat)
    ensures r + CorrectCount(typed, passage) == |typed|
  {
    |typed| - CorrectCount(typed, passage)
  }

  /** The positions at which the typed unit equals the passage unit. */
  ghost function MatchedIndices(typed: seq<Text>, passage: seq<Text>): set<nat>
  {
    set i: nat | i < |typed| && i < |passage| && typed[i] == passage[i]
  }

  /** The reduction counts exactly the matched positions. */
  lemma {:induction false} CorrectCountIsMatchedIndices(typed: seq<Text>, passage: seq<Text>)
    ensures CorrectCount(typed, passage) == |MatchedIndices(typed, passage)|
  {
    if typed != [] {
      var i := |typed| - 1;
      var init := typed[..i];
      CorrectCountIsMatchedIndices(init, passage);
      if i < |passage| && typed[i] == passage[i] {
        assert MatchedIndices(typed, passage) == MatchedIndices(init, passage) + {i};
      } else {
        assert MatchedIndices(typed, passage) == MatchedIndices(init, passage);
      }
    }
  }

  /** Typed units past the passage's end never count as correct. */
  lemma {:induction false} OverhangNeverCorrect(typed: seq<Text>, passage: seq<Text>)
    requires |typed| > |passage|
    ensures CorrectCount(typed, passage) == CorrectCount(typed[..|passage|], passage)
    ensures ErrorCount(typed, passage) == ErrorCount(typed[..|passage|], passage) + (|typed| - |passage|)
  {
    var i := |typed| - 1;
    if i > |passage| {
      OverhangNeverCorrect(typed[..i], passage);
      assert typed[..i][..|passage|] == typed[..|passage|];
    } else {
      assert typed[..i] == typed[..|passage|];
    }
  }

  /** Both counts are bounded by the passage, so the correct count is at most
      the shorter of the two lengths. */
  lemma CorrectCountBound(typed: seq<Text>, passage: seq<Text>)
    ensures CorrectCount(typed, passage) <= |passage|
    ensures CorrectCount(typed, passage) <= |typed|
  {
    if |typed| > |passage| {
      OverhangNeverCorrect(typed, passage);
    }
  }

  /** Every typed unit is correct exactly when the typed units are a prefix of
      the passage; then the error count is 0. */
  lemma {:induction false} AllCorrectIffPrefix(typed: seq<Text>, passage: seq<Text>)
    ensures CorrectCount(typed, passage) == |typed| <==> typed <= passage
    ensures typed <= passage ==> ErrorCount(typed, passage) == 0
  {
    if typed != [] {
      var i := |typed| - 1;
      AllCorrectIffPrefix(typed[..i], passage);
      if typed <= passage {
        assert typed[..i] <= passage;
        assert i < |passage| && typed[i] == passage[i];
      }
      if CorrectCount(typed, passage) == |typed| {
        assert typed[..i] <= passage;
        assert typed == typed[..i] + [typed[i]];
      }
    }
  }

  /** A slip on the first unit costs that unit only: the comparison stays
      index by index, so the units typed correctly after it still count. */
  lemma {:induction false} FirstUnitSlipCostsOne(typed: seq<Text>, passage: seq<Text>)
    requires 0 < |typed| <= |passage|
    requires typed[0] != passage[0] && typed[1..] <= passage[1..]
    ensures CorrectCount(typed, passage) == |typed| - 1
    ensures ErrorCount(typed, passage) == 1
  {
    var i := |typed| - 1;
    if i > 0 {
      assert typed[i] == typed[1..][i - 1] == passage[1..][i - 1] == passage[i];
      assert typed[..i][1..] == typed[1..][..i - 1];
      FirstUnitSlipCostsOne(typed[..i], passage);
    }
  }
}
