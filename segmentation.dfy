/**
  Turning text into comparison units (src/hooks/useTypingEngine.ts:36-52).

  A JavaScript string is a sequence of UTF-16 code units and its `length`
  counts them, so text is modelled as `seq<CodeUnit>`. With a grapheme
  segmenter (`Intl.Segmenter`, Unicode Standard Annex #29) a unit is a
  grapheme cluster; without one, `split("")` gives one unit per code unit.
  The segmenter is a runtime function whose rules are not modelled: it is an
  arbitrary function here, and the only thing ever assumed of it (as a
  `requires` of the lemmas that need it) is `WellFormed`: its units are
  non-empty and concatenate back to the input.
*/
module Segmentation {

  /** One UTF-16 code unit. */
  newtype CodeUnit = x: int | 0 <= x < 0x1_0000

  type Text = seq<CodeUnit>

  /** The runtime's grapheme segmenter, or its absence. */
  datatype Segmenter = Grapheme(segment: Text -> seq<Text>) | Unavailable

  /** `text.split("")`: one unit per code unit. */
  function SplitUnits(t: Text): (r: seq<Text>)
    ensures |r| == |t|
    ensures forall i :: 0 <= i < |t| ==> r[i] == [t[i]]
  {
    if t == [] then [] else [[t[0]]] + SplitUnits(t[1..])
  }

  /** The units joined back into one text. */
  function Concat(units: seq<Text>): Text
  {
    if units == [] then [] else units[0] + Concat(units[1..])
  }

  /** `units` cut `t` into non-empty consecutive pieces. */
  ghost predicate Partitions(units: seq<Text>, t: Text)
  {
    Concat(units) == t && forall i :: 0 <= i < |units| ==> units[i] != []
  }

  /** What is known of a grapheme segmenter: it partitions every text. */
  ghost predicate WellFormed(seg: Segmenter)
  {
    seg.Grapheme? ==> forall t :: Partitions(seg.segment(t), t)
  }

  /** `seg ? Array.from(seg.segment(t)).map(s => s.segment) : t.split("")` */
  function Segments(seg: Segmenter, t: Text): seq<Text>
  {
    match seg
    case Grapheme(f) => f(t)
    case Unavailable => SplitUnits(t)
  }

  /** The fallback is itself a well-formed segmentation. */
  lemma {:induction false} SplitUnitsPartitions(t: Text)
    ensures Partitions(SplitUnits(t), t)
  {
    if t != [] {
      SplitUnitsPartitions(t[1..]);
      assert SplitUnits(t)[1..] == SplitUnits(t[1..]);
    }
  }

  /** Whichever segmenter is present, a well-formed one partitions the text. */
  lemma SegmentsPartition(seg: Segmenter, t: Text)
    requires WellFormed(seg)
    ensures Partitions(Segments(seg, t), t)
  {
    if seg.Unavailable? {
      SplitUnitsPartitions(t);
    }
  }

  /** A partition has at most as many units as the text has code units, and
      exactly as many iff every unit is a single code unit. */
  lemma {:induction false} PartitionLength(units: seq<Text>, t: Text)
    requires Partitions(units, t)
    ensures |units| <= |t|
    ensures |units| == |t| <==> forall i :: 0 <= i < |units| ==> |units[i]| == 1
  {
    if units != [] {
      var rest := Concat(units[1..]);
      assert Partitions(units[1..], rest) by {
        forall i | 0 <= i < |units[1..]| ensures units[1..][i] != [] {
          assert units[1..][i] == units[i + 1];
        }
      }
      PartitionLength(units[1..], rest);
      assert t == units[0] + rest;
      if |units| == |t| {
        assert |units[0]| == 1 && |units[1..]| == |rest|;
        forall i | 0 <= i < |units| ensures |units[i]| == 1 {
          if i > 0 { assert units[i] == units[1..][i - 1]; }
        }
      }
      if forall i :: 0 <= i < |units| ==> |units[i]| == 1 {
        assert forall i :: 0 <= i < |units[1..]| ==> |units[1..][i]| == 1 by {
          forall i | 0 <= i < |units[1..]| ensures |units[1..][i]| == 1 {
            assert units[1..][i] == units[i + 1];
          }
        }
      }
    }
  }

  /** Segment count never exceeds the code-unit count, for either segmenter. */
  lemma SegmentCountBound(seg: Segmenter, t: Text)
    requires WellFormed(seg)
    ensures |Segments(seg, t)| <= |t|
  {
    SegmentsPartition(seg, t);
    PartitionLength(Segments(seg, t), t);
  }

  /** The empty text has no units, for either segmenter. */
  lemma EmptyTextHasNoUnits(seg: Segmenter)
    requires WellFormed(seg)
    ensures Segments(seg, []) == []
  {
    SegmentCountBound(seg, []);
  }
}
