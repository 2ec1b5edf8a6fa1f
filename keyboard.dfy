/**
  The on-screen keyboard of src/components/KeyboardVisualizer.tsx.

  Key names are JavaScript strings; `toLowerCase`/`toUpperCase` are modelled
  on ASCII letters, which is all the key names of the layout contain.
*/
module KeyboardVisualizer {
  import opened Common

  function LowerChar(c: char): char
  {
    if 'A' <= c <= 'Z' then (c as int + 32) as char else c
  }

  function UpperChar(c: char): char
  {
    if 'a' <= c <= 'z' then (c as int - 32) as char else c
  }

  /** `s.toLowerCase()` */
  function ToLower(s: string): (r: string)
    ensures |r| == |s|
    ensures forall i :: 0 <= i < |s| ==> r[i] == LowerChar(s[i])
  {
    if s == [] then [] else [LowerChar(s[0])] + ToLower(s[1..])
  }

  /** `s.toUpperCase()` */
  function ToUpper(s: string): (r: string)
    ensures |r| == |s|
    ensures forall i :: 0 <= i < |s| ==> r[i] == UpperChar(s[i])
  {
    if s == [] then [] else [UpperChar(s[0])] + ToUpper(s[1..])
  }

  /** The on-screen rows (`ROWS`). */
  const ROWS: seq<seq<string>> := [
    ["`", "1", "2", "3", "4", "5", "6", "7", "8", "9", "0", "-", "=", "Backspace"],
    ["Tab", "q", "w", "e", "r", "t", "y", "u", "i", "o", "p", "[", "]", "\\"],
    ["CapsLock", "a", "s", "d", "f", "g", "h", "j", "k", "l", ";", "'", "Enter"],
    ["Shift", "z", "x", "c", "v", "b", "n", "m", ",", ".", "/", "Shift"],
    ["Space"]
  ]

  /** `NEPALI_UNICODE_MAP`. Every key of that record is a one-character
      string, so it is written here as a function of that character; `None`
      is a missing entry. */
  function NepaliGlyph(c: char): Option<string>
  {
    match c
    case 'q' => Some("त्र") case 'w' => Some("ध") case 'e' => Some("भ") case 'r' => Some("च") case 't' => Some("त")
    case 'y' => Some("थ") case 'u' => Some("ग") case 'i' => Some("ष") case 'o' => Some("य") case 'p' => Some("उ")
    case 'a' => Some("ब") case 's' => Some("क") case 'd' => Some("म") case 'f' => Some("ा") case 'g' => Some("न")
    case 'h' => Some("ज") case 'j' => Some("व") case 'k' => Some("प") case 'l' => Some("ि")
    case ';' => Some("स") case '\'' => Some("ु")
    case 'z' => Some("श") case 'x' => Some("ह") case 'c' => Some("अ") case 'v' => Some("ख") case 'b' => Some("द")
    case 'n' => Some("ल") case 'm' => Some("ा") case ',' => Some("ो") case '.' => Some("ौ") case '/' => Some("र")
    case 'Q' => Some("त्त") case 'W' => Some("द्ध") case 'E' => Some("भ्") case 'R' => Some("च्") case 'T' => Some("त्")
    case 'Y' => Some("थ्") case 'U' => Some("ग्") case 'I' => Some("ष्") case 'O' => Some("य्") case 'P' => Some("ऊ")
    case 'A' => Some("ब्") case 'S' => Some("क्") case 'D' => Some("म्") case 'F' => Some("ँ") case 'G' => Some("न्")
    case 'H' => Some("ज्") case 'J' => Some("व्") case 'K' => Some("प्") case 'L' => Some("ी")
    case ':' => Some("स्") case '"' => Some("ू")
    case 'Z' => Some("श्") case 'X' => Some("ह्") case 'C' => Some("आ") case 'V' => Some("ख्") case 'B' => Some("द्")
    case 'N' => Some("ल्") case 'M' => Some("ा") case '<' => Some("ओ") case '>' => Some("औ") case '?' => Some("र्")
    case _ => None
  }

  /** `NEPALI_UNICODE_MAP[k]` for a string `k`: only one-character strings
      have entries. */
  function Lookup(k: string): (r: Option<string>)
    ensures |k| != 1 ==> r == None
  {
    if |k| == 1 then NepaliGlyph(k[0]) else None
  }

  /** `getKeyLabel(key)`: multi-character names and every English key label
      as themselves; a Nepali key labels as its map entry (looked up
      upper-cased while Shift is down), falling back to the key when there
      is no entry or it is empty. */
  function KeyLabel(language: Language, isShiftDown: bool, key: string): (r: string)
    ensures |key| > 1 || language == English ==> r == key
    ensures r != key ==> language == Nepali && |key| == 1
  {
    if |key| > 1 then key
    else if language == Nepali then
      var entry := Lookup(if isShiftDown then ToUpper(key) else key);
      if entry.Some? && entry.value != "" then entry.value else key
    else key
  }

  /** Every entry is a non-empty run of Devanagari code points. */
  lemma GlyphsAreDevanagari(c: char)
    ensures NepaliGlyph(c).Some? ==>
      |NepaliGlyph(c).value| > 0 && '\U{0900}' <= NepaliGlyph(c).value[0] <= '\U{097F}'
  {
  }

  /** Every lower-case letter and its upper-case form have an entry. */
  lemma LettersHaveGlyphs(c: char)
    requires 'a' <= c <= 'z'
    ensures NepaliGlyph(c).Some? && NepaliGlyph(UpperChar(c)).Some?
  {
  }

  /** In Nepali mode a letter key shows its own map entry, and the entry of
      its upper-case letter while Shift is down. */
  lemma LetterKeyLabels(c: char)
    requires 'a' <= c <= 'z'
    ensures NepaliGlyph(c).Some? && KeyLabel(Nepali, false, [c]) == NepaliGlyph(c).value
    ensures NepaliGlyph(UpperChar(c)).Some? && KeyLabel(Nepali, true, [c]) == NepaliGlyph(UpperChar(c)).value
  {
    LettersHaveGlyphs(c);
    GlyphsAreDevanagari(c);
    GlyphsAreDevanagari(UpperChar(c));
    assert ToUpper([c]) == [UpperChar(c)];
  }

  /** In Nepali mode, with or without Shift, a key shows its own name exactly
      when the map has no entry for it: multi-character names, digits and
      the punctuation the map leaves out. */
  lemma OwnNameIffNoEntry(key: string, shift: bool)
    ensures KeyLabel(Nepali, shift, key) == key <==> Lookup(key).None?
  {
    if |key| == 1 {
      var c := key[0];
      assert ToUpper(key) == [UpperChar(c)];
      GlyphsAreDevanagari(c);
      GlyphsAreDevanagari(UpperChar(c));
      if 'a' <= c <= 'z' {
        LettersHaveGlyphs(c);
      }
    }
  }

  /** Upper-casing leaves a key that is not a lower-case letter as it is, so
      such a key shows the same with and without Shift. */
  lemma ShiftOnlyChangesLetters(key: string)
    requires |key| == 1 && !('a' <= key[0] <= 'z')
    ensures KeyLabel(Nepali, true, key) == KeyLabel(Nepali, false, key)
  {
    assert ToUpper(key) == [UpperChar(key[0])] == key;
  }

  /** The shape of the entries for the shifted punctuation `: " < > ?`:
      SA or RA with a virama, or one of the vowels UU, O, AU. */
  predicate ShiftedPunctuationGlyph(v: string)
  {
    || (|v| == 2 && (v[0] == 'स' || v[0] == 'र') && v[1] == '्')
    || (|v| == 1 && (v[0] == 'ू' || v[0] == 'ओ' || v[0] == 'औ'))
  }

  /** The shifted punctuation's entries have that shape ... */
  lemma ShiftedPunctuationGlyphShape(p: char)
    requires p in ":\"<>?"
    ensures NepaliGlyph(p).Some? && ShiftedPunctuationGlyph(NepaliGlyph(p).value)
  {
  }

  /** ... and no other entry has it. */
  lemma OtherGlyphsHaveOtherShapes(c: char)
    requires NepaliGlyph(c).Some? && c !in ":\"<>?"
    ensures !ShiftedPunctuationGlyph(NepaliGlyph(c).value)
  {
    if 'a' <= c <= 'z' {
      LowerGlyphShapes(c);
    } else if 'A' <= c <= 'Z' {
      UpperGlyphShapes(c);
    }
  }

  /** The lower-case letters' share of `OtherGlyphsHaveOtherShapes`. */
  lemma LowerGlyphShapes(c: char)
    requires 'a' <= c <= 'z'
    ensures NepaliGlyph(c).Some? && !ShiftedPunctuationGlyph(NepaliGlyph(c).value)
  {
  }

  /** The upper-case letters' share of `OtherGlyphsHaveOtherShapes`. */
  lemma UpperGlyphShapes(c: char)
    requires 'A' <= c <= 'Z'
    ensures NepaliGlyph(c).Some? && !ShiftedPunctuationGlyph(NepaliGlyph(c).value)
  {
  }

  /** Every key of the layout is named in ASCII, and none is one of the
      shifted punctuation characters `: " < > ?`. */
  lemma LayoutKeyNames(i: nat, j: nat)
    requires i < |ROWS| && j < |ROWS[i]|
    ensures |ROWS[i][j]| > 0 && ROWS[i][j][0] < '\U{0080}'
    ensures |ROWS[i][j]| == 1 ==> ROWS[i][j][0] !in ":\"<>?"
  {
  }

  /** A key named in ASCII that is not one of the shifted punctuation
      characters never shows the entry of one of them: upper-casing it
      never yields one of them either. */
  lemma ShiftedPunctuationNotShown(key: string, shift: bool, p: char)
    requires |key| > 0 && key[0] < '\U{0080}'
    requires |key| == 1 ==> key[0] !in ":\"<>?"
    requires p in ":\"<>?"
    ensures NepaliGlyph(p).Some? && KeyLabel(Nepali, shift, key) != NepaliGlyph(p).value
  {
    ShiftedPunctuationGlyphShape(p);
    if |key| == 1 {
      var c := key[0];
      assert ToUpper(key) == [UpperChar(c)];
      if NepaliGlyph(c).Some? {
        OtherGlyphsHaveOtherShapes(c);
      }
      if NepaliGlyph(UpperChar(c)).Some? {
        OtherGlyphsHaveOtherShapes(UpperChar(c));
      }
    }
  }

  /** The map's entries for the shifted punctuation `: " < > ?` are never
      shown on the layout, with or without Shift. */
  lemma ShiftedPunctuationHidden(i: nat, j: nat, shift: bool, p: char)
    requires i < |ROWS| && j < |ROWS[i]| && p in ":\"<>?"
    ensures NepaliGlyph(p).Some? && KeyLabel(Nepali, shift, ROWS[i][j]) != NepaliGlyph(p).value
  {
    LayoutKeyNames(i, j);
    ShiftedPunctuationNotShown(ROWS[i][j], shift, p);
  }

  /** `isActive` for the key `key` of the layout. */
  predicate IsActive(activeKey: Option<string>, key: string)
  {
    activeKey == Some(ToLower(key)) || (key == "Space" && activeKey == Some(" "))
  }

  /** Upper-casing loses nothing lower-casing would keep. */
  lemma {:induction false} ToLowerOfUpper(s: string)
    ensures ToLower(ToUpper(s)) == ToLower(s)
  {
    if s != [] {
      ToLowerOfUpper(s[1..]);
      assert ToUpper(s) == [UpperChar(s[0])] + ToUpper(s[1..]);
    }
  }

  /** A layout key lights up after a keydown of its name or of the
      upper-case form of its name (a letter typed with Shift or Caps Lock). */
  lemma PressedKeyIsActive(key: string)
    ensures IsActive(Some(ToLower(key)), key)
    ensures IsActive(Some(ToLower(ToUpper(key))), key)
  {
    ToLowerOfUpper(key);
  }

  /** The `activeKey` / `isShiftDown` state and its window listeners. */
  class Keyboard {
    var activeKey: Option<string>
    var isShiftDown: bool

    constructor ()
      ensures activeKey == None && !isShiftDown
    {
      activeKey := None;
      isShiftDown := false;
    }

    /** `handleKeyDown`: the lower-cased key becomes active; Shift sets the
        shift state. */
    method KeyDown(key: string)
      modifies this
      ensures activeKey == Some(ToLower(key))
      ensures isShiftDown == (old(isShiftDown) || key == "Shift")
    {
      activeKey := Some(ToLower(key));
      if key == "Shift" {
        isShiftDown := true;
      }
    }

    /** `handleKeyUp`: the active key is cleared only if it is the released
        key (lower-cased); Shift clears the shift state. */
    method KeyUp(key: string)
      modifies this
      ensures activeKey == if old(activeKey) == Some(ToLower(key)) then None else old(activeKey)
      ensures isShiftDown == (old(isShiftDown) && key != "Shift")
    {
      if activeKey == Some(ToLower(key)) {
        activeKey := None;
      }
      if key == "Shift" {
        isShiftDown := false;
      }
    }
  }

  /** Pressing and releasing a key, even with a different case on release
      (Shift let go first), leaves no key active. */
  method PressAndRelease(kb: Keyboard, down: string, up: string)
    requires ToLower(down) == ToLower(up)
    modifies kb
    ensures kb.activeKey == None
  {
    kb.KeyDown(down);
    kb.KeyUp(up);
  }
}
