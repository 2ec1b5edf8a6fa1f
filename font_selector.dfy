/** `getFontClass` over the `NEPALI_FONTS` table
    (src/components/FontSelector.tsx:3-11, 46-48). */
module FontSelector {
  import opened Common

  datatype FontOption = FontOption(title: string, value: string, className: string)

  const NEPALI_FONTS: seq<FontOption> := [
    FontOption("Noto Sans Devanagari", "noto", "font-noto"),
    FontOption("Mukta", "mukta", "font-mukta"),
    FontOption("Hind", "hind", "font-hind"),
    FontOption("Noto Serif Devanagari", "tiro", "font-tiro"),
    FontOption("Preeti", "preeti", "font-preeti"),
    FontOption("Kantipur", "kantipur", "font-kantipur"),
    FontOption("Sagarmatha", "sagarmatha", "font-sagarmatha")
  ]

  const DEFAULT_CLASS: string := "font-noto"

  /** `table.find((f) => f.value === value)`: the first entry with that value. */
  function Find(table: seq<FontOption>, value: string): (r: Option<nat>)
    ensures r.None? <==> forall f :: f in table ==> f.value != value
    ensures r.Some? ==> r.value < |table| && table[r.value].value == value
    ensures r.Some? ==> forall j :: 0 <= j < r.value ==> table[j].value != value
  {
    if table == [] then None
    else if table[0].value == value then Some(0)
    else
      match Find(table[1..], value)
      case None => None
      case Some(k) => Some(k + 1)
  }

  /** `table.find((f) => f.value === value)?.className ?? fallback` */
  function ClassOf(table: seq<FontOption>, value: string, fallback: string): (r: string)
    ensures forall i :: 0 <= i < |table| ==>
      (table[i].value == value && (forall j :: 0 <= j < i ==> table[j].value != value)) ==>
      r == table[i].className
    ensures (forall f :: f in table ==> f.value != value) ==> r == fallback
  {
    match Find(table, value)
    case None => fallback
    case Some(k) => table[k].className
  }

  /** `getFontClass(value)`: the class of the first listed font with that
      value, `"font-noto"` for an unlisted value. */
  function GetFontClass(value: string): string
  {
    ClassOf(NEPALI_FONTS, value, DEFAULT_CLASS)
  }

  /** The default agrees with the table: the default font's own class is the
      fallback class. */
  lemma DefaultIsListed()
    ensures GetFontClass("noto") == DEFAULT_CLASS
  {
    assert NEPALI_FONTS[0].value == "noto";
  }

  /** The listed values are distinct: they differ in their first letter. */
  lemma DistinctValues(i: nat, j: nat)
    requires j < i < |NEPALI_FONTS|
    ensures NEPALI_FONTS[i].value != NEPALI_FONTS[j].value
  {
    var initials := "nmhtpks";
    assert forall k :: 0 <= k < |NEPALI_FONTS| ==> NEPALI_FONTS[k].value[0] == initials[k];
    assert initials[i] != initials[j];
  }

  /** Every listed font selects its own class (the seven values are
      distinct), and anything else falls back to the default. */
  lemma GetFontClassSelects(value: string)
    ensures forall f :: f in NEPALI_FONTS && f.value == value ==> GetFontClass(value) == f.className
    ensures (forall f :: f in NEPALI_FONTS ==> f.value != value) ==> GetFontClass(value) == DEFAULT_CLASS
  {
    forall i | 0 <= i < |NEPALI_FONTS| && NEPALI_FONTS[i].value == value
      ensures GetFontClass(value) == NEPALI_FONTS[i].className
    {
      forall j | 0 <= j < i ensures NEPALI_FONTS[j].value != value {
        DistinctValues(i, j);
      }
    }
  }

  /** Whatever the value, the class is one of the seven listed. */
  lemma GetFontClassIsListed(value: string)
    ensures exists f :: f in NEPALI_FONTS && f.className == GetFontClass(value)
  {
    match Find(NEPALI_FONTS, value)
    case None =>
      assert NEPALI_FONTS[0] in NEPALI_FONTS;
    case Some(k) =>
      assert NEPALI_FONTS[k] in NEPALI_FONTS;
  }
}
