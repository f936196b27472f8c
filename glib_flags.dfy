// The flag enumerations of the GLib binding's top-level header (glib/poppler.h):
// which annotation types a page render draws, the deprecated print flags, and
// the text-search flags. Each C enum is an `int`; the model uses `bv32`, so the
// complement in PRINT_MARKUP sets the six bits above the 26 annotation types,
// exactly as the C expression does.

// Facts about single bits of a 32-bit mask, independent of what the bits mean.
module Bits {

  /** A bit is set in `a | b` exactly when it is set in `a` or in `b`
      (so `LINK | TEXT` renders both kinds). */
  lemma OrOnBit(a: bv32, b: bv32, f: bv32)
    ensures (a | b) & f != 0 <==> a & f != 0 || b & f != 0
  {
    assert (a | b) & f == (a & f) | (b & f);
  }

  /** If neither `a` nor `b` has a bit in `m`, neither has `a | b`. */
  lemma OrOutside(a: bv32, b: bv32, m: bv32)
    requires a & m == 0 && b & m == 0
    ensures (a | b) & m == 0
  {
    assert (a | b) & m == (a & m) | (b & m);
  }

  /** Flipping a single bit with `^` turns it on exactly when it was off. */
  lemma XorFlipsBit(x: bv32, f: bv32)
    requires f != 0 && f & (f - 1) == 0
    ensures (x ^ f) & f != 0 <==> x & f == 0
  {
    assert (x ^ f) & f == (x & f) ^ f;
    SingleBitMask(x, f);
  }

  /** Flipping bits with `^` leaves every bit outside them as it was. */
  lemma XorKeepsOtherBits(x: bv32, b: bv32, c: bv32)
    requires b & c == 0
    ensures (x ^ b) & c == x & c
  {
    assert (x ^ b) & c == (x & c) ^ (b & c);
  }

  /** Masking with a single bit leaves either nothing or that bit. */
  lemma SingleBitMask(x: bv32, f: bv32)
    requires f != 0 && f & (f - 1) == 0
    ensures x & f == 0 || x & f == f
  {
  }

  /** A single bit is set in `a & ~b` exactly when it is set in `a` and not in `b`
      (so `ALL & ~TEXT` disables only TEXT). */
  lemma MaskOutOnBit(a: bv32, b: bv32, f: bv32)
    requires f != 0 && f & (f - 1) == 0
    ensures (a & !b) & f != 0 <==> a & f != 0 && b & f == 0
  {
    assert (a & !b) & f == (a & f) & !(b & f);
    SingleBitMask(a, f);
    SingleBitMask(b, f);
  }
}

module RenderAnnots {

  import Bits

  /** The 26 annotation types PopplerRenderAnnotsFlags can select, in bit order. */
  datatype AnnotType =
    | Text | Link | FreeText | Line | Square | Circle | Polygon | PolyLine
    | Highlight | Underline | Squiggly | StrikeOut | Stamp | Caret | Ink | Popup
    | FileAttachment | Sound | Movie | Widget | Screen | PrinterMark | TrapNet
    | Watermark | ThreeD | RichMedia

  /** Every type once, listed by increasing bit position. */
  const AllTypes: seq<AnnotType> :=
    [Text, Link, FreeText, Line, Square, Circle, Polygon, PolyLine,
     Highlight, Underline, Squiggly, StrikeOut, Stamp, Caret, Ink, Popup,
     FileAttachment, Sound, Movie, Widget, Screen, PrinterMark, TrapNet,
     Watermark, ThreeD, RichMedia]

  /** The shift that defines the type's flag (`1 << n`). */
  function Shift(t: AnnotType): (n: bv32)
    ensures n < 26
  {
    match t
    case Text => 0
    case Link => 1
    case FreeText => 2
    case Line => 3
    case Square => 4
    case Circle => 5
    case Polygon => 6
    case PolyLine => 7
    case Highlight => 8
    case Underline => 9
    case Squiggly => 10
    case StrikeOut => 11
    case Stamp => 12
    case Caret => 13
    case Ink => 14
    case Popup => 15
    case FileAttachment => 16
    case Sound => 17
    case Movie => 18
    case Widget => 19
    case Screen => 20
    case PrinterMark => 21
    case TrapNet => 22
    case Watermark => 23
    case ThreeD => 24
    case RichMedia => 25
  }

  /** POPPLER_RENDER_ANNOTS_<type> */
  function Flag(t: AnnotType): bv32 {
    (1 as bv32) << Shift(t)
  }

  /** POPPLER_RENDER_ANNOTS_NONE */
  const NoAnnots: bv32 := 0

  /** POPPLER_RENDER_ANNOTS_PRINT_DOCUMENT */
  const PrintDocument: bv32 := Flag(Widget)

  /** The types that PRINT_MARKUP leaves out. */
  const NotMarkup: set<AnnotType> :=
    {Link, Popup, Movie, Screen, PrinterMark, TrapNet, Watermark, ThreeD}

  /** POPPLER_RENDER_ANNOTS_PRINT_MARKUP: the complement of eight types. */
  const PrintMarkup: bv32 :=
    !(Flag(Link) | Flag(Popup) | Flag(Movie) | Flag(Screen) | Flag(PrinterMark) | Flag(TrapNet)
      | Flag(Watermark) | Flag(ThreeD))

  /** POPPLER_RENDER_ANNOTS_PRINT_STAMP */
  const PrintStamp: bv32 := Flag(Widget) | Flag(Stamp)

  /** POPPLER_RENDER_ANNOTS_PRINT_ALL */
  const PrintAll: bv32 := PrintMarkup

  /** POPPLER_RENDER_ANNOTS_ALL: shift the last flag and subtract one. */
  const All: bv32 := (Flag(RichMedia) << 1) - 1

  /** The bits above the 26 annotation types. */
  const HighBits: bv32 := 0xFC00_0000

  /** A render with `mask` draws annotations of type `t`. */
  predicate Renders(mask: bv32, t: AnnotType) {
    mask & Flag(t) != 0
  }

  /** Every bit of `inner` is also set in `outer`. */
  predicate Within(inner: bv32, outer: bv32) {
    inner & !outer == 0
  }

  /** The bitwise OR of the flags of `ts`. */
  function Combine(ts: seq<AnnotType>): bv32 {
    if ts == [] then 0 else Combine(ts[..|ts| - 1]) | Flag(ts[|ts| - 1])
  }

  /** Each flag is a single bit: a non-zero power of two. */
  lemma FlagIsSingleBit(t: AnnotType)
    ensures Flag(t) != 0 && Flag(t) & (Flag(t) - 1) == 0
    ensures Flag(t) & HighBits == 0
  {
  }

  /** Two different types never share a bit. */
  lemma FlagsDisjoint(s: AnnotType, t: AnnotType)
    ensures s != t <==> Flag(s) & Flag(t) == 0
  {
    assert s != t ==> Shift(s) != Shift(t);
  }

  /** NONE draws no annotation type. */
  lemma NoAnnotsRendersNothing(t: AnnotType)
    ensures !Renders(NoAnnots, t)
  {
  }

  /** A combined mask draws exactly the listed types. */
  lemma {:induction false} CombineRenders(ts: seq<AnnotType>, t: AnnotType)
    ensures Renders(Combine(ts), t) <==> t in ts
  {
    if ts != [] {
      var init, last := ts[..|ts| - 1], ts[|ts| - 1];
      CombineRenders(init, t);
      Bits.OrOnBit(Combine(init), Flag(last), Flag(t));
      FlagsDisjoint(last, t);
      assert ts == init + [last];
    }
  }

  /** AllTypes lists the types in the order of their bits. */
  lemma AllTypesInBitOrder(i: bv32)
    requires i < 26
    ensures Shift(AllTypes[i]) == i
  {
  }

  /** The first `n` types combine to the `n` low bits. */
  lemma {:induction false} CombinePrefix(n: bv32)
    requires n <= 26
    ensures Combine(AllTypes[..n]) == (1 << n) - 1
    decreases n
  {
    if n > 0 {
      CombinePrefix(n - 1);
      assert AllTypes[..n][..n - 1] == AllTypes[..n - 1];
      AllTypesInBitOrder(n - 1);
    }
  }

  /** ALL is the OR of the 26 type flags and sets no other bit. */
  lemma AllIsEveryType()
    ensures All == Combine(AllTypes)
    ensures All & HighBits == 0
  {
    CombinePrefix(26);
    assert AllTypes[..26] == AllTypes;
  }

  /** ALL draws every type. */
  lemma AllRendersEveryType(t: AnnotType)
    ensures Renders(All, t)
  {
    AllIsEveryType();
    CombineRenders(AllTypes, t);
  }

  /** Inside ALL, PRINT_MARKUP leaves out exactly the eight non-markup types;
      its six bits above the types are set by the complement. */
  lemma PrintMarkupExcludesExactly(t: AnnotType)
    ensures Renders(PrintMarkup, t) <==> t !in NotMarkup
    ensures PrintMarkup & HighBits == HighBits
  {
  }

  /** The print presets are nested: DOCUMENT, then STAMP, then MARKUP = PRINT_ALL. */
  lemma PrintPresetsNested()
    ensures Within(PrintDocument, PrintStamp)
    ensures Within(PrintStamp, PrintMarkup)
    ensures PrintStamp != PrintDocument && PrintMarkup != PrintStamp
    ensures PrintAll == PrintMarkup
  {
  }

  /** `ALL & ~TEXT` keeps every type except TEXT. */
  lemma AllButText(t: AnnotType)
    ensures Renders(All & !Flag(Text), t) <==> t != Text
  {
    FlagIsSingleBit(t);
    Bits.MaskOutOnBit(All, Flag(Text), Flag(t));
    AllRendersEveryType(t);
    FlagsDisjoint(t, Text);
  }
}

module PrintFlags {

  /** PopplerPrintFlags (deprecated in favour of RenderAnnots). */
  const PrintDocument: bv32 := 0
  const PrintMarkupAnnots: bv32 := 1 << 0
  const PrintStampAnnotsOnly: bv32 := 1 << 1
  const PrintAll: bv32 := PrintMarkupAnnots

  /** The two options are different single bits, DOCUMENT has none of them,
      and PRINT_ALL is an alias of MARKUP_ANNOTS. */
  lemma PrintFlagsShape()
    ensures PrintMarkupAnnots & PrintStampAnnotsOnly == 0
    ensures PrintMarkupAnnots != 0 && PrintStampAnnotsOnly != 0
    ensures PrintDocument & (PrintMarkupAnnots | PrintStampAnnotsOnly) == 0
    ensures PrintAll == PrintMarkupAnnots
  {
  }
}

module FindFlags {

  /** The search options of PopplerFindFlags. */
  datatype FindOption = CaseSensitive | Backwards | WholeWordsOnly | IgnoreDiacritics | Multiline

  function Shift(o: FindOption): (n: bv32)
    ensures n < 5
  {
    match o
    case CaseSensitive => 0
    case Backwards => 1
    case WholeWordsOnly => 2
    case IgnoreDiacritics => 3
    case Multiline => 4
  }

  /** POPPLER_FIND_<option> */
  function Flag(o: FindOption): bv32 {
    (1 as bv32) << Shift(o)
  }

  /** POPPLER_FIND_DEFAULT */
  const Default: bv32 := 0

  /** Each option is one bit, different options are different bits, and the
      default search enables none of them. */
  lemma FindOptionsAreDistinctBits(a: FindOption, b: FindOption)
    ensures Flag(a) != 0 && Flag(a) & (Flag(a) - 1) == 0
    ensures a != b <==> Flag(a) & Flag(b) == 0
    ensures Default & Flag(a) == 0
  {
    assert a != b ==> Shift(a) != Shift(b);
  }
}
